/** The controllers in their own form: methods that read the API server, mutate the object they read, and
    write back step by step. Each is proved against the functions of Reconcile. */
module Controller {
  import opened Types
  import opened Conditions
  import opened Render
  import opened Guard
  import opened Reconcile
  import opened InitData
  import opened Tenant
  import Promises

  datatype Item<T> = Item(key: Key, obj: T)

  function Listed<T>(m: map<Key, T>, order: seq<Key>): seq<Item<T>>
    requires forall k <- order :: k in m
  {
    seq(|order|, i requires 0 <= i < |order| => Item(order[i], m[order[i]]))
  }

  /** The API server as one client sees it: every call acts on the current cluster. */
  class ApiServer {
    var cluster: Cluster

    constructor (cluster: Cluster)
      ensures this.cluster == cluster
    {
      this.cluster := cluster;
    }

    method ListServices(order: seq<Key>) returns (items: seq<Item<InferenceService>>)
      requires forall k <- order :: k in cluster.services
      ensures items == Listed(cluster.services, order)
    {
      items := Listed(cluster.services, order);
    }

    method ListDeployments(order: seq<Key>) returns (items: seq<Item<Deployment>>)
      requires forall k <- order :: k in cluster.deployments
      ensures items == Listed(cluster.deployments, order)
    {
      items := Listed(cluster.deployments, order);
    }

    method ListPods(order: seq<Key>) returns (items: seq<Item<Pod>>)
      requires forall k <- order :: k in cluster.pods
      ensures items == Listed(cluster.pods, order)
    {
      items := Listed(cluster.pods, order);
    }

    method ApplyConfigMap(ns: string)
      modifies this
      ensures cluster == PutConfigMap(old(cluster), ns)
    {
      cluster := cluster.(configMaps := cluster.configMaps[GaiKey(ns) := GaiConfigMap()]);
    }

    /** Returns the stored object, status included, or None when the apply is rejected. */
    method ApplyDeployment(key: Key, uid: nat, template: PodTemplate) returns (stored: Option<Deployment>)
      modifies this
      ensures stored.Some? <==> !DeploymentTaken(old(cluster), key, uid)
      ensures cluster == if stored.Some? then PutDeployment(old(cluster), key, uid, template) else old(cluster)
      ensures stored.Some? ==> key in cluster.deployments && stored.value == cluster.deployments[key]
    {
      if key in cluster.deployments && Taken(cluster.deployments[key].controller, uid) {
        return None;
      }
      var status := if key in cluster.deployments then cluster.deployments[key].conditions else [];
      var deployment := Deployment(Some(ByService(uid)), template, status);
      cluster := cluster.(deployments := cluster.deployments[key := deployment]);
      stored := Some(deployment);
    }

    method ApplyService(key: Key, uid: nat) returns (ok: bool)
      modifies this
      ensures ok <==> !ServiceTaken(old(cluster), key, uid)
      ensures cluster == if ok then PutService(old(cluster), key, uid) else old(cluster)
    {
      var at := ServiceKey(key);
      ok := !(at in cluster.kubeServices && Taken(cluster.kubeServices[at].controller, uid));
      if ok {
        cluster := cluster.(kubeServices := cluster.kubeServices[at := Service(Some(ByService(uid)), key.name)]);
      }
    }

    /** Writes the status of an object that is still as it was read. */
    method UpdateStatus(isvc: ServiceCopy)
      requires isvc.key in cluster.services && cluster.services[isvc.key] == isvc.read
      modifies this
      ensures cluster == PutStatus(old(cluster), isvc.key, isvc.status)
    {
      cluster := cluster.(services := cluster.services[isvc.key := cluster.services[isvc.key].(status := isvc.status)]);
    }
  }

  /** The decoded object a reconcile works on: metadata and spec as read, status mutated in place. */
  class ServiceCopy {
    const key: Key
    const read: InferenceService
    var status: Status

    constructor (key: Key, read: InferenceService)
      ensures this.key == key && this.read == read && status == read.status
    {
      this.key := key;
      this.read := read;
      this.status := read.status;
    }
  }

  method PodSpecMountsClaim(spec: PodSpec, claim: string) returns (found: bool)
    ensures found <==> MountsClaim(spec, claim)
  {
    for i := 0 to |spec.volumes|
      invariant forall j :: 0 <= j < i ==> spec.volumes[j].source != PersistentVolumeClaim(claim)
    {
      var source := spec.volumes[i].source;
      if source.PersistentVolumeClaim? && source.claimName == claim {
        return true;
      }
    }
    return false;
  }

  method DeploymentAvailable(deployment: Deployment) returns (found: bool)
    ensures found <==> IsAvailable(deployment.conditions)
  {
    for i := 0 to |deployment.conditions|
      invariant forall j :: 0 <= j < i ==>
                  !(deployment.conditions[j].kind == "Available" && deployment.conditions[j].status == True)
    {
      if deployment.conditions[i].kind == "Available" && deployment.conditions[i].status == True {
        return true;
      }
    }
    return false;
  }

  class InferenceServiceReconciler {
    const client: ApiServer

    constructor (client: ApiServer)
      ensures this.client == client
    {
      this.client := client;
    }

    method SetCondition(isvc: ServiceCopy, kind: ConditionType, status: ConditionStatus, reason: Reason,
                        message: Message, now: nat)
      modifies isvc
      ensures isvc.status == old(isvc.status).(conditions :=
                Upsert(old(isvc.status.conditions), Condition(kind, status, reason, message, isvc.read.generation,
                    now)))
    {
      var condition := Condition(kind, status, reason, message, isvc.read.generation, now);
      isvc.status := isvc.status.(conditions := Upsert(isvc.status.conditions, condition));
    }

    method FailConfigured(isvc: ServiceCopy, reason: Reason, message: Message, now: Clock)
      requires isvc.key in client.cluster.services && client.cluster.services[isvc.key] == isvc.read
      requires isvc.status == isvc.read.status
      modifies isvc, client
      ensures client.cluster == PutStatus(old(client.cluster), isvc.key, FailedStatus(isvc.read, reason, message, now))
    {
      SetCondition(isvc, Configured, False, reason, message, now.configured);
      SetCondition(isvc, Ready, False, reason, message, now.ready);
      SetCondition(isvc, Progressing, False, reason, message, now.progressing);
      isvc.status := isvc.status.(observedGeneration := isvc.read.generation);
      client.UpdateStatus(isvc);
    }

    method UpdateReadyStatus(isvc: ServiceCopy, tenant: BrukTenant, model: BrukModel, deployment: Deployment,
                             now: Clock)
      requires isvc.key in client.cluster.services && client.cluster.services[isvc.key] == isvc.read
      requires isvc.status == isvc.read.status
      modifies isvc, client
      ensures client.cluster ==
                PutStatus(old(client.cluster), isvc.key,
                          AppliedStatus(isvc.key, isvc.read, tenant, model, IsAvailable(deployment.conditions), now))
      ensures isvc.key in client.cluster.services
      ensures var available := DeploymentCondition("Available", True) in deployment.conditions;
              Promises.CarriesWorkload(isvc.read.status.conditions, client.cluster.services[isvc.key].status.conditions,
                                       available, isvc.read.generation, now)
    {
      hide Promises.CarriesWorkload;

      SetCondition(isvc, Configured, True, ConfiguredReason, WorkloadApplied, now.configured);
      var available := DeploymentAvailable(deployment);
      if available {
        SetCondition(isvc, WorkloadAvailable, True, WorkloadReady, DeploymentIsAvailable, now.workloadAvailable);
        SetCondition(isvc, Ready, True, WorkloadReady, WorkloadServing, now.ready);
        SetCondition(isvc, Progressing, False, WorkloadReady, RolloutComplete, now.progressing);
      } else {
        SetCondition(isvc, WorkloadAvailable, False, WorkloadPending, NotYetAvailable, now.workloadAvailable);
        SetCondition(isvc, Ready, False, WorkloadPending, NotYetAvailable, now.ready);
        SetCondition(isvc, Progressing, True, Deploying, NotYetAvailable, now.progressing);
      }
      var resolved := ResolveImage(TenantConfig(tenant));
      isvc.status := isvc.status.(
        endpoint := Some(EndpointURL(isvc.key)),
        servedModelName := ServedModelName(isvc.read.spec.modelRef, model),
        resolvedImage := if resolved.Success? then resolved.value else "",
        appliedInitDataHash := InitDataHash(tenant.initDataB64),
        observedGeneration := isvc.read.generation);
      client.UpdateStatus(isvc);
      Promises.AvailableMeans(deployment.conditions);
      Promises.AppliedCarries(isvc.read.status.conditions, isvc.read.generation, available, now);
    }

    method TrustedStoreConflict(isvc: ServiceCopy, order: Listing) returns (message: Option<Message>)
      requires Lists(order, client.cluster, isvc.key.ns)
      ensures message == GuardMessage(client.cluster, isvc.key, isvc.read, order)
      ensures message.Some? <==> Conflicted(client.cluster, isvc.key, isvc.read)
    {
      GuardIsExact(client.cluster, isvc.key, isvc.read, order);
      var c := client.cluster;
      var claim := isvc.read.Claim();

      var siblings := client.ListServices(order.siblings);
      for i := 0 to |siblings|
        invariant FirstHolder(OlderSibling, c, isvc.key, isvc.read, order.siblings)
               == FirstHolder(OlderSibling, c, isvc.key, isvc.read, order.siblings[i..])
      {
        var other := siblings[i];
        assert order.siblings[i] in order.siblings;
        if other.key.name == isvc.key.name || other.obj.Claim() != claim {
          continue;
        }
        if Order.Precedes(other.key.name, other.obj, isvc.key.name, isvc.read) {
          return Some(HeldBy(OlderSibling, other.key.name, claim));
        }
      }

      var deployments := client.ListDeployments(order.deployments);
      for i := 0 to |deployments|
        invariant FirstHolder(OtherDeployment, c, isvc.key, isvc.read, order.deployments)
               == FirstHolder(OtherDeployment, c, isvc.key, isvc.read, order.deployments[i..])
      {
        var deployment := deployments[i];
        assert order.deployments[i] in order.deployments;
        if ControlledBy(deployment.obj, isvc.read) {
          continue;
        }
        var mounts := PodSpecMountsClaim(deployment.obj.template.spec, claim);
        if mounts {
          return Some(HeldBy(OtherDeployment, deployment.key.name, claim));
        }
      }

      var pods := client.ListPods(order.pods);
      for i := 0 to |pods|
        invariant FirstHolder(StandalonePod, c, isvc.key, isvc.read, order.pods)
               == FirstHolder(StandalonePod, c, isvc.key, isvc.read, order.pods[i..])
      {
        var pod := pods[i];
        assert order.pods[i] in order.pods;
        if |pod.obj.ownerReferences| > 0 {
          continue;
        }
        var mounts := PodSpecMountsClaim(pod.obj.spec, claim);
        if mounts {
          return Some(HeldBy(StandalonePod, pod.key.name, claim));
        }
      }
      return None;
    }

    /** `ok` is false when an apply was rejected: the reconcile then returns an error without writing status. */
    method Reconcile(key: Key, call: Call) returns (ok: bool)
      requires Lists(call.order, client.cluster, key.ns)
      modifies client
      ensures client.cluster == Reconciled(old(client.cluster), key, call)
      ensures ok <==> var ending := Ending(old(client.cluster), key, call);
                      !ending.DeploymentRejected? && !ending.ServiceRejected?
    {
      var found := Lookup(client.cluster.services, key);
      if found.None? {
        return true;
      }
      var isvc := new ServiceCopy(key, found.value);

      var tenant := client.cluster.tenant;
      if tenant.None? {
        FailConfigured(isvc, TenantConfigMissing, NoTenant, call.now);
        return true;
      }

      var model := Lookup(client.cluster.models, Key(key.ns, isvc.read.spec.modelRef));
      if model.None? {
        FailConfigured(isvc, ModelNotFound, NoModel(isvc.read.spec.modelRef, key.ns), call.now);
        return true;
      }

      if isvc.read.spec.storage.trustedStore.localVolume.Some? {
        FailConfigured(isvc, NotImplemented, LocalVolumeReserved, call.now);
        return true;
      }
      if model.value.source.None? {
        FailConfigured(isvc, InvalidConfig, NoSource(isvc.read.spec.modelRef), call.now);
        return true;
      }
      if isvc.read.spec.engine.maxModelLen > model.value.contextLength {
        FailConfigured(isvc, InvalidConfig, TooLong(isvc.read.spec.engine.maxModelLen, model.value.contextLength),
            call.now);
        return true;
      }

      var conflict := TrustedStoreConflict(isvc, call.order);
      if conflict.Some? {
        FailConfigured(isvc, Reason.TrustedStoreConflict, conflict.value, call.now);
        return true;
      }
      assert Conflict(client.cluster, key, call.order) == None;
      ok := ApplyChildren(isvc, tenant.value, model.value, call.now);
    }

    /** The second half of a reconcile, after the guard has passed. */
    method ApplyChildren(isvc: ServiceCopy, tenant: BrukTenant, model: BrukModel, now: Clock) returns (ok: bool)
      requires isvc.key in client.cluster.services && client.cluster.services[isvc.key] == isvc.read
      requires isvc.status == isvc.read.status
      requires Checks(client.cluster, isvc.key, isvc.read) == Go(tenant, model)
      modifies isvc, client
      ensures client.cluster == Resolved(old(client.cluster), isvc.key, None, now)
      ensures ok <==> var ending := OutcomeOf(old(client.cluster), isvc.key, None);
                      !ending.DeploymentRejected? && !ending.ServiceRejected?
    {
      ghost var start := client.cluster;
      if isvc.read.spec.storage.weightsCache.Some? {
        client.ApplyConfigMap(isvc.key.ns);
      }
      ghost var prepared := client.cluster;
      assert prepared == Write(start, isvc.key, Writes(None, None, None, isvc.read.spec.storage.weightsCache.Some?));

      var rendered := RenderFor(isvc.key, isvc.read, tenant, model);
      if rendered.Failure? {
        assert OutcomeOf(start, isvc.key, None) == RenderFailed(rendered.error);
        FailConfigured(isvc, InvalidConfig, rendered.error, now);
        return true;
      }
      ConfigMapFirst(start, isvc.key, rendered.value, tenant, model, now);
      assert OutcomeOf(start, isvc.key, None) == WorkloadOutcome(start, isvc.key, isvc.read, rendered.value, tenant,
          model);
      ok := ApplyWorkload(isvc, tenant, model, rendered.value, now);
    }

    /** Deployment, Service, status. */
    method ApplyWorkload(isvc: ServiceCopy, tenant: BrukTenant, model: BrukModel, template: PodTemplate,
                         now: Clock) returns (ok: bool)
      requires isvc.key in client.cluster.services && client.cluster.services[isvc.key] == isvc.read
      requires isvc.status == isvc.read.status
      modifies isvc, client
      ensures var outcome := WorkloadOutcome(old(client.cluster), isvc.key, isvc.read, template, tenant, model);
              && (ok <==> outcome.Succeeded?)
              && client.cluster == Write(old(client.cluster), isvc.key,
                                         WritesOf(old(client.cluster), isvc.key, outcome, now).(configMap := false))
    {
      WorkloadIsOneWrite(client.cluster, isvc.key, isvc.read, template, tenant, model, now);
      hide WritesOf, Write, AppliedStatus;
      var deployment := client.ApplyDeployment(isvc.key, isvc.read.uid, template);
      if deployment.None? {
        return false;
      }
      var applied := client.ApplyService(isvc.key, isvc.read.uid);
      if !applied {
        return false;
      }
      UpdateReadyStatus(isvc, tenant, model, deployment.value, now);
      return true;
    }

    /** Re-queues every service that references the model stored under `changed`. */
    method ServicesForModel(changed: Key, order: seq<Key>) returns (requests: seq<Key>)
      requires Enumerates(order, client.cluster.services.Keys, changed.ns)
      ensures forall k :: k in requests <==>
                k in client.cluster.services && ModelKey(k, client.cluster.services[k]) == changed
      ensures Distinct(requests)
    {
      var services := client.ListServices(order);
      requests := [];
      for i := 0 to |services|
        invariant forall k :: k in requests <==> exists j ::
            0 <= j < i && order[j] == k && services[j].obj.spec.modelRef == changed.name
        invariant Distinct(requests)
      {
        if services[i].obj.spec.modelRef == changed.name {
          assert order[i] !in requests;
          requests := requests + [services[i].key];
        }
      }
      forall k
        ensures k in requests <==> k in client.cluster.services && ModelKey(k, client.cluster.services[k]) == changed
      {
        assert k in order <==> k in client.cluster.services && k.ns == changed.ns;
      }
    }

    /** Re-queues every service. */
    method AllServices(order: seq<Key>) returns (requests: seq<Key>)
      requires (forall k :: k in order <==> k in client.cluster.services) && Distinct(order)
      ensures forall k :: k in requests <==> k in client.cluster.services
      ensures Distinct(requests)
    {
      var services := client.ListServices(order);
      requests := [];
      for i := 0 to |services|
        invariant requests == order[..i]
      {
        requests := requests + [services[i].key];
      }
    }
  }

  class BrukTenantReconciler {
    const client: ApiServer

    constructor (client: ApiServer)
      ensures this.client == client
    {
      this.client := client;
    }

    method Reconcile(now: nat)
      modifies client
      ensures client.cluster == TenantReconciled(old(client.cluster), now)
    {
      if client.cluster.tenant.None? {
        return;
      }
      var tenant := client.cluster.tenant.value;
      var status, reason, message := True, Valid, ContractValid;
      var invalid := ValidateInitData(tenant.initDataB64);
      if invalid.Some? {
        status, reason, message := False, InvalidConfig, invalid.value;
      }
      var conditions := Upsert(tenant.status.conditions, Condition(Ready, status, reason, message, tenant.generation,
          now));
      var written := TenantStatus(tenant.generation, conditions, InitDataHash(tenant.initDataB64));
      client.cluster := client.cluster.(tenant := Some(tenant.(status := written)));
    }
  }
}
