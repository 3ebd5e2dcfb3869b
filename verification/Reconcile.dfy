/** What one reconcile of an InferenceService does to the cluster. */
module Reconcile {
  import opened Types
  import opened Conditions
  import opened Render
  import opened Guard

  // ---------- API writes ----------

  /** Server-side apply of an object is rejected when it already has another controller. */
  predicate Taken(controller: Option<Owner>, uid: nat) {
    controller.Some? && controller.value != ByService(uid)
  }

  predicate DeploymentTaken(c: Cluster, key: Key, uid: nat) {
    key in c.deployments && Taken(c.deployments[key].controller, uid)
  }

  predicate ServiceTaken(c: Cluster, key: Key, uid: nat) {
    ServiceKey(key) in c.kubeServices && Taken(c.kubeServices[ServiceKey(key)].controller, uid)
  }

  function DeploymentStatus(c: Cluster, key: Key): seq<DeploymentCondition> {
    if key in c.deployments then c.deployments[key].conditions else []
  }

  /** Apply replaces the template and the controller and keeps the status. */
  function RenderedDeployment(c: Cluster, key: Key, uid: nat, template: PodTemplate): Deployment {
    Deployment(Some(ByService(uid)), template, DeploymentStatus(c, key))
  }

  function PutDeployment(c: Cluster, key: Key, uid: nat, template: PodTemplate): Cluster {
    c.(deployments := c.deployments[key := RenderedDeployment(c, key, uid, template)])
  }

  function PutService(c: Cluster, key: Key, uid: nat): Cluster {
    c.(kubeServices := c.kubeServices[ServiceKey(key) := Service(Some(ByService(uid)), key.name)])
  }

  function PutConfigMap(c: Cluster, ns: string): Cluster {
    c.(configMaps := c.configMaps[GaiKey(ns) := GaiConfigMap()])
  }

  /** A status write leaves the rest of the object, and so its generation, alone. */
  function PutStatus(c: Cluster, key: Key, status: Status): Cluster
    requires key in c.services
  {
    c.(services := c.services[key := c.services[key].(status := status)])
  }

  // ---------- the decision ----------

  function ModelKey(key: Key, isvc: InferenceService): Key {
    Key(key.ns, isvc.spec.modelRef)
  }

  function TenantConfig(tenant: BrukTenant): Config {
    Config(tenant.initDataB64, tenant.defaultImage)
  }

  datatype Decision = Refuse(reason: Reason, message: Message) | Go(tenant: BrukTenant, model: BrukModel)

  /** The checks that come before the guard. */
  function OwnChecks(key: Key, isvc: InferenceService, tenant: Option<BrukTenant>, model: Option<BrukModel>): Decision {
    if tenant.None? then
      Refuse(TenantConfigMissing, NoTenant)
    else if model.None? then
      Refuse(ModelNotFound, NoModel(isvc.spec.modelRef, key.ns))
    else if isvc.spec.storage.trustedStore.localVolume.Some? then
      Refuse(NotImplemented, LocalVolumeReserved)
    else if model.value.source.None? then
      Refuse(InvalidConfig, NoSource(isvc.spec.modelRef))
    else if isvc.spec.engine.maxModelLen > model.value.contextLength then
      Refuse(InvalidConfig, TooLong(isvc.spec.engine.maxModelLen, model.value.contextLength))
    else
      Go(tenant.value, model.value)
  }

  function Checks(c: Cluster, key: Key, isvc: InferenceService): Decision {
    OwnChecks(key, isvc, c.tenant, Lookup(c.models, ModelKey(key, isvc)))
  }

  function RenderFor(key: Key, isvc: InferenceService, tenant: BrukTenant, model: BrukModel)
    : Result<PodTemplate, Message>
  {
    RenderDeployment(key.name, isvc.spec, isvc.spec.modelRef, model, TenantConfig(tenant))
  }

  datatype Outcome =
    | Gone
    | Refused(reason: Reason, message: Message)
    | RenderFailed(error: Message)
    | DeploymentRejected
    | ServiceRejected(template: PodTemplate)
    | Succeeded(template: PodTemplate, tenant: BrukTenant, model: BrukModel)

  /** How a reconcile ends, given what the guard said. */
  function OutcomeOf(c: Cluster, key: Key, conflict: Option<Message>): Outcome {
    if key !in c.services then Gone
    else
      var isvc := c.services[key];
      match Checks(c, key, isvc)
      case Refuse(reason, message) => Refused(reason, message)
      case Go(tenant, model) =>
        if conflict.Some? then Refused(TrustedStoreConflict, conflict.value)
        else match RenderFor(key, isvc, tenant, model)
          case Failure(e) => RenderFailed(e)
          case Success(template) => WorkloadOutcome(c, key, isvc, template, tenant, model)
  }

  /** Applying stops at the first object that another controller owns. */
  function WorkloadOutcome(c: Cluster, key: Key, isvc: InferenceService, template: PodTemplate, tenant: BrukTenant,
                           model: BrukModel): Outcome
  {
    if DeploymentTaken(c, key, isvc.uid) then DeploymentRejected
    else if ServiceTaken(c, key, isvc.uid) then ServiceRejected(template)
    else Succeeded(template, tenant, model)
  }

  // ---------- the writes ----------

  function FailedStatus(isvc: InferenceService, reason: Reason, message: Message, now: Clock): Status {
    isvc.status.(conditions := FailedConditions(isvc.status.conditions, isvc.generation, reason, message, now),
                 observedGeneration := isvc.generation)
  }

  predicate IsAvailable(conditions: seq<DeploymentCondition>) {
    exists i :: 0 <= i < |conditions| && conditions[i].kind == "Available" && conditions[i].status == True
  }

  function AppliedStatus(key: Key, isvc: InferenceService, tenant: BrukTenant, model: BrukModel, available: bool,
                         now: Clock): Status
  {
    Status(
      isvc.generation,
      AppliedConditions(isvc.status.conditions, isvc.generation, available, now),
      Some(EndpointURL(key)),
      ServedModelName(isvc.spec.modelRef, model),
      (match ResolveImage(TenantConfig(tenant)) case Success(image) => image case Failure(_) => ""),
      InitDataHash(tenant.initDataB64))
  }

  /** Everything one reconcile writes: the object's new status, the Deployment, the Service, and whether the
      ConfigMap is applied. */
  datatype Writes = Writes(
    isvc: Option<InferenceService>,
    deployment: Option<Deployment>,
    service: Option<Service>,
    configMap: bool)

  function Put<T>(m: map<Key, T>, key: Key, value: Option<T>): map<Key, T> {
    if value.Some? then m[key := value.value] else m
  }

  function Write(c: Cluster, key: Key, w: Writes): Cluster {
    c.(services := Put(c.services, key, w.isvc),
       deployments := Put(c.deployments, key, w.deployment),
       kubeServices := Put(c.kubeServices, ServiceKey(key), w.service),
       configMaps := Put(c.configMaps, GaiKey(key.ns), if w.configMap then Some(GaiConfigMap()) else None))
  }

  function WritesOf(c: Cluster, key: Key, outcome: Outcome, now: Clock): Writes
    requires key in c.services
  {
    var isvc := c.services[key];
    var cached := isvc.spec.storage.weightsCache.Some?;
    match outcome
    case Gone => Writes(None, None, None, false)
    case Refused(reason, message) =>
      Writes(Some(isvc.(status := FailedStatus(isvc, reason, message, now))), None, None, false)
    case RenderFailed(message) =>
      Writes(Some(isvc.(status := FailedStatus(isvc, InvalidConfig, message, now))), None, None, cached)
    case DeploymentRejected =>
      Writes(None, None, None, cached)
    case ServiceRejected(template) =>
      Writes(None, Some(RenderedDeployment(c, key, isvc.uid, template)), None, cached)
    case Succeeded(template, tenant, model) =>
      var status := AppliedStatus(key, isvc, tenant, model, IsAvailable(DeploymentStatus(c, key)), now);
      Writes(Some(isvc.(status := status)), Some(RenderedDeployment(c, key, isvc.uid, template)),
             Some(Service(Some(ByService(isvc.uid)), key.name)), cached)
  }

  /** Applying the ConfigMap first and the workload afterwards is one write. */
  lemma ConfigMapFirst(c: Cluster, key: Key, template: PodTemplate, tenant: BrukTenant, model: BrukModel, now: Clock)
    requires key in c.services
    ensures var isvc := c.services[key];
            var prepared := Write(c, key, Writes(None, None, None, isvc.spec.storage.weightsCache.Some?));
            var outcome := WorkloadOutcome(c, key, isvc, template, tenant, model);
            && WorkloadOutcome(prepared, key, isvc, template, tenant, model) == outcome
            && prepared.services == c.services
            && Write(prepared, key, WritesOf(prepared, key, outcome, now).(configMap := false))
               == Write(c, key, WritesOf(c, key, outcome, now))
  {
    var isvc := c.services[key];
    var prepared := Write(c, key, Writes(None, None, None, isvc.spec.storage.weightsCache.Some?));
    var outcome := WorkloadOutcome(c, key, isvc, template, tenant, model);
    assert WritesOf(prepared, key, outcome, now) == WritesOf(c, key, outcome, now);
  }

  /** Deployment, Service and status, one after the other, stopping at the first that is rejected. */
  function Workload(c: Cluster, key: Key, isvc: InferenceService, template: PodTemplate, tenant: BrukTenant,
                    model: BrukModel, now: Clock): Cluster
    requires key in c.services
  {
    if DeploymentTaken(c, key, isvc.uid) then c
    else
      var c1 := PutDeployment(c, key, isvc.uid, template);
      if ServiceTaken(c, key, isvc.uid) then c1
      else PutStatus(PutService(c1, key, isvc.uid), key,
                     AppliedStatus(key, isvc, tenant, model, IsAvailable(DeploymentStatus(c, key)), now))
  }

  lemma WorkloadIsOneWrite(c: Cluster, key: Key, isvc: InferenceService, template: PodTemplate, tenant: BrukTenant,
                           model: BrukModel, now: Clock)
    requires key in c.services && c.services[key] == isvc
    ensures var outcome := WorkloadOutcome(c, key, isvc, template, tenant, model);
            Workload(c, key, isvc, template, tenant, model, now)
                == Write(c, key, WritesOf(c, key, outcome, now).(configMap := false))
  {
  }

  function Resolved(c: Cluster, key: Key, conflict: Option<Message>, now: Clock): Cluster {
    if key in c.services then Write(c, key, WritesOf(c, key, OutcomeOf(c, key, conflict), now)) else c
  }

  /** What the environment contributes to one reconcile: the clock and the list orders. */
  datatype Call = Call(now: Clock, order: Listing)

  function Conflict(c: Cluster, key: Key, order: Listing): Option<Message> {
    if key in c.services then GuardMessage(c, key, c.services[key], order) else None
  }

  function Reconciled(c: Cluster, key: Key, call: Call): Cluster {
    Resolved(c, key, Conflict(c, key, call.order), call.now)
  }

  function Ending(c: Cluster, key: Key, call: Call): Outcome {
    OutcomeOf(c, key, Conflict(c, key, call.order))
  }
}
