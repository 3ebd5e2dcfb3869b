/** What a reconcile does to the cluster, said with the fields of the objects alone. The results at the end of each
    section name none of the guard's, the renderer's or the status writer's own functions, so each of these is held to
    what it is for. */
module Promises {
  import opened Types
  import opened Order
  import opened Text
  import opened Conditions
  import opened Render
  import opened Guard
  import opened Reconcile
  import opened Printing
  import opened InitData
  import opened Tenant

  // ---------- who holds a claim ----------

  predicate Mounts(pod: PodSpec, claim: string) {
    exists volume <- pod.volumes :: volume.source == PersistentVolumeClaim(claim)
  }

  /** The smaller name: at the first difference it has the smaller character, or it has ended. */
  ghost predicate NameBefore(a: string, b: string) {
    exists i: nat :: i <= |a| && i < |b| && a[..i] == b[..i] && (i == |a| || a[i] < b[i])
  }

  ghost predicate SiblingHolds(c: Cluster, key: Key, k: Key)
    requires key in c.services
  {
    && k in c.services && k.ns == key.ns && k.name != key.name
    && var mine, other := c.services[key], c.services[k];
    && other.spec.storage.trustedStore.existingClaim == mine.spec.storage.trustedStore.existingClaim
    && (other.created < mine.created || (other.created == mine.created && NameBefore(k.name, key.name)))
  }

  predicate DeploymentHolds(c: Cluster, key: Key, k: Key)
    requires key in c.services
  {
    && k in c.deployments && k.ns == key.ns
    && Mounts(c.deployments[k].template.spec, c.services[key].spec.storage.trustedStore.existingClaim)
    && c.deployments[k].controller != Some(ByService(c.services[key].uid))
  }

  predicate PodHolds(c: Cluster, key: Key, k: Key)
    requires key in c.services
  {
    && k in c.pods && k.ns == key.ns
    && Mounts(c.pods[k].spec, c.services[key].spec.storage.trustedStore.existingClaim)
    && c.pods[k].ownerReferences == []
  }

  ghost predicate ClaimFree(c: Cluster, key: Key)
    requires key in c.services
  {
    forall k :: !SiblingHolds(c, key, k) && !DeploymentHolds(c, key, k) && !PodHolds(c, key, k)
  }

  lemma {:induction false} LexLessMeans(a: string, b: string)
    ensures LexLess(a, b) <==> NameBefore(a, b)
    decreases |a|
  {
    forall i: nat | 0 < i <= |a| && i <= |b| && a[..i] == b[..i] ensures a[0] == b[0] {
      assert a[..i][0] == a[0] && b[..i][0] == b[0];
    }
    if b != [] && a != [] && a[0] == b[0] {
      LexLessMeans(a[1..], b[1..]);
      if i: nat :| i <= |a| && i < |b| && a[..i] == b[..i] && (i == |a| || a[i] < b[i]) {
        assert i > 0;
        assert a[1..][..i - 1] == a[..i][1..] && b[1..][..i - 1] == b[..i][1..];
        assert i - 1 == |a[1..]| || a[1..][i - 1] < b[1..][i - 1];
      }
      var c, d := a[1..], b[1..];
      if i: nat :| i <= |c| && i < |d| && c[..i] == d[..i] && (i == |c| || c[i] < d[i]) {
        assert a[..i + 1] == [a[0]] + a[1..][..i] && b[..i + 1] == [b[0]] + b[1..][..i];
      }
    } else if b != [] && a != [] {
      assert a[..0] == b[..0];
    } else {
      assert a[..0] == b[..0];
    }
  }

  lemma HoldersMean(c: Cluster, key: Key, k: Key)
    requires key in c.services
    ensures HoldsClaim(OlderSibling, c, key, c.services[key], k) <==> SiblingHolds(c, key, k)
    ensures HoldsClaim(OtherDeployment, c, key, c.services[key], k) <==> DeploymentHolds(c, key, k)
    ensures HoldsClaim(StandalonePod, c, key, c.services[key], k) <==> PodHolds(c, key, k)
  {
    LexLessMeans(k.name, key.name);
    hide LexLess, NameBefore;
    forall pod: PodSpec, claim: string ensures MountsClaim(pod, claim) <==> Mounts(pod, claim) {
      if volume :| volume in pod.volumes && volume.source == PersistentVolumeClaim(claim) {
        var i :| 0 <= i < |pod.volumes| && pod.volumes[i] == volume;
      }
    }
  }

  // ---------- conditions ----------

  /** The condition of a type is the first one of that type. */
  predicate First(cs: seq<Condition>, kind: ConditionType, i: int) {
    0 <= i < |cs| && cs[i].kind == kind && forall j :: 0 <= j < i ==> cs[j].kind != kind
  }

  /** `after` has the condition, with the time it had in `before` if its status is the same, and `now` if not. */
  ghost predicate Carries(before: seq<Condition>, after: seq<Condition>, kind: ConditionType, status: ConditionStatus,
                          reason: Reason, message: Message, generation: nat, now: nat) {
    exists i ::
      && 0 <= i < |after| && First(after, kind, i)
      && after[i] == Condition(kind, status, reason, message, generation, after[i].since)
      && (forall j :: First(before, kind, j) ==>
            after[i].since == if before[j].status == status then before[j].since else now)
      && ((forall j :: !First(before, kind, j)) ==> after[i].since == now)
  }

  /** The two lists have the same condition of the type, or neither has one. */
  ghost predicate SameCondition(before: seq<Condition>, after: seq<Condition>, kind: ConditionType) {
    || (exists i, j :: First(before, kind, i) && First(after, kind, j) && before[i] == after[j])
    || (forall i :: !First(before, kind, i) && !First(after, kind, i))
  }

  lemma {:induction false} FindIsFirst(cs: seq<Condition>, kind: ConditionType)
    ensures Find(cs, kind).None? ==> forall i :: !First(cs, kind, i)
    ensures Find(cs, kind).Some? ==> exists i :: First(cs, kind, i)
    ensures forall i :: First(cs, kind, i) ==> Find(cs, kind) == Some(cs[i])
  {
    if cs != [] && cs[0].kind != kind {
      FindIsFirst(cs[1..], kind);
      forall i | First(cs, kind, i) ensures First(cs[1..], kind, i - 1) {
        assert forall j :: 0 <= j < i - 1 ==> cs[1..][j] == cs[j + 1];
      }
      if i :| First(cs[1..], kind, i) {
        assert forall j :: 0 < j < i + 1 ==> cs[j] == cs[1..][j - 1];
        assert First(cs, kind, i + 1);
      }
    } else if cs != [] {
      assert First(cs, kind, 0);
    }
  }

  lemma CarriesWhat(before: seq<Condition>, after: seq<Condition>, written: Condition)
    requires Find(after, written.kind) ==
             Some(match Find(before, written.kind)
                  case None => written
                  case Some(was) => if was.status == written.status then written.(since := was.since) else written)
    ensures Carries(before, after, written.kind, written.status, written.reason, written.message,
                    written.observedGeneration, written.since)
  {
    FindIsFirst(before, written.kind);
    FindIsFirst(after, written.kind);
    hide Find;
    var i :| First(after, written.kind, i);
    assert Find(after, written.kind) == Some(after[i]);
  }

  lemma UpsertFinds(cs: seq<Condition>, written: Condition)
    ensures forall kind {:trigger Find(Upsert(cs, written), kind)} ::
              kind != written.kind ==> Find(Upsert(cs, written), kind) == Find(cs, kind)
    ensures Find(Upsert(cs, written), written.kind) ==
            Some(match Find(cs, written.kind)
                 case None => written
                 case Some(was) => if was.status == written.status then written.(since := was.since) else written)
  {
    forall kind ensures kind != written.kind ==> Find(Upsert(cs, written), kind) == Find(cs, kind) {
      UpsertFind(cs, written, kind);
    }
    UpsertFind(cs, written, written.kind);
  }

  lemma FailedCarries(cs: seq<Condition>, generation: nat, reason: Reason, message: Message, now: Clock)
    ensures var after := FailedConditions(cs, generation, reason, message, now);
            && Carries(cs, after, Configured, False, reason, message, generation, now.configured)
            && Carries(cs, after, Ready, False, reason, message, generation, now.ready)
            && Carries(cs, after, Progressing, False, reason, message, generation, now.progressing)
            && SameCondition(cs, after, WorkloadAvailable)
  {
    var one := Condition(Configured, False, reason, message, generation, now.configured);
    var two := Condition(Ready, False, reason, message, generation, now.ready);
    var three := Condition(Progressing, False, reason, message, generation, now.progressing);
    var cs1 := Upsert(cs, one);
    var cs2 := Upsert(cs1, two);
    var after := Upsert(cs2, three);
    UpsertFinds(cs, one);
    UpsertFinds(cs1, two);
    UpsertFinds(cs2, three);
    assert after == FailedConditions(cs, generation, reason, message, now);
    FindIsFirst(cs, WorkloadAvailable);
    FindIsFirst(after, WorkloadAvailable);
    hide Find, Upsert, First, Carries, FailedConditions;
    CarriesWhat(cs, after, one);
    CarriesWhat(cs, after, two);
    CarriesWhat(cs, after, three);
  }

  /** The four conditions of a service whose Deployment is, or is not, available. */
  ghost predicate CarriesWorkload(before: seq<Condition>, after: seq<Condition>, available: bool, generation: nat,
                                  now: Clock) {
    && Carries(before, after, Configured, True, ConfiguredReason, WorkloadApplied, generation, now.configured)
    && (available ==>
          && Carries(before, after, WorkloadAvailable, True, WorkloadReady, DeploymentIsAvailable, generation,
                     now.workloadAvailable)
          && Carries(before, after, Ready, True, WorkloadReady, WorkloadServing, generation, now.ready)
          && Carries(before, after, Progressing, False, WorkloadReady, RolloutComplete, generation, now.progressing))
    && (!available ==>
          && Carries(before, after, WorkloadAvailable, False, WorkloadPending, NotYetAvailable, generation,
                     now.workloadAvailable)
          && Carries(before, after, Ready, False, WorkloadPending, NotYetAvailable, generation, now.ready)
          && Carries(before, after, Progressing, True, Deploying, NotYetAvailable, generation, now.progressing))
  }

  lemma AppliedCarries(cs: seq<Condition>, generation: nat, available: bool, now: Clock)
    ensures CarriesWorkload(cs, AppliedConditions(cs, generation, available, now), available, generation, now)
  {
    var one := AppliedCondition(Configured, generation, available, now.configured);
    var two := AppliedCondition(WorkloadAvailable, generation, available, now.workloadAvailable);
    var three := AppliedCondition(Ready, generation, available, now.ready);
    var four := AppliedCondition(Progressing, generation, available, now.progressing);
    var cs1 := Upsert(cs, one);
    var cs2 := Upsert(cs1, two);
    var cs3 := Upsert(cs2, three);
    var after := Upsert(cs3, four);
    UpsertFinds(cs, one);
    UpsertFinds(cs1, two);
    UpsertFinds(cs2, three);
    UpsertFinds(cs3, four);
    assert after == AppliedConditions(cs, generation, available, now);
    hide Find, Upsert, First, Carries, AppliedConditions;
    CarriesWhat(cs, after, one);
    CarriesWhat(cs, after, two);
    CarriesWhat(cs, after, three);
    CarriesWhat(cs, after, four);
  }

  /** An upsert touches one place: the first condition of the type, or the end of the list. */
  lemma {:induction false} UpsertInPlace(cs: seq<Condition>, written: Condition)
    ensures (forall i :: !First(cs, written.kind, i)) ==> Upsert(cs, written) == cs + [written]
    ensures forall i :: First(cs, written.kind, i) ==>
              Upsert(cs, written) ==
              cs[i := if cs[i].status == written.status then written.(since := cs[i].since) else written]
  {
    if cs == [] {
    } else if cs[0].kind == written.kind {
      assert First(cs, written.kind, 0);
    } else {
      UpsertInPlace(cs[1..], written);
      assert cs == [cs[0]] + cs[1..];
      forall i | First(cs, written.kind, i) ensures First(cs[1..], written.kind, i - 1) {
        assert forall j :: 0 <= j < i - 1 ==> cs[1..][j] == cs[j + 1];
      }
      forall i | First(cs[1..], written.kind, i) ensures First(cs, written.kind, i + 1) {
        assert forall j :: 0 < j < i + 1 ==> cs[j] == cs[1..][j - 1];
      }
    }
  }

  // ---------- what runs ----------

  /** The name the engine serves the model under: the one the model declares, or the model's own. */
  function DeclaredName(isvc: InferenceService, model: BrukModel): string {
    if |model.servedName| > 0 then model.servedName else isvc.spec.modelRef
  }

  predicate EngineAsAsked(args: seq<string>, isvc: InferenceService, model: BrukModel)
    requires model.source.Some?
  {
    var engine := isvc.spec.engine;
    args ==
      ["--model=" + model.source.value.repo, "--served-model-name=" + DeclaredName(isvc, model)]
      + (if |engine.quantization| > 0 then ["--quantization=" + engine.quantization] else [])
      + ["--max-model-len=" + Decimal(engine.maxModelLen),
         "--gpu-memory-utilization=0." + DecimalTwo(engine.gpuMemoryUtilizationPercent),
         "--host=0.0.0.0", "--port=8000"]
  }

  predicate ContainerAsAsked(container: Container, isvc: InferenceService, model: BrukModel, tenant: BrukTenant)
    requires model.source.Some?
  {
    var r, cache := isvc.spec.resources, isvc.spec.storage.weightsCache;
    && container.name == "vllm"
    && container.image == tenant.defaultImage
    && EngineAsAsked(container.args, isvc, model)
    && container.env ==
         (match model.source.value.tokenSecretRef
          case None => []
          case Some(secret) => [FromSecret("HF_TOKEN", secret.name, secret.key)])
         + [Literal("VLLM_ATTENTION_BACKEND", "FLASH_ATTN")]
    && container.resources.gpus == r.gpus
    && container.resources.memoryLimit == r.memory.limit
    && container.resources.cpuLimit == r.cpu.limit
    && (r.memory.request.Some? ==> container.resources.memoryRequest == r.memory.request.value)
    && (r.memory.request.None? ==> container.resources.memoryRequest == r.memory.limit)
    && (r.cpu.request.Some? ==> container.resources.cpuRequest == r.cpu.request.value)
    && (r.cpu.request.None? ==> container.resources.cpuRequest == r.cpu.limit)
    && container.volumeMounts ==
         (if cache.Some? then
            [VolumeMount("models", "/root/.cache/huggingface", ""), VolumeMount("dshm", "/dev/shm", ""),
             VolumeMount("gai", "/etc/gai.conf", "gai.conf")]
          else [VolumeMount("dshm", "/dev/shm", "")])
    && container.volumeDevices == [VolumeDevice("trusted-image", "/dev/trusted_store")]
    && container.failureThreshold ==
         match (isvc.spec.probes, cache)
         case (Some(Probes(Some(threshold))), _) => threshold
         case (_, Some(_)) => 240
         case _ => 120
  }

  predicate TemplateAsAsked(template: PodTemplate, key: Key, isvc: InferenceService, model: BrukModel,
                            tenant: BrukTenant)
    requires model.source.Some?
  {
    var storage := isvc.spec.storage;
    && template.app == key.name
    && template.annotations == map["io.katacontainers.config.hypervisor.cc_init_data" := tenant.initDataB64]
    && |template.spec.containers| == 1
    && ContainerAsAsked(template.spec.containers[0], isvc, model, tenant)
    && template.spec.volumes ==
         (match storage.weightsCache
          case None =>
            [Volume("dshm", MemoryDir)]
          case Some(cache) =>
            [Volume("models", EmptyDir("", cache.sizeLimit)), Volume("dshm", MemoryDir),
             Volume("gai", ConfigMapVolume("gai-ipv4-first"))])
         + [Volume("trusted-image", PersistentVolumeClaim(storage.trustedStore.existingClaim))]
  }

  lemma RenderedAsAsked(key: Key, isvc: InferenceService, model: BrukModel, tenant: BrukTenant)
    requires model.source.Some?
    ensures RenderFor(key, isvc, tenant, model).Success?
       <==> tenant.defaultImage != "" && tenant.initDataB64 != ""
    ensures RenderFor(key, isvc, tenant, model).Success? ==>
              TemplateAsAsked(RenderFor(key, isvc, tenant, model).value, key, isvc, model, tenant)
    ensures tenant.defaultImage == "" ==> RenderFor(key, isvc, tenant, model) == Failure(RenderNoImage)
    ensures tenant.defaultImage != "" && tenant.initDataB64 == "" ==>
              RenderFor(key, isvc, tenant, model) == Failure(RenderNoInitData)
  {
    if RenderFor(key, isvc, tenant, model).Success? {
      ArgsAsAsked(isvc, model);
      hide Decimal, DecimalTwo, EngineArgs, EngineAsAsked;
      assert RenderFor(key, isvc, tenant, model).value.spec.volumes == Volumes(isvc.spec.storage);
    }
  }

  lemma ArgsAsAsked(isvc: InferenceService, model: BrukModel)
    requires model.source.Some?
    ensures EngineAsAsked(EngineArgs(isvc.spec.engine, model.source.value.repo, ServedModelName(isvc.spec.modelRef,
        model)),
                          isvc, model)
  {
    PortText();
    hide Decimal, DecimalTwo;
    assert "--port=" + "8000" == "--port=8000";
  }

  // ---------- what a reconcile does ----------

  /** The checks that come before the guard. */
  predicate Admitted(c: Cluster, key: Key)
    requires key in c.services
  {
    var spec := c.services[key].spec;
    var model := Key(key.ns, spec.modelRef);
    && c.tenant.Some?
    && model in c.models
    && spec.storage.trustedStore.localVolume.None?
    && c.models[model].source.Some?
    && spec.engine.maxModelLen <= c.models[model].contextLength
  }

  predicate Equipped(c: Cluster) {
    c.tenant.Some? && c.tenant.value.defaultImage != "" && c.tenant.value.initDataB64 != ""
  }

  predicate Foreign(controller: Option<Owner>, uid: nat) {
    controller != None && controller != Some(ByService(uid))
  }

  predicate DeploymentForeign(c: Cluster, key: Key)
    requires key in c.services
  {
    key in c.deployments && Foreign(c.deployments[key].controller, c.services[key].uid)
  }

  predicate ServiceForeign(c: Cluster, key: Key)
    requires key in c.services
  {
    var at := Key(key.ns, key.name + "-svc");
    at in c.kubeServices && Foreign(c.kubeServices[at].controller, c.services[key].uid)
  }

  /** Everything a reconcile needs. */
  ghost predicate InOrder(c: Cluster, key: Key)
    requires key in c.services
  {
    Admitted(c, key) && ClaimFree(c, key) && Equipped(c) && !DeploymentForeign(c, key) && !ServiceForeign(c, key)
  }

  /** The reconcile goes all the way exactly when everything is in order. */
  lemma GoesThroughExactly(c: Cluster, key: Key, call: Call)
    requires key in c.services && Lists(call.order, c, key.ns)
    ensures Ending(c, key, call).Succeeded? <==> InOrder(c, key)
    ensures Ending(c, key, call).DeploymentRejected?
       <==> Admitted(c, key) && ClaimFree(c, key) && Equipped(c) && DeploymentForeign(c, key)
    ensures Ending(c, key, call).ServiceRejected?
       <==> && Admitted(c, key) && ClaimFree(c, key) && Equipped(c)
            && !DeploymentForeign(c, key) && ServiceForeign(c, key)
  {
    GuardMeans(c, key, call.order);
    AdmittedMeans(c, key);
    hide HoldsClaim, RenderDeployment, OwnChecks, GuardMessage, ClaimFree;
    if Admitted(c, key) {
      RenderedAsAsked(key, c.services[key], c.models[Key(key.ns, c.services[key].spec.modelRef)], c.tenant.value);
    }
  }

  lemma AdmittedMeans(c: Cluster, key: Key)
    requires key in c.services
    ensures Checks(c, key, c.services[key]).Go? <==> Admitted(c, key)
    ensures Admitted(c, key) ==>
              Checks(c, key, c.services[key]) == Go(c.tenant.value, c.models[Key(key.ns,
                  c.services[key].spec.modelRef)])
  {
  }

  lemma GuardMeans(c: Cluster, key: Key, order: Listing)
    requires key in c.services && Lists(order, c, key.ns)
    ensures GuardMessage(c, key, c.services[key], order).None? <==> ClaimFree(c, key)
  {
    GuardIsExact(c, key, c.services[key], order);
    forall k { HoldersMean(c, key, k); }
    hide HoldsClaim, SiblingHolds, DeploymentHolds, PodHolds, GuardMessage;
    var isvc := c.services[key];
    if holder, k :| HoldsClaim(holder, c, key, isvc, k) {
      match holder {
        case OlderSibling => assert SiblingHolds(c, key, k);
        case OtherDeployment => assert DeploymentHolds(c, key, k);
        case StandalonePod => assert PodHolds(c, key, k);
      }
    }
    if !ClaimFree(c, key) {
      var k :| SiblingHolds(c, key, k) || DeploymentHolds(c, key, k) || PodHolds(c, key, k);
      assert Conflicted(c, key, isvc);
    }
  }

  // ---------- the state afterwards ----------

  /** The namespace's ConfigMap is there for a service with a cache. */
  function WithConfigMap(c: Cluster, key: Key): map<Key, map<string, string>>
    requires key in c.services
  {
    if c.services[key].spec.storage.weightsCache.Some?
    then c.configMaps[Key(key.ns, "gai-ipv4-first") := map["gai.conf" := "precedence ::ffff:0:0/96 100\n"]]
    else c.configMaps
  }

  /** The three failed conditions and the generation are in the status, and nothing else in it has changed. */
  ghost predicate SaysFailed(before: InferenceService, status: Status, reason: Reason, message: Message, now: Clock) {
    var cs, generation := before.status.conditions, before.generation;
    && Carries(cs, status.conditions, Configured, False, reason, message, generation, now.configured)
    && Carries(cs, status.conditions, Ready, False, reason, message, generation, now.ready)
    && Carries(cs, status.conditions, Progressing, False, reason, message, generation, now.progressing)
    && SameCondition(cs, status.conditions, WorkloadAvailable)
    && status.observedGeneration == generation
    && status.endpoint == before.status.endpoint
    && status.servedModelName == before.status.servedModelName
    && status.resolvedImage == before.status.resolvedImage
    && status.appliedInitDataHash == before.status.appliedInitDataHash
  }

  /** The reconcile has failed: the status says why, and the cluster is otherwise as it was but for the ConfigMaps. */
  ghost predicate Fails(c: Cluster, after: Cluster, key: Key, reason: Reason, message: Message, now: Clock,
                        configMaps: map<Key, map<string, string>>)
    requires key in c.services
  {
    && key in after.services
    && after == c.(services := c.services[key := c.services[key].(status := after.services[key].status)],
                   configMaps := configMaps)
    && SaysFailed(c.services[key], after.services[key].status, reason, message, now)
  }

  lemma FailedSays(isvc: InferenceService, reason: Reason, message: Message, now: Clock)
    ensures SaysFailed(isvc, FailedStatus(isvc, reason, message, now), reason, message, now)
  {
    FailedCarries(isvc.status.conditions, isvc.generation, reason, message, now);
    hide FailedConditions, Carries, SameCondition;
  }

  lemma RefusedFails(c: Cluster, key: Key, call: Call, reason: Reason, message: Message)
    requires key in c.services && Ending(c, key, call) == Refused(reason, message)
    ensures Fails(c, Reconciled(c, key, call), key, reason, message, call.now, c.configMaps)
  {
    FailedSays(c.services[key], reason, message, call.now);
    hide FailedStatus, OutcomeOf, SaysFailed, Conflict;
  }

  /** A service that is gone: nothing happens. */
  lemma GoneDoesNothing(c: Cluster, key: Key, call: Call)
    requires key !in c.services
    ensures Reconciled(c, key, call) == c
  {
  }

  /** What refuses a service before the guard, in the order in which it is found. */
  lemma RefusedForItself(c: Cluster, key: Key, call: Call)
    requires key in c.services
    ensures var spec := c.services[key].spec;
            var after, at := Reconciled(c, key, call), Key(key.ns, spec.modelRef);
            && (c.tenant.None? ==>
                  Fails(c, after, key, TenantConfigMissing, NoTenant, call.now, c.configMaps))
            && (c.tenant.Some? && at !in c.models ==>
                  Fails(c, after, key, ModelNotFound, NoModel(spec.modelRef, key.ns), call.now, c.configMaps))
            && (c.tenant.Some? && at in c.models && spec.storage.trustedStore.localVolume.Some? ==>
                  Fails(c, after, key, NotImplemented, LocalVolumeReserved, call.now, c.configMaps))
            && (c.tenant.Some? && at in c.models && spec.storage.trustedStore.localVolume.None?
                && c.models[at].source.None? ==>
                  Fails(c, after, key, InvalidConfig, NoSource(spec.modelRef), call.now, c.configMaps))
            && (c.tenant.Some? && at in c.models && spec.storage.trustedStore.localVolume.None?
                && c.models[at].source.Some? && spec.engine.maxModelLen > c.models[at].contextLength ==>
                  Fails(c, after, key, InvalidConfig, TooLong(spec.engine.maxModelLen, c.models[at].contextLength),
                        call.now, c.configMaps))
  {
    hide Fails;
    var checks := Checks(c, key, c.services[key]);
    if checks.Refuse? {
      assert Ending(c, key, call) == Refused(checks.reason, checks.message);
      hide Reconciled;
      RefusedFails(c, key, call, checks.reason, checks.message);
    }
  }

  /** What the guard says: the first sort of holder there is, and an object of that sort. */
  lemma RefusedForTheClaim(c: Cluster, key: Key, call: Call) returns (holder: Holder, k: Key)
    requires key in c.services && Lists(call.order, c, key.ns)
    requires Admitted(c, key) && !ClaimFree(c, key)
    ensures Fails(c, Reconciled(c, key, call), key, TrustedStoreConflict,
                  HeldBy(holder, k.name, c.services[key].spec.storage.trustedStore.existingClaim), call.now,
                      c.configMaps)
    ensures match holder
            case OlderSibling => SiblingHolds(c, key, k)
            case OtherDeployment => DeploymentHolds(c, key, k) && forall j :: !SiblingHolds(c, key, j)
            case StandalonePod => PodHolds(c, key, k) && forall j ::
                !SiblingHolds(c, key, j) && !DeploymentHolds(c, key, j)
  {
    GuardMeans(c, key, call.order);
    AdmittedMeans(c, key);
    holder, k := FirstNamed(c, key, call.order);
    hide HoldsClaim, ClaimFree, SiblingHolds, DeploymentHolds, PodHolds, Admitted, Checks, GuardMessage;
    RefusedFails(c, key, call, TrustedStoreConflict, HeldBy(holder, k.name, c.services[key].Claim()));
  }

  lemma FirstNamed(c: Cluster, key: Key, order: Listing) returns (holder: Holder, k: Key)
    requires key in c.services && Lists(order, c, key.ns)
    requires GuardMessage(c, key, c.services[key], order).Some?
    ensures GuardMessage(c, key, c.services[key], order) == Some(HeldBy(holder, k.name, c.services[key].Claim()))
    ensures match holder
            case OlderSibling => SiblingHolds(c, key, k)
            case OtherDeployment => DeploymentHolds(c, key, k) && forall j :: !SiblingHolds(c, key, j)
            case StandalonePod => PodHolds(c, key, k) && forall j ::
                !SiblingHolds(c, key, j) && !DeploymentHolds(c, key, j)
  {
    var isvc := c.services[key];
    FirstHolderExact(OlderSibling, c, key, isvc, order.siblings);
    FirstHolderExact(OtherDeployment, c, key, isvc, order.deployments);
    FirstHolderExact(StandalonePod, c, key, isvc, order.pods);
    forall j { HoldersMean(c, key, j); }
    forall j
      ensures SiblingHolds(c, key, j) ==> j in order.siblings
      ensures DeploymentHolds(c, key, j) ==> j in order.deployments
    {
    }
    hide HoldsClaim, SiblingHolds, DeploymentHolds, PodHolds, FirstHolder;
    var sibling := FirstHolder(OlderSibling, c, key, isvc, order.siblings);
    var deployment := FirstHolder(OtherDeployment, c, key, isvc, order.deployments);
    if sibling.Some? {
      holder := OlderSibling;
      k :| k in order.siblings && HoldsClaim(OlderSibling, c, key, isvc, k)
           && sibling.value == HeldBy(OlderSibling, k.name, isvc.Claim());
    } else if deployment.Some? {
      holder := OtherDeployment;
      k :| k in order.deployments && HoldsClaim(OtherDeployment, c, key, isvc, k)
           && deployment.value == HeldBy(OtherDeployment, k.name, isvc.Claim());
    } else {
      holder := StandalonePod;
      k :| k in order.pods && HoldsClaim(StandalonePod, c, key, isvc, k)
           && GuardMessage(c, key, isvc, order).value == HeldBy(StandalonePod, k.name, isvc.Claim());
    }
  }

  /** A service with a free claim and a tenant without an image or a blob: the ConfigMap has been applied. */
  lemma RefusedByRendering(c: Cluster, key: Key, call: Call)
    requires key in c.services && Lists(call.order, c, key.ns)
    requires Admitted(c, key) && ClaimFree(c, key) && !Equipped(c)
    ensures Fails(c, Reconciled(c, key, call), key, InvalidConfig,
                  if c.tenant.value.defaultImage == "" then RenderNoImage else RenderNoInitData,
                  call.now, WithConfigMap(c, key))
  {
    GuardMeans(c, key, call.order);
    AdmittedMeans(c, key);
    var isvc := c.services[key];
    var message := if c.tenant.value.defaultImage == "" then RenderNoImage else RenderNoInitData;
    RenderedAsAsked(key, isvc, c.models[Key(key.ns, isvc.spec.modelRef)], c.tenant.value);
    hide HoldsClaim, ClaimFree, Admitted, Checks, GuardMessage, RenderDeployment;
    assert Ending(c, key, call) == RenderFailed(message);
    FailedSays(isvc, InvalidConfig, message, call.now);
    hide FailedStatus, OutcomeOf, SaysFailed, Conflict;
  }

  /** The Deployment has been written as asked, for this service, with what its status said before. */
  predicate Deploys(c: Cluster, after: Cluster, key: Key)
    requires key in c.services && Admitted(c, key)
  {
    var isvc := c.services[key];
    && key in after.deployments
    && after.deployments == c.deployments[key := after.deployments[key]]
    && after.deployments[key].controller == Some(ByService(isvc.uid))
    && after.deployments[key].conditions == (if key in c.deployments then c.deployments[key].conditions else [])
    && TemplateAsAsked(after.deployments[key].template, key, isvc, c.models[Key(key.ns, isvc.spec.modelRef)],
        c.tenant.value)
  }

  /** The status of a service whose workload has been applied. */
  ghost predicate SaysApplied(c: Cluster, key: Key, status: Status, now: Clock)
    requires key in c.services && Admitted(c, key)
  {
    var isvc := c.services[key];
    var available := key in c.deployments && ReportsAvailable(c.deployments[key]);
    && CarriesWorkload(isvc.status.conditions, status.conditions, available, isvc.generation, now)
    && status.observedGeneration == isvc.generation
    && status.endpoint == Some("http://" + (key.name + "-svc" + "." + key.ns + ".svc.cluster.local:8000/v1"))
    && status.servedModelName == DeclaredName(isvc, c.models[Key(key.ns, isvc.spec.modelRef)])
    && status.resolvedImage == c.tenant.value.defaultImage
    && status.appliedInitDataHash == InitDataHash(c.tenant.value.initDataB64)
  }

  /** The Deployment reports that it is available. */
  predicate ReportsAvailable(d: Deployment) {
    DeploymentCondition("Available", True) in d.conditions
  }

  /** Everything is in order: Deployment, Service, ConfigMap and status are as asked, and nothing else has changed. */
  lemma GoesThrough(c: Cluster, key: Key, call: Call)
    requires key in c.services && Lists(call.order, c, key.ns)
    requires InOrder(c, key)
    ensures var after := Reconciled(c, key, call);
            var isvc := c.services[key];
            && key in after.services
            && Deploys(c, after, key)
            && SaysApplied(c, key, after.services[key].status, call.now)
            && after == c.(services := c.services[key := isvc.(status := after.services[key].status)],
                           deployments := after.deployments,
                           kubeServices := c.kubeServices[Key(key.ns, key.name + "-svc") :=
                                                          Service(Some(ByService(isvc.uid)), key.name)],
                           configMaps := WithConfigMap(c, key))
  {
    GoesThroughExactly(c, key, call);
    AdmittedMeans(c, key);
    var isvc := c.services[key];
    var model := c.models[Key(key.ns, isvc.spec.modelRef)];
    RenderedAsAsked(key, isvc, model, c.tenant.value);
    AppliedSays(c, key, call.now);
    SucceededWith(c, key, call, c.tenant.value, model);
    hide Ending, Reconciled, Checks, ClaimFree, TemplateAsAsked, RenderFor, SaysApplied, AppliedStatus, Lists, Deploys;
    var template := RenderFor(key, isvc, c.tenant.value, model).value;
    SuccessWrites(c, key, call, template, c.tenant.value, model);
    DeploysAsAsked(c, Reconciled(c, key, call), key, template);
  }

  lemma SucceededWith(c: Cluster, key: Key, call: Call, tenant: BrukTenant, model: BrukModel)
    requires key in c.services && Ending(c, key, call).Succeeded?
    requires Checks(c, key, c.services[key]) == Go(tenant, model)
    ensures RenderFor(key, c.services[key], tenant, model).Success?
    ensures Ending(c, key, call) == Succeeded(RenderFor(key, c.services[key], tenant, model).value, tenant, model)
  {
    hide Checks, RenderFor, Conflict, DeploymentTaken, ServiceTaken;
  }

  lemma SuccessWrites(c: Cluster, key: Key, call: Call, template: PodTemplate, tenant: BrukTenant, model: BrukModel)
    requires key in c.services && Ending(c, key, call) == Succeeded(template, tenant, model)
    ensures var isvc := c.services[key];
            var status := AppliedStatus(key, isvc, tenant, model, IsAvailable(DeploymentStatus(c, key)), call.now);
            Reconciled(c, key, call) ==
              c.(services := c.services[key := isvc.(status := status)],
                 deployments := c.deployments[key := RenderedDeployment(c, key, isvc.uid, template)],
                 kubeServices := c.kubeServices[Key(key.ns, key.name + "-svc") :=
                                                Service(Some(ByService(isvc.uid)), key.name)],
                 configMaps := WithConfigMap(c, key))
  {
    hide OutcomeOf, Conflict, AppliedStatus, RenderedDeployment, IsAvailable;
  }

  lemma DeploysAsAsked(c: Cluster, after: Cluster, key: Key, template: PodTemplate)
    requires key in c.services && Admitted(c, key)
    requires after.deployments == c.deployments[key := RenderedDeployment(c, key, c.services[key].uid, template)]
    requires var isvc := c.services[key];
             TemplateAsAsked(template, key, isvc, c.models[Key(key.ns, isvc.spec.modelRef)], c.tenant.value)
    ensures Deploys(c, after, key)
  {
    hide TemplateAsAsked;
  }

  lemma AvailableMeans(conditions: seq<DeploymentCondition>)
    ensures IsAvailable(conditions) <==> DeploymentCondition("Available", True) in conditions
  {
    if i :| 0 <= i < |conditions| && conditions[i].kind == "Available" && conditions[i].status == True {
      assert conditions[i] == DeploymentCondition("Available", True);
    }
  }

  lemma AppliedSays(c: Cluster, key: Key, now: Clock)
    requires key in c.services && Admitted(c, key) && Equipped(c)
    ensures var isvc := c.services[key];
            var model := c.models[Key(key.ns, isvc.spec.modelRef)];
            SaysApplied(c, key, AppliedStatus(key, isvc, c.tenant.value, model, IsAvailable(DeploymentStatus(c, key)),
                now), now)
  {
    var isvc := c.services[key];
    var available := IsAvailable(DeploymentStatus(c, key));
    AppliedCarries(isvc.status.conditions, isvc.generation, available, now);
    URLText(key);
    AvailableMeans(DeploymentStatus(c, key));
    hide CarriesWorkload, AppliedConditions, EndpointURL, Admitted;
  }

  /** An object of the service's own belongs to somebody else: the apply of it is where the reconcile stops. */
  lemma StopsAtForeign(c: Cluster, key: Key, call: Call)
    requires key in c.services && Lists(call.order, c, key.ns)
    requires Admitted(c, key) && ClaimFree(c, key) && Equipped(c)
    ensures var after := Reconciled(c, key, call);
            && (DeploymentForeign(c, key) ==> after == c.(configMaps := WithConfigMap(c, key)))
            && (!DeploymentForeign(c, key) && ServiceForeign(c, key) ==>
                  && Deploys(c, after, key)
                  && after == c.(deployments := after.deployments, configMaps := WithConfigMap(c, key)))
  {
    GuardMeans(c, key, call.order);
    AdmittedMeans(c, key);
    var isvc := c.services[key];
    var model := c.models[Key(key.ns, isvc.spec.modelRef)];
    RenderedAsAsked(key, isvc, model, c.tenant.value);
    hide Checks, ClaimFree, TemplateAsAsked, RenderFor, GuardMessage, Lists, AppliedStatus, FailedStatus,
        RenderedDeployment;
    var template := RenderFor(key, isvc, c.tenant.value, model).value;
    assert Ending(c, key, call) == WorkloadOutcome(c, key, isvc, template, c.tenant.value, model);
    if DeploymentForeign(c, key) {
      assert Ending(c, key, call) == DeploymentRejected;
    } else if ServiceForeign(c, key) {
      assert Ending(c, key, call) == ServiceRejected(template);
      hide Ending, OutcomeOf, Conflict, Admitted, Deploys;
      RejectionWrites(c, key, call, template);
      DeploysAsAsked(c, Reconciled(c, key, call), key, template);
    }
  }

  lemma RejectionWrites(c: Cluster, key: Key, call: Call, template: PodTemplate)
    requires key in c.services && Ending(c, key, call) == ServiceRejected(template)
    ensures Reconciled(c, key, call) ==
              c.(deployments := c.deployments[key := RenderedDeployment(c, key, c.services[key].uid, template)],
                 configMaps := WithConfigMap(c, key))
  {
    hide OutcomeOf, Conflict, RenderedDeployment;
  }

  // ---------- what follows for a user ----------

  /** A service's own Deployment and the Pods it leads to do not stand in its way, although they mount its claim: a
      running service stays Configured. */
  lemma OwnPodsDoNotRefuse(c: Cluster, key: Key, call: Call)
    requires key in c.services && Lists(call.order, c, key.ns)
    requires Admitted(c, key) && Equipped(c) && !DeploymentForeign(c, key) && !ServiceForeign(c, key)
    requires forall k :: !SiblingHolds(c, key, k)
    requires var claim := c.services[key].spec.storage.trustedStore.existingClaim;
             && (forall k <- c.deployments :: k.ns == key.ns && Mounts(c.deployments[k].template.spec, claim) ==>
                   c.deployments[k].controller == Some(ByService(c.services[key].uid)))
             && (forall k <- c.pods :: k.ns == key.ns && Mounts(c.pods[k].spec, claim) ==>
                 c.pods[k].ownerReferences != [])
    ensures Ending(c, key, call).Succeeded?
  {
    hide Admitted, Equipped, Mounts, SiblingHolds, DeploymentForeign, ServiceForeign, Ending;
    GoesThroughExactly(c, key, call);
  }

  /** Of two services of a namespace that ask for the same claim, the later one does not get it; made in the same
      second, the one with the greater name does not. */
  lemma LaterServiceIsRefused(c: Cluster, key: Key, call: Call, other: Key)
    requires key in c.services && Lists(call.order, c, key.ns)
    requires other in c.services && other.ns == key.ns && other.name != key.name
    requires c.services[other].spec.storage.trustedStore.existingClaim
          == c.services[key].spec.storage.trustedStore.existingClaim
    requires || c.services[other].created < c.services[key].created
             || (c.services[other].created == c.services[key].created && NameBefore(other.name, key.name))
    ensures !Ending(c, key, call).Succeeded?
    ensures var after := Reconciled(c, key, call);
            after.deployments == c.deployments && after.kubeServices == c.kubeServices
  {
    assert SiblingHolds(c, key, other);
    GoesThroughExactly(c, key, call);
    if Admitted(c, key) {
      var holder, k := RefusedForTheClaim(c, key, call);
      hide Admitted, SiblingHolds, Reconciled;
    } else {
      RefusedForItself(c, key, call);
      hide Reconciled, SiblingHolds;
    }
  }

  /** And the service that nobody comes before is not refused for a sibling. */
  lemma EarliestServiceIsNotRefusedForSiblings(c: Cluster, key: Key, call: Call)
    requires key in c.services && Lists(call.order, c, key.ns)
    requires forall k :: !SiblingHolds(c, key, k)
    ensures var message := Conflict(c, key, call.order);
            message.Some? ==> message.value.HeldBy? && message.value.holder != OlderSibling
  {
    if Conflict(c, key, call.order).Some? {
      var holder, k := FirstNamed(c, key, call.order);
      hide SiblingHolds, GuardMessage;
    }
  }

  ghost predicate IsTrue(cs: seq<Condition>, kind: ConditionType) {
    exists i :: 0 <= i < |cs| && First(cs, kind, i) && cs[i].status == True
  }

  lemma CarriedIsTrue(before: seq<Condition>, after: seq<Condition>, kind: ConditionType, status: ConditionStatus,
                      reason: Reason, message: Message, generation: nat, now: nat)
    requires Carries(before, after, kind, status, reason, message, generation, now)
    ensures IsTrue(after, kind) <==> status == True
  {
    FindIsFirst(after, kind);
    hide First, Find;
    var i :| 0 <= i < |after| && First(after, kind, i)
             && after[i] == Condition(kind, status, reason, message, generation, after[i].since);
    hide Carries;
    assert Find(after, kind) == Some(after[i]);
    if j :| 0 <= j < |after| && First(after, kind, j) && after[j].status == True {
      assert Find(after, kind) == Some(after[j]);
    }
  }

  /** After a success the status says of the workload what its Deployment, as it was, said of itself. */
  lemma AvailabilityIsReported(c: Cluster, key: Key, call: Call)
    requires key in c.services && Lists(call.order, c, key.ns) && Ending(c, key, call).Succeeded?
    ensures var after := Reconciled(c, key, call);
            var available := key in c.deployments && DeploymentCondition("Available",
                True) in c.deployments[key].conditions;
            && key in after.services
            && var cs := after.services[key].status.conditions;
            && IsTrue(cs, Configured)
            && (IsTrue(cs, Ready) <==> available)
            && (IsTrue(cs, WorkloadAvailable) <==> available)
            && (IsTrue(cs, Progressing) <==> !available)
  {
    hide Carries, IsTrue, Ending, Reconciled, Admitted, ClaimFree, Equipped, DeploymentForeign, ServiceForeign, Deploys;
    GoesThroughExactly(c, key, call);
    GoesThrough(c, key, call);
    var before, cs := c.services[key].status.conditions, Reconciled(c, key, call).services[key].status.conditions;
    var g, now := c.services[key].generation, call.now;
    CarriedIsTrue(before, cs, Configured, True, ConfiguredReason, WorkloadApplied, g, now.configured);
    if key in c.deployments && ReportsAvailable(c.deployments[key]) {
      CarriedIsTrue(before, cs, WorkloadAvailable, True, WorkloadReady, DeploymentIsAvailable, g,
          now.workloadAvailable);
      CarriedIsTrue(before, cs, Ready, True, WorkloadReady, WorkloadServing, g, now.ready);
      CarriedIsTrue(before, cs, Progressing, False, WorkloadReady, RolloutComplete, g, now.progressing);
    } else {
      CarriedIsTrue(before, cs, WorkloadAvailable, False, WorkloadPending, NotYetAvailable, g, now.workloadAvailable);
      CarriedIsTrue(before, cs, Ready, False, WorkloadPending, NotYetAvailable, g, now.ready);
      CarriedIsTrue(before, cs, Progressing, True, Deploying, NotYetAvailable, g, now.progressing);
    }
  }

  /** The engine serves the model under the name the model declares, and the status gives that name. */
  lemma DeclaredNameIsServed(c: Cluster, key: Key, call: Call)
    requires key in c.services && Lists(call.order, c, key.ns) && Ending(c, key, call).Succeeded?
    ensures var after := Reconciled(c, key, call);
            var modelRef := c.services[key].spec.modelRef;
            && Key(key.ns, modelRef) in c.models
            && var declared := c.models[Key(key.ns, modelRef)].servedName;
            var name := if declared != "" then declared else modelRef;
            && key in after.deployments && |after.deployments[key].template.spec.containers| == 1
            && |after.deployments[key].template.spec.containers[0].args| > 1
            && after.deployments[key].template.spec.containers[0].args[1] == "--served-model-name=" + name
            && key in after.services && after.services[key].status.servedModelName == name
  {
    hide Ending, Reconciled, ClaimFree, Equipped, DeploymentForeign, ServiceForeign, CarriesWorkload;
    GoesThroughExactly(c, key, call);
    GoesThrough(c, key, call);
  }

  // ---------- the tenant ----------

  /** What a reconcile of the tenant leaves: the hash of its blob, its generation, and Ready with the reason. */
  lemma TenantSays(c: Cluster, now: nat)
    ensures c.tenant.None? ==> TenantReconciled(c, now) == c
    ensures c.tenant.Some? ==>
              var tenant := c.tenant.value;
              var after := TenantReconciled(c, now);
              var raw := Decode(tenant.initDataB64);
              && after.tenant.Some?
              && var status := after.tenant.value.status;
              && after == c.(tenant := Some(tenant.(status := status)))
              && status.observedGeneration == tenant.generation
              && status.appliedInitDataHash == InitDataHash(tenant.initDataB64)
              && (raw.None? ==>
                    Carries(tenant.status.conditions, status.conditions, Ready, False, InvalidConfig, BlobNotBase64,
                            tenant.generation, now))
              && (raw.Some? && !([0x1f, 0x8b] <= raw.value) ==>
                    Carries(tenant.status.conditions, status.conditions, Ready, False, InvalidConfig, BlobNotGzip,
                            tenant.generation, now))
              && (raw.Some? && [0x1f, 0x8b] <= raw.value ==>
                    Carries(tenant.status.conditions, status.conditions, Ready, True, Valid, ContractValid,
                            tenant.generation, now))
              && (forall kind :: kind != Ready ==> SameCondition(tenant.status.conditions, status.conditions, kind))
  {
    if c.tenant.Some? {
      var tenant := c.tenant.value;
      var written := TenantCondition(tenant, now);
      var before, after := tenant.status.conditions, Upsert(tenant.status.conditions, written);
      UpsertFinds(before, written);
      CarriesWhat(before, after, written);
      forall kind | kind != Ready ensures SameCondition(before, after, kind) {
        FindIsFirst(before, kind);
        FindIsFirst(after, kind);
      }
      hide Carries, SameCondition, Upsert, Find, Decode;
    }
  }
}
