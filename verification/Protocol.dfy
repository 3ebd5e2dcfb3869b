/** The reconcile cut at its API calls, with workers and the environment taking steps in between. */
module Protocol {
  import opened Types
  import opened Conditions
  import opened Render
  import opened Guard
  import opened Reconcile
  import opened Frame
  import opened World

  /** What a worker holds once it has read everything it reads before the guard. */
  datatype Job = Job(key: Key, isvc: InferenceService, tenant: BrukTenant, model: BrukModel)

  /** The API call a worker is about to make, with what it has read so far. */
  datatype Phase =
    | GetTenant(key: Key, isvc: InferenceService)
    | GetModel(key: Key, isvc: InferenceService, tenant: BrukTenant)
    | ListSiblings(job: Job)
    | ListDeployments(job: Job)
    | ListPods(job: Job)
    | PatchConfigMap(job: Job)
    | PatchDeployment(job: Job, template: PodTemplate)
    | PatchService(job: Job, available: bool)
    | UpdateStatus(key: Key, isvc: InferenceService, status: Status)

  /** The service a worker is busy with, and the object it read. */
  function KeyOf(p: Phase): Key {
    match p
    case GetTenant(key, _) => key
    case GetModel(key, _, _) => key
    case ListSiblings(job) => job.key
    case ListDeployments(job) => job.key
    case ListPods(job) => job.key
    case PatchConfigMap(job) => job.key
    case PatchDeployment(job, _) => job.key
    case PatchService(job, _) => job.key
    case UpdateStatus(key, _, _) => key
  }

  function ReadBy(p: Phase): InferenceService {
    match p
    case GetTenant(_, isvc) => isvc
    case GetModel(_, isvc, _) => isvc
    case ListSiblings(job) => job.isvc
    case ListDeployments(job) => job.isvc
    case ListPods(job) => job.isvc
    case PatchConfigMap(job) => job.isvc
    case PatchDeployment(job, _) => job.isvc
    case PatchService(job, _) => job.isvc
    case UpdateStatus(_, isvc, _) => isvc
  }

  datatype Progress = Progress(cluster: Cluster, next: Option<Phase>)

  function GetService(c: Cluster, key: Key): Option<Phase> {
    if key in c.services then Some(GetTenant(key, c.services[key])) else None
  }

  function Fail(key: Key, isvc: InferenceService, reason: Reason, message: Message, now: Clock): Phase {
    UpdateStatus(key, isvc, FailedStatus(isvc, reason, message, now))
  }

  function RenderJob(job: Job, now: Clock): Phase {
    match RenderFor(job.key, job.isvc, job.tenant, job.model)
    case Failure(e) => Fail(job.key, job.isvc, InvalidConfig, e, now)
    case Success(template) => PatchDeployment(job, template)
  }

  /** One scan of the guard, then the next phase. */
  function Scan(holder: Holder, c: Cluster, job: Job, order: seq<Key>, next: Phase, now: Clock): Phase {
    match FirstHolder(holder, c, job.key, job.isvc, order)
    case Some(message) => Fail(job.key, job.isvc, TrustedStoreConflict, message, now)
    case None => next
  }

  /** One API call and the local work up to the next one. */
  function Resume(c: Cluster, p: Phase, call: Call): Progress {
    match p
    case GetTenant(key, isvc) =>
      Progress(c, Some(if c.tenant.None? then Fail(key, isvc, TenantConfigMissing, NoTenant, call.now)
                       else GetModel(key, isvc, c.tenant.value)))
    case GetModel(key, isvc, tenant) =>
      Progress(c, Some(match OwnChecks(key, isvc, Some(tenant), Lookup(c.models, ModelKey(key, isvc)))
                       case Refuse(reason, message) => Fail(key, isvc, reason, message, call.now)
                       case Go(tenant, model) => ListSiblings(Job(key, isvc, tenant, model))))
    case ListSiblings(job) =>
      Progress(c, Some(Scan(OlderSibling, c, job, call.order.siblings, ListDeployments(job), call.now)))
    case ListDeployments(job) =>
      Progress(c, Some(Scan(OtherDeployment, c, job, call.order.deployments, ListPods(job), call.now)))
    case ListPods(job) =>
      var next := if job.isvc.spec.storage.weightsCache.Some? then PatchConfigMap(job) else RenderJob(job, call.now);
      Progress(c, Some(Scan(StandalonePod, c, job, call.order.pods, next, call.now)))
    case PatchConfigMap(job) =>
      Progress(PutConfigMap(c, job.key.ns), Some(RenderJob(job, call.now)))
    case PatchDeployment(job, template) =>
      if DeploymentTaken(c, job.key, job.isvc.uid) then Progress(c, None)
      else Progress(PutDeployment(c, job.key, job.isvc.uid, template),
                    Some(PatchService(job, IsAvailable(DeploymentStatus(c, job.key)))))
    case PatchService(job, available) =>
      if ServiceTaken(c, job.key, job.isvc.uid) then Progress(c, None)
      else Progress(PutService(c, job.key, job.isvc.uid),
                    Some(UpdateStatus(job.key, job.isvc, AppliedStatus(job.key, job.isvc, job.tenant, job.model,
                        available, call.now))))
    case UpdateStatus(key, isvc, status) =>
      // The update carries the version that was read: it fails if the object has changed since.
      Progress(if Lookup(c.services, key) == Some(isvc) then PutStatus(c, key, status) else c, None)
  }

  // ---------- what a call reaches ----------

  /** A call reaches the objects of the worker's own service only. */
  lemma ResumeTouchesOnly(c: Cluster, p: Phase, call: Call)
    ensures OnlyTouches(c, Resume(c, p, call).cluster, KeyOf(p))
  {
    hide Scan, OwnChecks, RenderJob, AppliedStatus, OnlyTouches, PutConfigMap, PutDeployment, PutService, PutStatus;
    match p {
      case PatchConfigMap(job) => PutConfigMapTouchesOnly(c, job.key);
      case PatchDeployment(job, template) => PutDeploymentTouchesOnly(c, job.key, job.isvc.uid, template);
      case PatchService(job, available) => PutServiceTouchesOnly(c, job.key, job.isvc.uid);
      case UpdateStatus(key, isvc, status) => PutStatusTouchesOnly(c, key, status);
      case _ => NothingTouched(c, KeyOf(p));
    }
  }

  lemma NothingTouched(c: Cluster, key: Key)
    ensures OnlyTouches(c, c, key)
  {
  }

  lemma PutConfigMapTouchesOnly(c: Cluster, key: Key)
    ensures OnlyTouches(c, PutConfigMap(c, key.ns), key)
  {
  }

  lemma PutDeploymentTouchesOnly(c: Cluster, key: Key, uid: nat, template: PodTemplate)
    ensures OnlyTouches(c, c, key) && OnlyTouches(c, PutDeployment(c, key, uid, template), key)
  {
    hide RenderedDeployment;
  }

  lemma PutServiceTouchesOnly(c: Cluster, key: Key, uid: nat)
    ensures OnlyTouches(c, c, key) && OnlyTouches(c, PutService(c, key, uid), key)
  {
  }

  lemma PutStatusTouchesOnly(c: Cluster, key: Key, status: Status)
    ensures OnlyTouches(c, c, key)
    ensures key in c.services ==> OnlyTouches(c, PutStatus(c, key, status), key)
  {
  }

  // ---------- the system ----------

  /** Workers that are not idle, by number. */
  datatype System = System(world: World, workers: map<nat, Phase>)

  /** Abandon covers every error return and a restart of the operator: the call changed nothing. */
  datatype Action =
    | Environment(action: EnvAction)
    | Start(worker: nat, key: Key)
    | Continue(worker: nat, call: Call)
    | Abandon(worker: nat)

  /** What a list call may return. Up-to-date reads are assumed. */
  ghost predicate FaithfulRead(c: Cluster, p: Phase, order: Listing) {
    match p
    case ListSiblings(job) => Enumerates(order.siblings, c.services.Keys, job.key.ns)
    case ListDeployments(job) => Enumerates(order.deployments, c.deployments.Keys, job.key.ns)
    case ListPods(job) => Enumerates(order.pods, c.pods.Keys, job.key.ns)
    case _ => true
  }

  ghost predicate Enabled(s: System, a: Action) {
    match a
    case Environment(action) => Possible(s.world, action)
    case Start(worker, key) => worker !in s.workers
    case Continue(worker, call) => worker in s.workers && FaithfulRead(s.world.cluster, s.workers[worker], call.order)
    case Abandon(worker) => worker in s.workers
  }

  ghost function Step(s: System, a: Action): System
    requires Enabled(s, a)
  {
    match a
    case Environment(action) => s.(world := Act(s.world, action))
    case Start(worker, key) =>
      var first := GetService(s.world.cluster, key);
      if first.None? then s else s.(workers := s.workers[worker := first.value])
    case Continue(worker, call) =>
      var progress := Resume(s.world.cluster, s.workers[worker], call);
      System(s.world.(cluster := progress.cluster),
             if progress.next.Some? then s.workers[worker := progress.next.value] else s.workers - {worker})
    case Abandon(worker) => s.(workers := s.workers - {worker})
  }

  /** A run: each action is enabled when it happens and meets the side condition `rule`. */
  ghost predicate Runs(s: System, actions: seq<Action>, rule: (System, Action) -> bool)
    decreases |actions|
  {
    actions == [] ||
    (Enabled(s, actions[0]) && rule(s, actions[0]) && Runs(Step(s, actions[0]), actions[1..], rule))
  }

  ghost function Exec(s: System, actions: seq<Action>, rule: (System, Action) -> bool): System
    requires Runs(s, actions, rule)
    decreases |actions|
  {
    if actions == [] then s else Exec(Step(s, actions[0]), actions[1..], rule)
  }

  // ---------- the cut refines the whole ----------

  /** A worker that is left alone, up to n calls. */
  function Drive(c: Cluster, p: Option<Phase>, call: Call, n: nat): Progress
    decreases n
  {
    if n == 0 || p.None? then Progress(c, p)
    else
      var progress := Resume(c, p.value, call);
      Drive(progress.cluster, progress.next, call, n - 1)
  }

  /** Cut into its API calls and run without interruption, a reconcile does what the whole one does. */
  lemma AloneIsWhole(c: Cluster, key: Key, call: Call)
    ensures Drive(c, GetService(c, key), call, 9) == Progress(Reconciled(c, key, call), None)
  {
    if key in c.services {
      var isvc := c.services[key];
      match Checks(c, key, isvc) {
        case Refuse(reason, message) => RefusedAlone(c, key, call, reason, message);
        case Go(tenant, model) =>
          var job := Job(key, isvc, tenant, model);
          assert Drive(c, GetService(c, key), call, 9) == Drive(c, Some(GetModel(key, isvc, tenant)), call, 8)
              == Drive(c, Some(ListSiblings(job)), call, 7);
          GuardAlone(c, job, call);
      }
    }
  }

  lemma StatusAlone(c: Cluster, key: Key, status: Status, call: Call, n: nat)
    requires key in c.services && n >= 1
    ensures Drive(c, Some(UpdateStatus(key, c.services[key], status)), call, n)
        == Progress(PutStatus(c, key, status), None)
  {
    assert Resume(c, UpdateStatus(key, c.services[key], status), call) == Progress(PutStatus(c, key, status), None);
  }

  lemma FailAlone(c: Cluster, key: Key, reason: Reason, message: Message, call: Call, n: nat)
    requires key in c.services && n >= 1
    ensures Drive(c, Some(Fail(key, c.services[key], reason, message, call.now)), call, n)
         == Progress(PutStatus(c, key, FailedStatus(c.services[key], reason, message, call.now)), None)
  {
    StatusAlone(c, key, FailedStatus(c.services[key], reason, message, call.now), call, n);
  }

  lemma RefusedAlone(c: Cluster, key: Key, call: Call, reason: Reason, message: Message)
    requires key in c.services && Checks(c, key, c.services[key]) == Refuse(reason, message)
    ensures Drive(c, GetService(c, key), call, 9) == Progress(Reconciled(c, key, call), None)
  {
    var isvc := c.services[key];
    assert Ending(c, key, call) == Refused(reason, message);
    if c.tenant.None? {
      assert Drive(c, GetService(c, key), call, 9) == Drive(c, Some(Fail(key, isvc, reason, message, call.now)), call,
          8);
      FailAlone(c, key, reason, message, call, 8);
    } else {
      assert Drive(c, GetService(c, key), call, 9) == Drive(c, Some(GetModel(key, isvc, c.tenant.value)), call, 8)
          == Drive(c, Some(Fail(key, isvc, reason, message, call.now)), call, 7);
      FailAlone(c, key, reason, message, call, 7);
    }
  }

  lemma GuardAlone(c: Cluster, job: Job, call: Call)
    requires job.key in c.services && c.services[job.key] == job.isvc
    requires Checks(c, job.key, job.isvc) == Go(job.tenant, job.model)
    ensures Drive(c, Some(ListSiblings(job)), call, 7) == Progress(Reconciled(c, job.key, call), None)
  {
    hide FailedConditions, AppliedConditions, RenderDeployment, EndpointURL;
    var one := FirstHolder(OlderSibling, c, job.key, job.isvc, call.order.siblings);
    var two := FirstHolder(OtherDeployment, c, job.key, job.isvc, call.order.deployments);
    var three := FirstHolder(StandalonePod, c, job.key, job.isvc, call.order.pods);
    if one.Some? {
      assert Ending(c, job.key, call) == Refused(TrustedStoreConflict, one.value);
      FailAlone(c, job.key, TrustedStoreConflict, one.value, call, 6);
    } else if two.Some? {
      assert Ending(c, job.key, call) == Refused(TrustedStoreConflict, two.value);
      assert Drive(c, Some(ListSiblings(job)), call, 7) == Drive(c, Some(ListDeployments(job)), call, 6);
      FailAlone(c, job.key, TrustedStoreConflict, two.value, call, 5);
    } else if three.Some? {
      assert Ending(c, job.key, call) == Refused(TrustedStoreConflict, three.value);
      assert Drive(c, Some(ListSiblings(job)), call, 7) == Drive(c, Some(ListDeployments(job)), call, 6)
          == Drive(c, Some(ListPods(job)), call, 5);
      FailAlone(c, job.key, TrustedStoreConflict, three.value, call, 4);
    } else {
      assert Conflict(c, job.key, call.order).None?;
      assert Drive(c, Some(ListSiblings(job)), call, 7) == Drive(c, Some(ListDeployments(job)), call, 6)
          == Drive(c, Some(ListPods(job)), call, 5);
      ApplyAlone(c, job, call);
    }
  }

  lemma ApplyAlone(c: Cluster, job: Job, call: Call)
    requires job.key in c.services && c.services[job.key] == job.isvc
    requires Checks(c, job.key, job.isvc) == Go(job.tenant, job.model)
    requires Conflict(c, job.key, call.order).None?
    requires FirstHolder(StandalonePod, c, job.key, job.isvc, call.order.pods).None?
    ensures Drive(c, Some(ListPods(job)), call, 5) == Progress(Reconciled(c, job.key, call), None)
  {
    var cached := job.isvc.spec.storage.weightsCache.Some?;
    var prepared := Write(c, job.key, Writes(None, None, None, cached));
    var rest := RenderJob(job, call.now);
    if cached {
      assert prepared == PutConfigMap(c, job.key.ns);
      assert Resume(c, ListPods(job), call) == Progress(c, Some(PatchConfigMap(job)));
      assert Resume(c, PatchConfigMap(job), call) == Progress(prepared, Some(rest));
      assert Drive(c, Some(ListPods(job)), call, 5) == Drive(c, Some(PatchConfigMap(job)), call, 4)
          == Drive(prepared, Some(rest), call, 3);
      RestAlone(c, job, call, 3);
    } else {
      assert prepared == c;
      assert Resume(c, ListPods(job), call) == Progress(c, Some(rest));
      assert Drive(c, Some(ListPods(job)), call, 5) == Drive(prepared, Some(rest), call, 4);
      RestAlone(c, job, call, 4);
    }
  }

  lemma RestAlone(c: Cluster, job: Job, call: Call, n: nat)
    requires job.key in c.services && c.services[job.key] == job.isvc && n >= 3
    requires Checks(c, job.key, job.isvc) == Go(job.tenant, job.model)
    requires Conflict(c, job.key, call.order).None?
    ensures var prepared := Write(c, job.key, Writes(None, None, None, job.isvc.spec.storage.weightsCache.Some?));
            Drive(prepared, Some(RenderJob(job, call.now)), call, n) == Progress(Reconciled(c, job.key, call), None)
  {
    var prepared := Write(c, job.key, Writes(None, None, None, job.isvc.spec.storage.weightsCache.Some?));
    match RenderFor(job.key, job.isvc, job.tenant, job.model) {
      case Failure(e) =>
        assert Ending(c, job.key, call) == RenderFailed(e);
        FailAlone(prepared, job.key, InvalidConfig, e, call, n);
      case Success(template) =>
        assert Ending(c, job.key, call) == WorkloadOutcome(c, job.key, job.isvc, template, job.tenant, job.model);
        ConfigMapFirst(c, job.key, template, job.tenant, job.model, call.now);
        WorkloadAlone(prepared, job, template, call, n);
        WorkloadIsOneWrite(prepared, job.key, job.isvc, template, job.tenant, job.model, call.now);
    }
  }

  lemma ServiceAlone(c: Cluster, job: Job, available: bool, call: Call, n: nat)
    requires job.key in c.services && c.services[job.key] == job.isvc && n >= 2
    ensures Drive(c, Some(PatchService(job, available)), call, n)
         == Progress(if ServiceTaken(c, job.key, job.isvc.uid) then c
                     else PutStatus(PutService(c, job.key, job.isvc.uid), job.key,
                                    AppliedStatus(job.key, job.isvc, job.tenant, job.model, available, call.now)),
                     None)
  {
    if !ServiceTaken(c, job.key, job.isvc.uid) {
      var c2 := PutService(c, job.key, job.isvc.uid);
      var update := UpdateStatus(job.key, job.isvc, AppliedStatus(job.key, job.isvc, job.tenant, job.model, available,
          call.now));
      assert Resume(c, PatchService(job, available), call) == Progress(c2, Some(update));
      StatusAlone(c2, job.key, update.status, call, n - 1);
    }
  }

  lemma WorkloadAlone(c: Cluster, job: Job, template: PodTemplate, call: Call, n: nat)
    requires job.key in c.services && c.services[job.key] == job.isvc && n >= 3
    ensures Drive(c, Some(PatchDeployment(job, template)), call, n) 
         == Progress(Workload(c, job.key, job.isvc, template, job.tenant, job.model, call.now), None)
  {
    if !DeploymentTaken(c, job.key, job.isvc.uid) {
      var c1 := PutDeployment(c, job.key, job.isvc.uid, template);
      var available := IsAvailable(DeploymentStatus(c, job.key));
      assert Resume(c, PatchDeployment(job, template), call) == Progress(c1, Some(PatchService(job, available)));
      ServiceAlone(c1, job, available, call, n - 1);
      assert ServiceTaken(c1, job.key, job.isvc.uid) <==> ServiceTaken(c, job.key, job.isvc.uid);
    }
  }
}
