/** Status stays honest over every run of any number of workers. */
module Honesty {
  import opened Types
  import opened Conditions
  import opened Guard
  import opened Reconcile
  import opened World
  import opened Protocol

  predicate AnyAction(s: System, a: Action) {
    true
  }

  /** Ready is Configured and WorkloadAvailable, Progressing is Configured and not WorkloadAvailable, each type
      occurs at most once, and nothing claims to have observed a generation that does not exist yet. */
  ghost predicate Honest(isvc: InferenceService, status: Status) {
    && Coherent(status.conditions)
    && UniqueKinds(status.conditions)
    && GenerationsUpTo(status.conditions, isvc.generation)
    && status.observedGeneration <= isvc.generation
  }

  ghost predicate PhaseHonest(p: Phase) {
    match p
    case GetTenant(_, isvc) => Honest(isvc, isvc.status)
    case GetModel(_, isvc, _) => Honest(isvc, isvc.status)
    case ListSiblings(job) => Honest(job.isvc, job.isvc.status)
    case ListDeployments(job) => Honest(job.isvc, job.isvc.status)
    case ListPods(job) => Honest(job.isvc, job.isvc.status)
    case PatchConfigMap(job) => Honest(job.isvc, job.isvc.status)
    case PatchDeployment(job, _) => Honest(job.isvc, job.isvc.status)
    case PatchService(job, _) => Honest(job.isvc, job.isvc.status)
    case UpdateStatus(_, isvc, status) => Honest(isvc, status)
  }

  ghost predicate AllHonest(c: Cluster) {
    forall k <- c.services :: Honest(c.services[k], c.services[k].status)
  }

  ghost predicate SystemHonest(s: System) {
    && AllHonest(s.world.cluster)
    && forall n <- s.workers :: PhaseHonest(s.workers[n])
  }

  lemma FailedHonest(isvc: InferenceService, reason: Reason, message: Message, now: Clock)
    requires Honest(isvc, isvc.status)
    ensures Honest(isvc, FailedStatus(isvc, reason, message, now))
  {
    WritersCohere(isvc.status.conditions, isvc.generation, reason, message, false, now);
    FailedKinds(isvc.status.conditions, isvc.generation, reason, message, now);
  }

  lemma AppliedHonest(job: Job, available: bool, now: Clock)
    requires Honest(job.isvc, job.isvc.status)
    ensures Honest(job.isvc, AppliedStatus(job.key, job.isvc, job.tenant, job.model, available, now))
  {
    var isvc := job.isvc;
    WritersCohere(isvc.status.conditions, isvc.generation, InvalidConfig, Silent, available, now);
    AppliedKinds(isvc.status.conditions, isvc.generation, available, now);
  }

  lemma ScanHonest(holder: Holder, c: Cluster, job: Job, order: seq<Key>, next: Phase, now: Clock)
    requires Honest(job.isvc, job.isvc.status) && PhaseHonest(next)
    ensures PhaseHonest(Scan(holder, c, job, order, next, now))
  {
    var first := FirstHolder(holder, c, job.key, job.isvc, order);
    if first.Some? {
      FailedHonest(job.isvc, TrustedStoreConflict, first.value, now);
    }
  }

  lemma RenderHonest(job: Job, now: Clock)
    requires Honest(job.isvc, job.isvc.status)
    ensures PhaseHonest(RenderJob(job, now))
  {
    var rendered := RenderFor(job.key, job.isvc, job.tenant, job.model);
    if rendered.Failure? {
      FailedHonest(job.isvc, InvalidConfig, rendered.error, now);
    }
  }

  lemma ResumeHonest(c: Cluster, p: Phase, call: Call)
    requires AllHonest(c) && PhaseHonest(p)
    ensures var progress := Resume(c, p, call);
            AllHonest(progress.cluster) && (progress.next.Some? ==> PhaseHonest(progress.next.value))
  {
    match p {
      case GetTenant(key, isvc) =>
        FailedHonest(isvc, TenantConfigMissing, NoTenant, call.now);
      case GetModel(key, isvc, tenant) =>
        var checks := OwnChecks(key, isvc, Some(tenant), Lookup(c.models, ModelKey(key, isvc)));
        if checks.Refuse? {
          FailedHonest(isvc, checks.reason, checks.message, call.now);
        }
      case ListSiblings(job) =>
        ScanHonest(OlderSibling, c, job, call.order.siblings, ListDeployments(job), call.now);
      case ListDeployments(job) =>
        ScanHonest(OtherDeployment, c, job, call.order.deployments, ListPods(job), call.now);
      case ListPods(job) =>
        RenderHonest(job, call.now);
        ScanHonest(StandalonePod, c, job, call.order.pods,
                   if job.isvc.spec.storage.weightsCache.Some? then PatchConfigMap(job) else RenderJob(job, call.now),
                   call.now);
      case PatchConfigMap(job) =>
        RenderHonest(job, call.now);
      case PatchDeployment(job, template) =>
      case PatchService(job, available) =>
        AppliedHonest(job, available, call.now);
      case UpdateStatus(key, isvc, status) =>
    }
  }

  lemma EnvironmentHonest(w: World, a: EnvAction)
    requires Possible(w, a) && AllHonest(w.cluster)
    ensures AllHonest(Act(w, a).cluster)
  {
    var after := Act(w, a).cluster;
    forall k | k in after.services ensures Honest(after.services[k], after.services[k].status) {
      if k in w.cluster.services {
        assert Honest(w.cluster.services[k], w.cluster.services[k].status);
      }
    }
  }

  lemma StepHonest(s: System, a: Action)
    requires SystemHonest(s) && Enabled(s, a)
    ensures SystemHonest(Step(s, a))
  {
    match a {
      case Environment(action) => EnvironmentHonest(s.world, action);
      case Start(worker, key) =>
      case Continue(worker, call) =>
        assert PhaseHonest(s.workers[worker]);
        ResumeHonest(s.world.cluster, s.workers[worker], call);
      case Abandon(worker) =>
    }
  }

  /** In every reachable state, with any number of workers and any environment, every status is honest, although
      failures leave WorkloadAvailable stale and status updates can be lost. */
  lemma {:induction false} StatusStaysHonest(s: System, actions: seq<Action>)
    requires SystemHonest(s) && Runs(s, actions, AnyAction)
    ensures SystemHonest(Exec(s, actions, AnyAction))
    decreases |actions|
  {
    if actions != [] {
      StepHonest(s, actions[0]);
      StatusStaysHonest(Step(s, actions[0]), actions[1..]);
    }
  }
}
