/** One workload per claim over whole runs, with the environment acting between any two API calls. */
module Exclusion {
  import opened Types
  import opened Render
  import opened Guard
  import opened Reconcile
  import opened Frame
  import opened Claims
  import opened World
  import opened Protocol

  predicate MountsAt(c: Cluster, k: Key, claim: string) {
    k in c.deployments && MountsClaim(c.deployments[k].template.spec, claim)
  }

  /** No two Deployments that the operator applied in one namespace mount the same claim. */
  ghost predicate Exclusive(c: Cluster) {
    forall k1, k2, claim ::
      Applied(c, k1) && Applied(c, k2) && k1.ns == k2.ns && MountsAt(c, k1, claim) && MountsAt(c, k2, claim) ==>
          k1 == k2
  }

  // ---------- one worker ----------

  /** A worker starts only when no other is busy. */
  predicate OneWorker(s: System, a: Action) {
    a.Start? ==> s.workers == map[]
  }

  /** No applied Deployment but the job's own mounts the job's claim. */
  ghost predicate Clear(c: Cluster, job: Job) {
    forall k :: Applied(c, k) && k.ns == job.key.ns && MountsAt(c, k, job.isvc.Claim()) ==> k == job.key
  }

  ghost predicate Known(w: World, key: Key, isvc: InferenceService) {
    isvc.uid in w.issued && w.issued[isvc.uid] == key
  }

  ghost predicate PhaseOk(w: World, p: Phase) {
    match p
    case GetTenant(key, isvc) => Known(w, key, isvc)
    case GetModel(key, isvc, _) => Known(w, key, isvc)
    case ListSiblings(job) => Known(w, job.key, job.isvc)
    case ListDeployments(job) => Known(w, job.key, job.isvc)
    case ListPods(job) => Known(w, job.key, job.isvc) && Clear(w.cluster, job)
    case PatchConfigMap(job) => Known(w, job.key, job.isvc) && Clear(w.cluster, job)
    case PatchDeployment(job, template) =>
      && Known(w, job.key, job.isvc)
      && Clear(w.cluster, job)
      && RenderFor(job.key, job.isvc, job.tenant, job.model) == Success(template)
    case PatchService(_, _) => true
    case UpdateStatus(_, _, _) => true
  }

  ghost predicate Inv(s: System) {
    && Registered(s.world)
    && Exclusive(s.world.cluster)
    && (forall n <- s.workers :: PhaseOk(s.world, s.workers[n]))
    && (forall m <- s.workers, n <- s.workers :: m == n)
  }

  lemma EnvironmentKeepsMounts(w: World, a: EnvAction, k: Key, claim: string)
    requires Possible(w, a)
    ensures Applied(Act(w, a).cluster, k) && MountsAt(Act(w, a).cluster, k, claim) ==>
        Applied(w.cluster, k) && MountsAt(w.cluster, k, claim)
  {
    EnvironmentAddsNoMounter(w, a, k);
  }

  lemma EnvironmentKeepsInv(s: System, a: EnvAction)
    requires Inv(s) && Possible(s.world, a)
    ensures Inv(s.(world := Act(s.world, a)))
  {
    var w, after := s.world, Act(s.world, a);
    EnvironmentKeepsRegistered(w, a);
    forall k, claim { EnvironmentKeepsMounts(w, a, k, claim); }
    forall n | n in s.workers ensures PhaseOk(after, s.workers[n]) {
      assert PhaseOk(w, s.workers[n]);
    }
  }

  lemma ListedClear(w: World, job: Job, order: seq<Key>)
    requires Registered(w) && Known(w, job.key, job.isvc)
    requires Enumerates(order, w.cluster.deployments.Keys, job.key.ns)
    requires FirstHolder(OtherDeployment, w.cluster, job.key, job.isvc, order).None?
    ensures Clear(w.cluster, job)
  {
    FirstHolderExact(OtherDeployment, w.cluster, job.key, job.isvc, order);
    forall k | Applied(w.cluster, k) && k.ns == job.key.ns && MountsAt(w.cluster, k, job.isvc.Claim())
      ensures k == job.key
    {
      assert k in order;
      assert !HoldsClaim(OtherDeployment, w.cluster, job.key, job.isvc, k);
    }
  }

  lemma RenderedJobMounts(job: Job, template: PodTemplate, claim: string)
    requires RenderFor(job.key, job.isvc, job.tenant, job.model) == Success(template)
    ensures MountsClaim(template.spec, claim) <==> claim == job.isvc.Claim()
  {
    RenderedMountsExactly(job.key.name, job.isvc.spec, job.isvc.spec.modelRef, job.model, TenantConfig(job.tenant),
        claim);
  }

  lemma PatchKeepsExclusive(w: World, job: Job, template: PodTemplate)
    requires Registered(w) && Exclusive(w.cluster)
    requires Known(w, job.key, job.isvc) && Clear(w.cluster, job)
    requires RenderFor(job.key, job.isvc, job.tenant, job.model) == Success(template)
    ensures var after := w.(cluster := PutDeployment(w.cluster, job.key, job.isvc.uid, template));
            Registered(after) && Exclusive(after.cluster)
  {
    var c := w.cluster;
    var after := PutDeployment(c, job.key, job.isvc.uid, template);
    forall k, claim | Applied(after, k) && MountsAt(after, k, claim)
      ensures k == job.key ==> claim == job.isvc.Claim()
      ensures k != job.key ==> Applied(c, k) && MountsAt(c, k, claim)
    {
      RenderedJobMounts(job, template, claim);
    }
  }

  lemma SameDeploymentsKeep(w: World, c: Cluster)
    requires Registered(w) && Exclusive(w.cluster)
    requires c.deployments == w.cluster.deployments && SameButStatus(w.cluster, c)
    ensures Registered(w.(cluster := c)) && Exclusive(c)
  {
    assert forall k :: Applied(c, k) <==> Applied(w.cluster, k);
    assert forall k, claim :: MountsAt(c, k, claim) <==> MountsAt(w.cluster, k, claim);
  }

  lemma OtherCallsKeepDeployments(c: Cluster, p: Phase, call: Call)
    requires !p.PatchDeployment?
    ensures var after := Resume(c, p, call).cluster;
            after.deployments == c.deployments && SameButStatus(c, after)
  {
    hide Scan, OwnChecks, RenderJob, AppliedStatus;
    var after := Resume(c, p, call).cluster;
    match p {
      case PatchConfigMap(job) =>
      case PatchService(job, available) =>
      case PatchDeployment(_, _) =>
      case UpdateStatus(key, isvc, status) =>
        assert after.services.Keys == c.services.Keys;
      case _ => assert after == c;
    }
  }

  lemma NextPhaseOk(w: World, p: Phase, call: Call)
    requires Registered(w) && PhaseOk(w, p) && FaithfulRead(w.cluster, p, call.order)
    ensures var next := Resume(w.cluster, p, call).next;
            next.Some? ==> PhaseOk(w, next.value)
  {
    hide FailedStatus, AppliedStatus, RenderFor;
    var order := call.order.deployments;
    if p.ListDeployments? && FirstHolder(OtherDeployment, w.cluster, p.job.key, p.job.isvc, order).None? {
      ListedClear(w, p.job, order);
    }
  }

  lemma PhaseOkMoves(w: World, c: Cluster, p: Phase)
    requires PhaseOk(w, p) && c.deployments == w.cluster.deployments
    ensures PhaseOk(w.(cluster := c), p)
  {
    assert forall k :: Applied(c, k) <==> Applied(w.cluster, k);
    assert forall k, claim :: MountsAt(c, k, claim) <==> MountsAt(w.cluster, k, claim);
  }

  lemma ResumeKeepsInv(w: World, p: Phase, call: Call)
    requires Registered(w) && Exclusive(w.cluster) && PhaseOk(w, p) && FaithfulRead(w.cluster, p, call.order)
    ensures var progress := Resume(w.cluster, p, call);
            var after := w.(cluster := progress.cluster);
            && Registered(after) && Exclusive(after.cluster)
            && (progress.next.Some? ==> PhaseOk(after, progress.next.value))
  {
    hide FailedStatus, AppliedStatus, RenderFor;
    var progress := Resume(w.cluster, p, call);
    if p.PatchDeployment? {
      PatchKeepsExclusive(w, p.job, p.template);
    } else {
      OtherCallsKeepDeployments(w.cluster, p, call);
      SameDeploymentsKeep(w, progress.cluster);
      NextPhaseOk(w, p, call);
      if progress.next.Some? {
        PhaseOkMoves(w, progress.cluster, progress.next.value);
      }
    }
  }

  lemma ContinueKeepsInv(s: System, worker: nat, call: Call)
    requires Inv(s) && Enabled(s, Continue(worker, call))
    ensures Inv(Step(s, Continue(worker, call)))
  {
    hide Resume, PhaseOk, Registered, Exclusive;
    assert PhaseOk(s.world, s.workers[worker]);
    ResumeKeepsInv(s.world, s.workers[worker], call);
  }

  lemma StepKeepsInv(s: System, a: Action)
    requires Inv(s) && Enabled(s, a) && OneWorker(s, a)
    ensures Inv(Step(s, a))
  {
    match a {
      case Environment(action) => EnvironmentKeepsInv(s, action);
      case Start(worker, key) =>
      case Continue(worker, call) => ContinueKeepsInv(s, worker, call);
      case Abandon(worker) =>
    }
  }

  lemma {:induction false} RunKeepsInv(s: System, actions: seq<Action>)
    requires Inv(s) && Runs(s, actions, OneWorker)
    ensures Inv(Exec(s, actions, OneWorker))
    decreases |actions|
  {
    if actions != [] {
      StepKeepsInv(s, actions[0]);
      RunKeepsInv(Step(s, actions[0]), actions[1..]);
    }
  }

  /** With one worker, exclusion holds in every reachable state, whatever the environment does between any two
      API calls: claims edited, services deleted and created again, Deployments collected, removed or changed
      (short of mounting a further claim), foreign objects coming and going, reconciles abandoned half way. */
  lemma OneWorkerExcludes(s: System, actions: seq<Action>)
    requires Registered(s.world) && Exclusive(s.world.cluster) && s.workers == map[]
    requires Runs(s, actions, OneWorker)
    ensures Exclusive(Exec(s, actions, OneWorker).world.cluster)
    ensures OwnersNamed(Exec(s, actions, OneWorker).world.cluster)
  {
    RunKeepsInv(s, actions);
    var end := Exec(s, actions, OneWorker);
    forall k, j | k in end.world.cluster.deployments && j in end.world.cluster.services
                  && ControlledBy(end.world.cluster.deployments[k], end.world.cluster.services[j])
      ensures k == j
    {
      assert Applied(end.world.cluster, k);
    }
  }
}
