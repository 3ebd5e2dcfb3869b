/** Any number of workers at once: what the sibling rule alone guarantees, and what it needs. */
module Workers {
  import opened Types
  import opened Order
  import opened Guard
  import opened Reconcile
  import opened Claims
  import opened World
  import opened Protocol
  import opened Exclusion

  /** Claims stay fixed and, for each claim, services only come in above the ones that are there. */
  ghost predicate Upward(s: System, a: Action) {
    var services := s.world.cluster.services;
    match a
    case Environment(CreateService(key, uid, created, spec)) =>
      forall k <- services :: k.ns == key.ns && services[k].Claim() == spec.storage.trustedStore.existingClaim ==>
        Precedes(k.name, services[k], key.name, InferenceService(uid, created, 1, spec, EMPTY_STATUS))
    case Environment(EditSpec(key, spec)) =>
      key in services && spec.storage.trustedStore.existingClaim == services[key].Claim()
    case Environment(DeleteService(key)) => false
    case _ => true
  }

  /** The copy a worker read still has the stored object's uid, age and claim. */
  ghost predicate Current(c: Cluster, key: Key, isvc: InferenceService) {
    && key in c.services
    && c.services[key].uid == isvc.uid
    && c.services[key].created == isvc.created
    && c.services[key].Claim() == isvc.Claim()
  }

  ghost predicate CurrentAndLeast(c: Cluster, job: Job) {
    Current(c, job.key, job.isvc) && Least(c, job.key)
  }

  ghost predicate PhaseLeast(c: Cluster, p: Phase) {
    match p
    case GetTenant(key, isvc) => Current(c, key, isvc)
    case GetModel(key, isvc, _) => Current(c, key, isvc)
    case ListSiblings(job) => Current(c, job.key, job.isvc)
    case ListDeployments(job) => CurrentAndLeast(c, job)
    case ListPods(job) => CurrentAndLeast(c, job)
    case PatchConfigMap(job) => CurrentAndLeast(c, job)
    case PatchDeployment(job, template) =>
      && CurrentAndLeast(c, job)
      && RenderFor(job.key, job.isvc, job.tenant, job.model) == Success(template)
    case PatchService(_, _) => true
    case UpdateStatus(_, _, _) => true
  }

  /** An applied Deployment is the least service's, and mounts that service's claim. */
  ghost predicate AppliedByLeast(c: Cluster, k: Key) {
    && k in c.services && k in c.deployments
    && ControlledBy(c.deployments[k], c.services[k])
    && Least(c, k)
    && forall claim :: MountsAt(c, k, claim) ==> claim == c.services[k].Claim()
  }

  ghost predicate LeastOnly(s: System) {
    && (forall k :: Applied(s.world.cluster, k) ==> AppliedByLeast(s.world.cluster, k))
    && (forall n <- s.workers :: PhaseLeast(s.world.cluster, s.workers[n]))
  }

  ghost predicate SameIdentities(c1: Cluster, c2: Cluster) {
    forall k <- c1.services :: Current(c2, k, c1.services[k])
  }

  /** Services that come in above the others do not unseat anyone. */
  lemma LeastStays(c1: Cluster, c2: Cluster, key: Key)
    requires SameIdentities(c1, c2) && key in c1.services && Least(c1, key)
    requires forall k <- c2.services ::
               k !in c1.services && k.ns == key.ns && c2.services[k].Claim() == c1.services[key].Claim() ==>
                 Precedes(key.name, c1.services[key], k.name, c2.services[k])
    ensures key in c2.services && Least(c2, key)
  {
    assert Current(c2, key, c1.services[key]);
    forall k ensures !HoldsClaim(OlderSibling, c2, key, c2.services[key], k) {
      if k in c1.services {
        assert Current(c2, k, c1.services[k]);
        assert !HoldsClaim(OlderSibling, c1, key, c1.services[key], k);
      } else if HoldsClaim(OlderSibling, c2, key, c2.services[key], k) {
        PrecedesIsStrictTotal(key.name, c1.services[key], k.name, c2.services[k], key.name, c1.services[key]);
      }
    }
  }

  lemma EnvironmentKeepsIdentities(s: System, a: EnvAction)
    requires Possible(s.world, a) && Upward(s, Environment(a))
    ensures SameIdentities(s.world.cluster, Act(s.world, a).cluster)
  {
  }

  lemma EnvironmentKeepsLeast(s: System, a: EnvAction, key: Key)
    requires Possible(s.world, a) && Upward(s, Environment(a))
    requires key in s.world.cluster.services && Least(s.world.cluster, key)
    ensures key in Act(s.world, a).cluster.services && Least(Act(s.world, a).cluster, key)
  {
    EnvironmentKeepsIdentities(s, a);
    LeastStays(s.world.cluster, Act(s.world, a).cluster, key);
  }

  lemma EnvironmentKeepsLeastOnly(s: System, a: EnvAction)
    requires LeastOnly(s) && Possible(s.world, a) && Upward(s, Environment(a))
    ensures LeastOnly(s.(world := Act(s.world, a)))
  {
    var c, after := s.world.cluster, Act(s.world, a).cluster;
    EnvironmentKeepsIdentities(s, a);
    forall k | Applied(after, k) ensures AppliedByLeast(after, k) {
      EnvironmentAddsNoMounter(s.world, a, k);
      assert AppliedByLeast(c, k);
      assert Current(after, k, c.services[k]);
      EnvironmentKeepsLeast(s, a, k);
      forall claim { EnvironmentKeepsMounts(s.world, a, k, claim); }
    }
    forall n | n in s.workers ensures PhaseLeast(after, s.workers[n]) {
      var p := s.workers[n];
      assert PhaseLeast(c, p);
      var key := KeyOf(p);
      if key in c.services {
        assert Current(after, key, c.services[key]);
        if Least(c, key) {
          EnvironmentKeepsLeast(s, a, key);
        }
      }
    }
  }

  lemma NoSiblingMeansLeast(c: Cluster, job: Job, order: seq<Key>)
    requires Current(c, job.key, job.isvc)
    requires Enumerates(order, c.services.Keys, job.key.ns)
    requires FirstHolder(OlderSibling, c, job.key, job.isvc, order).None?
    ensures Least(c, job.key)
  {
    FirstHolderExact(OlderSibling, c, job.key, job.isvc, order);
    forall k ensures !HoldsClaim(OlderSibling, c, job.key, c.services[job.key], k) {
      if k in order {
        assert !HoldsClaim(OlderSibling, c, job.key, job.isvc, k);
      }
    }
  }

  lemma ResumeKeepsIdentities(c: Cluster, p: Phase, call: Call)
    ensures SameIdentities(c, Resume(c, p, call).cluster) && SameIdentities(Resume(c, p, call).cluster, c)
  {
  }

  lemma ResumePhase(c: Cluster, p: Phase, call: Call)
    requires PhaseLeast(c, p) && FaithfulRead(c, p, call.order)
    ensures var next := Resume(c, p, call).next;
            next.Some? ==> PhaseLeast(c, next.value)
  {
    if p.ListSiblings? && FirstHolder(OlderSibling, c, p.job.key, p.job.isvc, call.order.siblings).None? {
      NoSiblingMeansLeast(c, p.job, call.order.siblings);
    }
  }

  /** The Deployment under k in c2 was put there for the least service k of c1. */
  ghost predicate AppliedForLeast(c1: Cluster, c2: Cluster, k: Key) {
    && k in c1.services && Least(c1, k) && k in c2.deployments
    && ControlledBy(c2.deployments[k], c1.services[k])
    && forall claim :: MountsAt(c2, k, claim) ==> claim == c1.services[k].Claim()
  }

  lemma ResumeAppliesLeast(c: Cluster, p: Phase, call: Call, k: Key)
    requires PhaseLeast(c, p)
    ensures var after := Resume(c, p, call).cluster;
            Lookup(after.deployments, k) == Lookup(c.deployments, k) || AppliedForLeast(c, after, k)
  {
    hide FailedStatus, AppliedStatus, RenderFor;
    if p.PatchDeployment? && k == p.job.key {
      forall claim { RenderedJobMounts(p.job, p.template, claim); }
    }
  }

  lemma SameIdentitiesKeepLeast(c1: Cluster, c2: Cluster, k: Key)
    requires SameIdentities(c1, c2) && SameIdentities(c2, c1) && k in c1.services
    ensures k in c2.services && (Least(c1, k) ==> Least(c2, k))
  {
    assert Current(c2, k, c1.services[k]);
    if Least(c1, k) {
      forall j | j in c2.services ensures j in c1.services {
        assert Current(c1, j, c2.services[j]);
      }
      LeastStays(c1, c2, k);
    }
  }

  lemma PhaseLeastMoves(c1: Cluster, c2: Cluster, p: Phase)
    requires SameIdentities(c1, c2) && SameIdentities(c2, c1) && PhaseLeast(c1, p)
    ensures PhaseLeast(c2, p)
  {
    forall k | k in c1.services ensures Current(c2, k, c1.services[k]) && (Least(c1, k) ==> Least(c2, k)) {
      SameIdentitiesKeepLeast(c1, c2, k);
    }
  }

  lemma ContinueKeepsLeastOnly(s: System, worker: nat, call: Call)
    requires LeastOnly(s) && Enabled(s, Continue(worker, call))
    ensures LeastOnly(Step(s, Continue(worker, call)))
  {
    var c, p := s.world.cluster, s.workers[worker];
    assert PhaseLeast(c, p);
    var progress := Resume(c, p, call);
    var after := progress.cluster;
    ResumeKeepsIdentities(c, p, call);
    ResumePhase(c, p, call);
    forall k | Applied(after, k) ensures AppliedByLeast(after, k) {
      ResumeAppliesLeast(c, p, call, k);
      if Lookup(after.deployments, k) == Lookup(c.deployments, k) {
        assert Applied(c, k);
        assert AppliedByLeast(c, k);
        assert forall claim :: MountsAt(after, k, claim) ==> MountsAt(c, k, claim);
      }
      SameIdentitiesKeepLeast(c, after, k);
      assert Current(after, k, c.services[k]);
    }
    forall n | n in s.workers ensures PhaseLeast(after, s.workers[n]) {
      PhaseLeastMoves(c, after, s.workers[n]);
    }
    if progress.next.Some? {
      PhaseLeastMoves(c, after, progress.next.value);
    }
  }

  lemma StepKeepsLeastOnly(s: System, a: Action)
    requires LeastOnly(s) && Enabled(s, a) && Upward(s, a)
    ensures LeastOnly(Step(s, a))
  {
    match a {
      case Environment(action) => EnvironmentKeepsLeastOnly(s, action);
      case Start(worker, key) =>
      case Continue(worker, call) => ContinueKeepsLeastOnly(s, worker, call);
      case Abandon(worker) =>
    }
  }

  lemma {:induction false} RunKeepsLeastOnly(s: System, actions: seq<Action>)
    requires LeastOnly(s) && Runs(s, actions, Upward)
    ensures LeastOnly(Exec(s, actions, Upward))
    decreases |actions|
  {
    if actions != [] {
      StepKeepsLeastOnly(s, actions[0]);
      RunKeepsLeastOnly(Step(s, actions[0]), actions[1..]);
    }
  }

  /** Any number of workers, interleaved in any way: with fixed claims and services that only come in above the
      others, only the least service of a claim ever gets a Deployment, so no two share a claim. */
  lemma ManyWorkersApplyOnlyLeast(s: System, actions: seq<Action>)
    requires s.workers == map[] && (forall k :: !Applied(s.world.cluster, k))
    requires Runs(s, actions, Upward)
    ensures var c := Exec(s, actions, Upward).world.cluster;
            && (forall k :: Applied(c, k) ==>
                  k in c.services && ControlledBy(c.deployments[k], c.services[k]) && Least(c, k))
            && Exclusive(c)
  {
    RunKeepsLeastOnly(s, actions);
    var c := Exec(s, actions, Upward).world.cluster;
    forall k | Applied(c, k) ensures AppliedByLeast(c, k) {}
    forall k1, k2, claim | Applied(c, k1) && Applied(c, k2) && k1.ns == k2.ns && MountsAt(c, k1, claim)
        && MountsAt(c, k2, claim)
      ensures k1 == k2
    {
      if k1 != k2 {
        LeastBeats(c, k1, k2);
      }
    }
  }
}
