/** While somebody else's Deployment mounts its claim a service is not reported Configured, over whole runs. */
module Waiting {
  import opened Types
  import opened Conditions
  import opened Guard
  import opened Reconcile
  import opened World
  import opened Protocol

  /** A worker that has got past the list of Deployments and not failed since. */
  predicate Past(p: Phase) {
    match p
    case ListPods(_) => true
    case PatchConfigMap(_) => true
    case PatchDeployment(_, _) => true
    case PatchService(_, _) => true
    case UpdateStatus(_, _, status) => Holds(status.conditions, Configured)
    case _ => false
  }

  /** Some Deployment that is not the service's own mounts the claim that the service asks for. */
  predicate MountedByOther(c: Cluster, key: Key) {
    key in c.services ==> exists left <- c.deployments :: HoldsClaim(OtherDeployment, c, key, c.services[key], left)
  }

  function WhileMounted(key: Key): (System, Action) -> bool {
    (s: System, a: Action) => MountedByOther(s.world.cluster, key)
  }

  /** What was read of an object is never newer than what is stored, and the generation tells specs apart. */
  predicate Snapshot(w: World, key: Key, isvc: InferenceService) {
    && isvc.uid in w.issued
    && (key in w.cluster.services && w.cluster.services[key].uid == isvc.uid ==>
          var stored := w.cluster.services[key];
          isvc.generation <= stored.generation && (isvc.generation == stored.generation ==> isvc.spec == stored.spec))
  }

  /** The object has been edited, or replaced, since it was read. */
  predicate Outdated(c: Cluster, key: Key, isvc: InferenceService) {
    key in c.services && c.services[key].uid == isvc.uid ==> isvc.generation < c.services[key].generation
  }

  predicate WorkerWaits(w: World, key: Key, p: Phase) {
    KeyOf(p) == key ==> Snapshot(w, key, ReadBy(p)) && (Past(p) ==> Outdated(w.cluster, key, ReadBy(p)))
  }

  predicate ServiceWaits(w: World, key: Key) {
    key in w.cluster.services ==>
      w.cluster.services[key].uid in w.issued && !Holds(w.cluster.services[key].status.conditions, Configured)
  }

  ghost predicate Inv(s: System, key: Key) {
    && ServiceWaits(s.world, key)
    && forall n <- s.workers :: WorkerWaits(s.world, key, s.workers[n])
  }

  lemma EnvironmentKeepsInv(s: System, a: EnvAction, key: Key)
    requires Inv(s, key) && Possible(s.world, a)
    ensures Inv(s.(world := Act(s.world, a)), key)
  {
    forall n | n in s.workers ensures WorkerWaits(Act(s.world, a), key, s.workers[n]) {
      assert WorkerWaits(s.world, key, s.workers[n]);
    }
  }

  /** The list of Deployments lets only an outdated reconcile pass. */
  lemma PassingIsOutdated(w: World, job: Job, order: seq<Key>)
    requires MountedByOther(w.cluster, job.key) && Snapshot(w, job.key, job.isvc)
    requires Enumerates(order, w.cluster.deployments.Keys, job.key.ns)
    requires FirstHolder(OtherDeployment, w.cluster, job.key, job.isvc, order).None?
    ensures Outdated(w.cluster, job.key, job.isvc)
  {
    var c := w.cluster;
    FirstHolderExact(OtherDeployment, c, job.key, job.isvc, order);
    if job.key in c.services {
      var left :| left in c.deployments && HoldsClaim(OtherDeployment, c, job.key, c.services[job.key], left);
      assert left in order;
      assert !HoldsClaim(OtherDeployment, c, job.key, job.isvc, left);
    }
  }

  lemma FailIsNotPast(key: Key, isvc: InferenceService, reason: Reason, message: Message, now: Clock)
    ensures var p := Fail(key, isvc, reason, message, now);
            KeyOf(p) == key && ReadBy(p) == isvc && !Past(p)
  {
    FailedFind(isvc.status.conditions, isvc.generation, reason, message, now, Configured);
  }

  lemma NextWaits(w: World, p: Phase, call: Call, key: Key)
    requires MountedByOther(w.cluster, key) && WorkerWaits(w, key, p) && FaithfulRead(w.cluster, p, call.order)
    ensures var next := Resume(w.cluster, p, call).next;
            next.Some? ==> KeyOf(next.value) == KeyOf(p) && WorkerWaits(w, key, next.value)
  {
    hide FailedStatus, AppliedStatus, FirstHolder, OwnChecks, RenderFor, Holds;
    forall k, isvc, reason, message, now {
      FailIsNotPast(k, isvc, reason, message, now);
    }
    if p.ListDeployments? && p.job.key == key {
      if FirstHolder(OtherDeployment, w.cluster, key, p.job.isvc, call.order.deployments).None? {
        PassingIsOutdated(w, p.job, call.order.deployments);
      }
    }
  }

  /** Calls change no spec and no generation, and report Configured only on an object that is as it was read. */
  lemma ResumeKeepsService(w: World, p: Phase, call: Call, key: Key)
    requires WorkerWaits(w, key, p) && ServiceWaits(w, key)
    ensures var after := Resume(w.cluster, p, call).cluster;
            && ServiceWaits(w.(cluster := after), key)
            && (key in after.services <==> key in w.cluster.services)
            && (key in after.services ==>
                  after.services[key].(status := EMPTY_STATUS) == w.cluster.services[key].(status := EMPTY_STATUS))
  {
    hide FailedStatus, AppliedStatus, FirstHolder, OwnChecks, RenderJob, Scan, Holds, RenderedDeployment;
  }

  lemma ContinueKeepsInv(s: System, worker: nat, call: Call, key: Key)
    requires Inv(s, key) && Enabled(s, Continue(worker, call)) && MountedByOther(s.world.cluster, key)
    ensures Inv(Step(s, Continue(worker, call)), key)
  {
    var w, p := s.world, s.workers[worker];
    var after := Step(s, Continue(worker, call));
    assert WorkerWaits(w, key, p);
    ResumeKeepsService(w, p, call, key);
    NextWaits(w, p, call, key);
    hide Resume, Past, Holds;
    forall n | n in after.workers ensures WorkerWaits(after.world, key, after.workers[n]) {
      assert n != worker ==> WorkerWaits(w, key, s.workers[n]);
      if key in w.cluster.services {
        SameButStatusFields(w.cluster.services[key], after.world.cluster.services[key]);
      }
    }
  }

  lemma SameButStatusFields(one: InferenceService, two: InferenceService)
    requires one.(status := EMPTY_STATUS) == two.(status := EMPTY_STATUS)
    ensures one.uid == two.uid && one.generation == two.generation && one.spec == two.spec
  {
    assert one.uid == one.(status := EMPTY_STATUS).uid && two.uid == two.(status := EMPTY_STATUS).uid;
    assert one.spec == one.(status := EMPTY_STATUS).spec && two.spec == two.(status := EMPTY_STATUS).spec;
    assert one.generation == one.(status := EMPTY_STATUS).generation
        && two.generation == two.(status := EMPTY_STATUS).generation;
  }

  lemma StepKeepsInv(s: System, a: Action, key: Key)
    requires Inv(s, key) && Enabled(s, a) && MountedByOther(s.world.cluster, key)
    ensures Inv(Step(s, a), key)
  {
    match a {
      case Environment(action) => EnvironmentKeepsInv(s, action, key);
      case Start(worker, k) =>
      case Continue(worker, call) => ContinueKeepsInv(s, worker, call, key);
      case Abandon(worker) =>
    }
  }

  /** Over every run, with any number of workers and any environment: as long as some Deployment that is not its own
      mounts the claim a service asks for, whichever that is at the time, the service does not come to be reported
      Configured, although a reconcile that read an older claim may still be applying. */
  lemma {:induction false} WaitsWhileMounted(s: System, actions: seq<Action>, key: Key)
    requires ServiceWaits(s.world, key)
    requires forall n <- s.workers :: WorkerWaits(s.world, key, s.workers[n])
    requires Runs(s, actions, WhileMounted(key))
    ensures var c := Exec(s, actions, WhileMounted(key)).world.cluster;
            key in c.services ==> !Holds(c.services[key].status.conditions, Configured)
    decreases |actions|
  {
    if actions != [] {
      StepKeepsInv(s, actions[0], key);
      WaitsWhileMounted(Step(s, actions[0]), actions[1..], key);
    }
  }
}
