/** Status tells the truth in the system of API calls too: with any number of workers on distinct services and
    reconciles abandoned anywhere, only an apply that never got to its status write goes unreported. */
module Mirroring {
  import opened Types
  import opened Conditions
  import opened Render
  import opened Guard
  import opened Reconcile
  import opened Frame
  import opened World
  import opened Protocol
  import opened Convergence

  /** The work queue hands a service to one worker at a time, and nobody but the operator and the garbage
      collector touches what the operator applied. */
  predicate Orderly(s: System, a: Action) {
    match a
    case Environment(action) => NoDrift(s.world.cluster, action)
    case Start(_, key) => forall n <- s.workers :: KeyOf(s.workers[n]) != key
    case _ => true
  }

  // ---------- what goes unreported ----------

  /** The worker has applied the Deployment and not yet written the status that reports it. */
  predicate Between(p: Phase) {
    p.PatchService? || (p.UpdateStatus? && Holds(p.status.conditions, Configured))
  }

  predicate Busy(s: System, key: Key) {
    exists n <- s.workers :: Between(s.workers[n]) && KeyOf(s.workers[n]) == key
  }

  /** The call ends the reconcile between the two writes: the Service apply is rejected, or the status update
      fails because the object has changed. */
  predicate Loses(c: Cluster, p: Phase) {
    || (p.PatchService? && ServiceTaken(c, p.job.key, p.job.isvc.uid))
    || (p.UpdateStatus? && Between(p) && Lookup(c.services, p.key) != Some(p.isvc))
  }

  predicate Applies(c: Cluster, p: Phase) {
    p.PatchDeployment? && !DeploymentTaken(c, p.job.key, p.job.isvc.uid)
  }

  /** The services whose latest apply ended without its status, after one more action. */
  ghost function Unreported(s: System, a: Action, before: set<Key>): set<Key>
    requires Enabled(s, a)
  {
    match a
    case Continue(worker, _) =>
      var p := s.workers[worker];
      if Applies(s.world.cluster, p) then before - {KeyOf(p)}
      else if Loses(s.world.cluster, p) then before + {KeyOf(p)}
      else before
    case Abandon(worker) =>
      var p := s.workers[worker];
      if Between(p) then before + {KeyOf(p)} else before
    case _ => before
  }

  ghost function UnreportedAfter(s: System, actions: seq<Action>, before: set<Key>): set<Key>
    requires Runs(s, actions, Orderly)
    decreases |actions|
  {
    if actions == [] then before
    else UnreportedAfter(Step(s, actions[0]), actions[1..], Unreported(s, actions[0], before))
  }

  // ---------- what ran last ----------

  /** What the job's success will report, conditions aside. */
  function Report(job: Job): Status {
    AppliedStatus(job.key, job.isvc, job.tenant, job.model, false, EPOCH)
  }

  /** The report of each service's latest apply, after one more action. */
  ghost function Ran(s: System, a: Action, before: map<Key, Status>): map<Key, Status>
    requires Enabled(s, a)
  {
    if a.Continue? && Applies(s.world.cluster, s.workers[a.worker])
    then before[KeyOf(s.workers[a.worker]) := Report(s.workers[a.worker].job)]
    else before
  }

  ghost function RanAfter(s: System, actions: seq<Action>, before: map<Key, Status>): map<Key, Status>
    requires Runs(s, actions, Orderly)
    decreases |actions|
  {
    if actions == [] then before
    else RanAfter(Step(s, actions[0]), actions[1..], Ran(s, actions[0], before))
  }

  /** Before the run: what each succeeded service reports. */
  function Reported(c: Cluster): map<Key, Status> {
    map k | k in c.services && HasSucceeded(c.services[k]) :: c.services[k].status
  }

  /** The same image, served name and initdata hash. */
  predicate Agree(one: Status, two: Status) {
    && one.resolvedImage == two.resolvedImage
    && one.servedModelName == two.servedModelName
    && one.appliedInitDataHash == two.appliedInitDataHash
  }

  // ---------- the invariant ----------

  predicate Deployed(c: Cluster, key: Key, uid: nat, status: Status) {
    && key in c.deployments
    && c.deployments[key].controller == Some(ByService(uid))
    && Shows(c.deployments[key], status)
  }

  predicate Served(c: Cluster, key: Key, uid: nat) {
    && ServiceKey(key) in c.kubeServices
    && c.kubeServices[ServiceKey(key)].controller == Some(ByService(uid))
  }

  predicate Stored(c: Cluster, key: Key, uid: nat) {
    key in c.services && c.services[key].uid == uid
  }

  function Substance(status: Status): Status {
    status.(conditions := [], observedGeneration := 0)
  }

  predicate PhaseMirrors(c: Cluster, p: Phase) {
    match p
    case PatchDeployment(job, template) =>
      RenderFor(job.key, job.isvc, job.tenant, job.model) == Success(template)
    case PatchService(job, _) =>
      Stored(c, job.key, job.isvc.uid) ==> Deployed(c, job.key, job.isvc.uid, Report(job))
    case UpdateStatus(key, isvc, status) =>
      if Between(p) then
        && status.endpoint == Some(EndpointURL(key))
        && (Stored(c, key, isvc.uid) ==> Deployed(c, key, isvc.uid, status) && Served(c, key, isvc.uid))
      else
        Substance(status) == Substance(isvc.status)
    case _ => true
  }

  predicate Truthful(isvc: InferenceService) {
    Holds(isvc.status.conditions, Configured) ==> HasSucceeded(isvc)
  }

  /** A worker between the writes reports what ran last, and a service that has succeeded is the one its worker read. */
  predicate WorkerOk(w: World, p: Phase, ran: map<Key, Status>) {
    && ReadBy(p).uid in w.issued
    && PhaseMirrors(w.cluster, p)
    && (p.PatchService? ==> p.job.key in ran && Agree(ran[p.job.key], Report(p.job)))
    && (p.UpdateStatus? && Between(p) ==> p.key in ran && Agree(ran[p.key], p.status))
    && (KeyOf(p) in w.cluster.services && HasSucceeded(w.cluster.services[KeyOf(p)]) ==>
          w.cluster.services[KeyOf(p)].uid == ReadBy(p).uid)
  }

  /** The objects of a service that has succeeded are its own and run what was applied last. */
  predicate RunsLast(c: Cluster, k: Key, ran: map<Key, Status>)
    requires k in c.services
  {
    var isvc := c.services[k];
    HasSucceeded(isvc) ==>
      && k in ran
      && Deployed(c, k, isvc.uid, ran[k])
      && Served(c, k, isvc.uid)
      && isvc.status.endpoint == Some(EndpointURL(k))
  }

  predicate ServiceOk(s: System, k: Key, ran: map<Key, Status>, lost: set<Key>)
    requires k in s.world.cluster.services
  {
    var isvc := s.world.cluster.services[k];
    && isvc.uid in s.world.issued
    && Truthful(isvc)
    && RunsLast(s.world.cluster, k, ran)
    && (HasSucceeded(isvc) && k !in lost && !Busy(s, k) ==> Agree(ran[k], isvc.status))
  }

  ghost predicate Inv(s: System, ran: map<Key, Status>, lost: set<Key>) {
    && (forall k <- s.world.cluster.services :: ServiceOk(s, k, ran, lost))
    && (forall n <- s.workers :: WorkerOk(s.world, s.workers[n], ran))
    && (forall m <- s.workers, n <- s.workers :: KeyOf(s.workers[m]) == KeyOf(s.workers[n]) ==> m == n)
  }

  /** Given what ran last, a succeeded service mirrors it exactly when its status agrees. */
  lemma MirrorsIffAgrees(c: Cluster, k: Key, ran: map<Key, Status>)
    requires k in c.services && HasSucceeded(c.services[k]) && RunsLast(c, k, ran)
    ensures Mirrors(c, k) <==> Agree(ran[k], c.services[k].status)
  {
    hide EndpointURL;
    var prefix := "--served-model-name=";
    var one, two := ran[k].servedModelName, c.services[k].status.servedModelName;
    assert (prefix + one)[|prefix|..] == one && (prefix + two)[|prefix|..] == two;
  }

  lemma AgreeingShows(c: Cluster, key: Key, uid: nat, one: Status, two: Status)
    requires Agree(one, two)
    ensures Deployed(c, key, uid, one) <==> Deployed(c, key, uid, two)
  {
  }

  // ---------- the environment ----------

  lemma EnvironmentKeepsObjects(w: World, a: EnvAction, key: Key, uid: nat, status: Status)
    requires Possible(w, a) && NoDrift(w.cluster, a) && uid in w.issued
    requires Stored(Act(w, a).cluster, key, uid)
    ensures Stored(w.cluster, key, uid) && Act(w, a).cluster.services[key].status == w.cluster.services[key].status
    ensures Deployed(w.cluster, key, uid, status) ==> Deployed(Act(w, a).cluster, key, uid, status)
    ensures Served(w.cluster, key, uid) ==> Served(Act(w, a).cluster, key, uid)
  {
    hide Shows;
    var c, after := w.cluster, Act(w, a).cluster;
    assert Stored(c, key, uid);
    assert Deployed(c, key, uid, status) ==>
      key in after.deployments && after.deployments[key].template == c.deployments[key].template;
    hide Possible, Act;
    ShowsTemplate(c, after, key, status);
  }

  lemma ShowsTemplate(c: Cluster, after: Cluster, key: Key, status: Status)
    ensures (&& key in c.deployments && key in after.deployments
             && after.deployments[key].template == c.deployments[key].template) ==>
              (Shows(c.deployments[key], status) <==> Shows(after.deployments[key], status))
  {
  }

  lemma OldOrNew(w: World, a: EnvAction, k: Key)
    requires Possible(w, a) && k in Act(w, a).cluster.services
    requires k in w.cluster.services ==> w.cluster.services[k].uid in w.issued
    ensures var isvc := Act(w, a).cluster.services[k];
            && isvc.uid in Act(w, a).issued
            && (isvc.status == EMPTY_STATUS
                || (Stored(w.cluster, k, isvc.uid) && isvc.status == w.cluster.services[k].status))
  {
  }

  lemma EnvironmentKeepsInv(s: System, a: EnvAction, ran: map<Key, Status>, lost: set<Key>)
    requires Inv(s, ran, lost) && Possible(s.world, a) && NoDrift(s.world.cluster, a)
    ensures Inv(s.(world := Act(s.world, a)), ran, lost)
  {
    var later := s.(world := Act(s.world, a));
    forall k | k in later.world.cluster.services ensures ServiceOk(later, k, ran, lost) {
      EnvironmentKeepsService(s, a, k, ran, lost);
    }
    forall n | n in s.workers ensures WorkerOk(later.world, s.workers[n], ran) {
      EnvironmentKeepsWorker(s.world, a, s.workers[n], ran);
    }
  }

  lemma EnvironmentKeepsService(s: System, a: EnvAction, k: Key, ran: map<Key, Status>, lost: set<Key>)
    requires Possible(s.world, a) && NoDrift(s.world.cluster, a) && k in Act(s.world, a).cluster.services
    requires k in s.world.cluster.services ==> ServiceOk(s, k, ran, lost)
    ensures ServiceOk(s.(world := Act(s.world, a)), k, ran, lost)
  {
    var w, after := s.world, Act(s.world, a);
    var isvc := after.cluster.services[k];
    OldOrNew(w, a, k);
    assert Busy(s.(world := after), k) <==> Busy(s, k);
    hide Deployed, Served, Act, Possible, NoDrift, Busy;
    if isvc.status != EMPTY_STATUS && HasSucceeded(isvc) {
      EnvironmentKeepsObjects(w, a, k, isvc.uid, ran[k]);
    }
  }

  lemma EnvironmentKeepsWorker(w: World, a: EnvAction, p: Phase, ran: map<Key, Status>)
    requires Possible(w, a) && NoDrift(w.cluster, a) && WorkerOk(w, p, ran)
    requires KeyOf(p) in w.cluster.services ==> w.cluster.services[KeyOf(p)].uid in w.issued
    ensures WorkerOk(Act(w, a), p, ran)
  {
    EnvironmentKeepsPhase(w, a, p);
    hide PhaseMirrors, NoDrift;
    if KeyOf(p) in Act(w, a).cluster.services {
      OldOrNew(w, a, KeyOf(p));
    }
  }

  lemma EnvironmentKeepsPhase(w: World, a: EnvAction, p: Phase)
    requires Possible(w, a) && NoDrift(w.cluster, a)
    requires ReadBy(p).uid in w.issued && PhaseMirrors(w.cluster, p)
    ensures ReadBy(p).uid in Act(w, a).issued && PhaseMirrors(Act(w, a).cluster, p)
  {
    hide Deployed, Served, AppliedStatus, RenderFor, NoDrift;
    var after := Act(w, a).cluster;
    if Stored(after, KeyOf(p), ReadBy(p).uid) {
      match p {
        case PatchService(job, _) => EnvironmentKeepsObjects(w, a, job.key, job.isvc.uid, Report(job));
        case UpdateStatus(key, isvc, status) => EnvironmentKeepsObjects(w, a, key, isvc.uid, status);
        case _ =>
      }
    }
  }

  // ---------- one call ----------

  lemma OtherObjectsStay(c: Cluster, after: Cluster, key: Key, k: Key, uid: nat, status: Status)
    requires OnlyTouches(c, after, key) && k != key
    ensures Stored(after, k, uid) <==> Stored(c, k, uid)
    ensures k in c.services ==> k in after.services && after.services[k] == c.services[k]
    ensures Deployed(after, k, uid, status) <==> Deployed(c, k, uid, status)
    ensures Served(after, k, uid) <==> Served(c, k, uid)
  {
    hide Shows;
    if ServiceKey(k) == ServiceKey(key) {
      ServiceKeyInjective(k, key);
    }
    assert Lookup(after.deployments, k) == Lookup(c.deployments, k);
    assert Lookup(after.kubeServices, ServiceKey(k)) == Lookup(c.kubeServices, ServiceKey(k));
  }

  lemma OtherPhaseStays(c: Cluster, after: Cluster, key: Key, p: Phase)
    requires OnlyTouches(c, after, key) && KeyOf(p) != key && PhaseMirrors(c, p)
    ensures PhaseMirrors(after, p)
  {
    hide OnlyTouches, Deployed, Served, Stored, AppliedStatus, RenderFor;
    match p {
      case PatchService(job, _) => OtherObjectsStay(c, after, key, job.key, job.isvc.uid, Report(job));
      case UpdateStatus(k, isvc, status) => OtherObjectsStay(c, after, key, k, isvc.uid, status);
      case _ =>
    }
  }

  /** A failing status reports nothing new. */
  lemma FailReports(key: Key, isvc: InferenceService, reason: Reason, message: Message, now: Clock)
    ensures var p := Fail(key, isvc, reason, message, now);
            !Between(p) && Substance(p.status) == Substance(isvc.status) && KeyOf(p) == key && ReadBy(p).uid == isvc.uid
  {
    FailedFind(isvc.status.conditions, isvc.generation, reason, message, now, Configured);
  }

  lemma AppliedReports(job: Job, available: bool, now: Clock)
    ensures var status := AppliedStatus(job.key, job.isvc, job.tenant, job.model, available, now);
            && Holds(status.conditions, Configured)
            && status.endpoint == Some(EndpointURL(job.key))
            && Substance(status) == Substance(Report(job))
  {
    AppliedFind(job.isvc.status.conditions, job.isvc.generation, available, now, Configured);
    hide AppliedConditions, EndpointURL;
  }

  lemma RenderedShows(c: Cluster, job: Job, template: PodTemplate)
    requires RenderFor(job.key, job.isvc, job.tenant, job.model) == Success(template)
    ensures Shows(RenderedDeployment(c, job.key, job.isvc.uid, template), Report(job))
  {
    hide AppliedConditions;
    var isvc := job.isvc;
    var source := job.model.source.value;
    var name := ServedModelName(isvc.spec.modelRef, job.model);
    assert template == Template(job.key.name, isvc.spec, isvc.spec.modelRef, source, job.model,
        TenantConfig(job.tenant), job.tenant.defaultImage);
    assert EngineArgs(isvc.spec.engine, source.repo, name)[1] == "--served-model-name=" + name;
  }

  lemma SameSubstanceShows(c: Cluster, key: Key, uid: nat, one: Status, two: Status)
    requires Substance(one) == Substance(two)
    ensures Deployed(c, key, uid, one) <==> Deployed(c, key, uid, two)
    ensures one.endpoint == two.endpoint
  {
    assert one.resolvedImage == Substance(one).resolvedImage && one.servedModelName == Substance(one).servedModelName;
    assert one.appliedInitDataHash == Substance(one).appliedInitDataHash && one.endpoint == Substance(one).endpoint;
    assert two.resolvedImage == Substance(two).resolvedImage && two.servedModelName == Substance(two).servedModelName;
    assert two.appliedInitDataHash == Substance(two).appliedInitDataHash && two.endpoint == Substance(two).endpoint;
  }

  /** Every call before the applies leaves the objects alone and leads to no report. */
  lemma EarlyCall(c: Cluster, p: Phase, call: Call)
    requires !p.PatchDeployment? && !p.PatchService? && !p.UpdateStatus?
    ensures var progress := Resume(c, p, call);
            && progress.cluster.services == c.services
            && progress.cluster.deployments == c.deployments
            && progress.cluster.kubeServices == c.kubeServices
            && progress.next.Some?
            && KeyOf(progress.next.value) == KeyOf(p) && ReadBy(progress.next.value).uid == ReadBy(p).uid
            && !Between(progress.next.value)
            && PhaseMirrors(progress.cluster, progress.next.value)
  {
    hide FailedStatus, AppliedStatus, FirstHolder, OwnChecks, RenderFor, Holds;
    forall key, isvc, reason, message, now {
      FailReports(key, isvc, reason, message, now);
    }
  }

  /** The three writes. */
  lemma LateCall(c: Cluster, p: Phase, call: Call)
    requires p.PatchDeployment? || p.PatchService? || p.UpdateStatus?
    requires PhaseMirrors(c, p)
    ensures var progress := Resume(c, p, call);
            && (progress.next.Some? ==>
                  && KeyOf(progress.next.value) == KeyOf(p) && ReadBy(progress.next.value).uid == ReadBy(p).uid
                  && Between(progress.next.value)
                  && PhaseMirrors(progress.cluster, progress.next.value))
            && (progress.next.None? && !p.UpdateStatus? ==> progress.cluster == c && (p.PatchService? ==> Loses(c, p)))
  {
    match p {
      case PatchDeployment(job, template) =>
        RenderedShows(c, job, template);
        hide Shows, RenderedDeployment, RenderFor, AppliedStatus;
      case PatchService(job, available) =>
        AppliedReports(job, available, call.now);
        var status := AppliedStatus(job.key, job.isvc, job.tenant, job.model, available, call.now);
        SameSubstanceShows(PutService(c, job.key, job.isvc.uid), job.key, job.isvc.uid, status, Report(job));
        hide Shows, AppliedStatus, EndpointURL, Holds;
      case UpdateStatus(_, _, _) =>
    }
  }

  // ---------- the steps ----------

  /** Whether a service is busy depends on the one worker that has it. */
  lemma BusyMeans(s: System, n: nat)
    requires n in s.workers
    requires forall m <- s.workers :: KeyOf(s.workers[m]) == KeyOf(s.workers[n]) ==> m == n
    ensures Busy(s, KeyOf(s.workers[n])) <==> Between(s.workers[n])
  {
    hide KeyOf, Between;
  }

  /** An apply or the Service after it: the service itself is as before, and the worker is between the writes or
      has stopped. */
  lemma ApplyKeepsRunning(c: Cluster, p: Phase, call: Call, ran: map<Key, Status>, w: World)
    requires w.cluster == c && WorkerOk(w, p, ran) && (p.PatchDeployment? || p.PatchService?)
    requires KeyOf(p) in c.services && RunsLast(c, KeyOf(p), ran)
    ensures var after := Resume(c, p, call).cluster;
            && after.services == c.services
            && RunsLast(after, KeyOf(p), if Applies(c, p) then ran[KeyOf(p) := Report(p.job)] else ran)
  {
    if p.PatchDeployment? {
      RenderedShows(c, p.job, p.template);
    }
    hide Shows, RenderedDeployment, RenderFor, AppliedStatus, EndpointURL, Report;
  }

  /** A status write that lands. */
  lemma StatusKeepsRunning(c: Cluster, p: Phase, call: Call, ran: map<Key, Status>, w: World)
    requires w.cluster == c && WorkerOk(w, p, ran) && p.UpdateStatus?
    requires p.key in c.services && RunsLast(c, p.key, ran) && Truthful(c.services[p.key])
    ensures var after := Resume(c, p, call).cluster;
            && p.key in after.services
            && after.services[p.key].uid == c.services[p.key].uid
            && Truthful(after.services[p.key])
            && RunsLast(after, p.key, ran)
            && (Between(p) && !Loses(c, p) ==> Agree(ran[p.key], after.services[p.key].status))
            && (!Between(p) ==> Substance(after.services[p.key].status) == Substance(c.services[p.key].status))
  {
    if Between(p) && !Loses(c, p) {
      AgreeingShows(c, p.key, p.isvc.uid, ran[p.key], p.status);
    }
    hide Shows, EndpointURL;
  }

  lemma SameSubstanceAgrees(ran: Status, one: Status, two: Status)
    requires Substance(one) == Substance(two)
    ensures Agree(ran, one) <==> Agree(ran, two)
    ensures one.endpoint == two.endpoint
  {
    assert one.resolvedImage == Substance(one).resolvedImage && one.servedModelName == Substance(one).servedModelName;
    assert two.resolvedImage == Substance(two).resolvedImage && two.servedModelName == Substance(two).servedModelName;
    assert one.appliedInitDataHash == Substance(one).appliedInitDataHash;
    assert two.appliedInitDataHash == Substance(two).appliedInitDataHash;
    assert one.endpoint == Substance(one).endpoint && two.endpoint == Substance(two).endpoint;
  }

  lemma OwnServiceAfterStatus(s: System, worker: nat, call: Call, ran: map<Key, Status>, lost: set<Key>)
    requires Inv(s, ran, lost) && Enabled(s, Continue(worker, call))
    requires s.workers[worker].UpdateStatus?
    requires KeyOf(s.workers[worker]) in s.world.cluster.services
    requires KeyOf(s.workers[worker]) in Step(s, Continue(worker, call)).world.cluster.services
    ensures ServiceOk(Step(s, Continue(worker, call)), KeyOf(s.workers[worker]),
                      Ran(s, Continue(worker, call), ran), Unreported(s, Continue(worker, call), lost))
  {
    var c, p := s.world.cluster, s.workers[worker];
    var k := KeyOf(p);
    assert ServiceOk(s, k, ran, lost) && WorkerOk(s.world, p, ran);
    BusyMeans(s, worker);
    StatusKeepsRunning(c, p, call, ran, s.world);
    var before, after := c.services[k], Step(s, Continue(worker, call)).world.cluster.services[k];
    hide PhaseMirrors, RunsLast, Resume, Busy, Truthful;
    if !Between(p) {
      SameSubstanceAgrees(if k in ran then ran[k] else before.status, after.status, before.status);
    }
  }

  lemma OwnServiceAfterApply(s: System, worker: nat, call: Call, ran: map<Key, Status>, lost: set<Key>)
    requires Inv(s, ran, lost) && Enabled(s, Continue(worker, call))
    requires s.workers[worker].PatchDeployment? || s.workers[worker].PatchService?
    requires KeyOf(s.workers[worker]) in s.world.cluster.services
    requires KeyOf(s.workers[worker]) in Step(s, Continue(worker, call)).world.cluster.services
    ensures ServiceOk(Step(s, Continue(worker, call)), KeyOf(s.workers[worker]),
                      Ran(s, Continue(worker, call), ran), Unreported(s, Continue(worker, call), lost))
  {
    var c, p := s.world.cluster, s.workers[worker];
    var k := KeyOf(p);
    assert ServiceOk(s, k, ran, lost) && WorkerOk(s.world, p, ran);
    ApplyKeepsRunning(c, p, call, ran, s.world);
    LateCall(c, p, call);
    hide PhaseMirrors, RunsLast, WorkerOk, Truthful, Agree;
    var after := Step(s, Continue(worker, call));
    if Resume(c, p, call).next.Some? {
      hide Resume;
      assert worker in after.workers && Between(after.workers[worker]);
      assert Busy(after, k);
    } else if p.PatchDeployment? {
      BusyMeans(s, worker);
      assert !Applies(c, p) && after.world == s.world;
      hide Resume;
      NotBusyAfter(s, worker, after);
    }
  }

  lemma OwnServiceAfterRead(s: System, worker: nat, call: Call, ran: map<Key, Status>, lost: set<Key>)
    requires Inv(s, ran, lost) && Enabled(s, Continue(worker, call))
    requires var p := s.workers[worker]; !p.PatchDeployment? && !p.PatchService? && !p.UpdateStatus?
    requires KeyOf(s.workers[worker]) in s.world.cluster.services
    requires KeyOf(s.workers[worker]) in Step(s, Continue(worker, call)).world.cluster.services
    ensures ServiceOk(Step(s, Continue(worker, call)), KeyOf(s.workers[worker]),
                      Ran(s, Continue(worker, call), ran), Unreported(s, Continue(worker, call), lost))
  {
    var c, p := s.world.cluster, s.workers[worker];
    var k := KeyOf(p);
    assert ServiceOk(s, k, ran, lost) && WorkerOk(s.world, p, ran);
    BusyMeans(s, worker);
    EarlyCall(c, p, call);
    hide PhaseMirrors, Resume, Shows, EndpointURL, Agree, Truthful, WorkerOk;
  }

  lemma NotBusyAfter(s: System, worker: nat, after: System)
    requires worker in s.workers && after.workers == s.workers - {worker}
    ensures Busy(after, KeyOf(s.workers[worker])) ==> Busy(s, KeyOf(s.workers[worker]))
  {
  }

  lemma OwnServiceStays(s: System, worker: nat, call: Call, ran: map<Key, Status>, lost: set<Key>)
    requires Inv(s, ran, lost) && Enabled(s, Continue(worker, call))
    requires KeyOf(s.workers[worker]) in Step(s, Continue(worker, call)).world.cluster.services
    ensures ServiceOk(Step(s, Continue(worker, call)), KeyOf(s.workers[worker]),
                      Ran(s, Continue(worker, call), ran), Unreported(s, Continue(worker, call), lost))
  {
    var p := s.workers[worker];
    ResumeTouchesOnly(s.world.cluster, p, call);
    assert KeyOf(p) in s.world.cluster.services;
    hide OnlyTouches, ServiceOk, Inv, Ran, Unreported, Resume;
    if p.UpdateStatus? {
      OwnServiceAfterStatus(s, worker, call, ran, lost);
    } else if p.PatchDeployment? || p.PatchService? {
      OwnServiceAfterApply(s, worker, call, ran, lost);
    } else {
      OwnServiceAfterRead(s, worker, call, ran, lost);
    }
  }

  lemma OtherServiceStays(s: System, worker: nat, call: Call, ran: map<Key, Status>, lost: set<Key>, k: Key)
    requires Inv(s, ran, lost) && Enabled(s, Continue(worker, call)) && k != KeyOf(s.workers[worker])
    requires k in Step(s, Continue(worker, call)).world.cluster.services
    ensures ServiceOk(Step(s, Continue(worker, call)), k,
                      Ran(s, Continue(worker, call), ran), Unreported(s, Continue(worker, call), lost))
  {
    var c, p := s.world.cluster, s.workers[worker];
    var after := Step(s, Continue(worker, call));
    OtherTracks(s, worker, call, ran, lost, k);
    OtherWorkers(s, worker, call, after);
    hide Resume, Deployed, Served, PhaseMirrors, Report, OnlyTouches, Truthful, Agree, WorkerOk, Ran, Unreported,
        EndpointURL;
    ResumeTouchesOnly(c, p, call);
    StaysStored(c, after.world.cluster, KeyOf(p), k);
    assert ServiceOk(s, k, ran, lost);
    OtherObjectsStay(c, after.world.cluster, KeyOf(p), k, c.services[k].uid, if k in ran then ran[k] else EMPTY_STATUS);
    OtherBusyStays(s, worker, after, k);
    hide Busy;
  }

  lemma OtherTracks(s: System, worker: nat, call: Call, ran: map<Key, Status>, lost: set<Key>, k: Key)
    requires Enabled(s, Continue(worker, call)) && k != KeyOf(s.workers[worker])
    ensures var a := Continue(worker, call);
            && (k in Ran(s, a, ran) <==> k in ran)
            && (k in ran ==> Ran(s, a, ran)[k] == ran[k])
            && (k in Unreported(s, a, lost) <==> k in lost)
  {
    hide Applies, Loses, Report;
  }

  lemma OtherWorkers(s: System, worker: nat, call: Call, after: System)
    requires Enabled(s, Continue(worker, call)) && after == Step(s, Continue(worker, call))
    ensures after.world.issued == s.world.issued
    ensures forall n <- after.workers :: n != worker ==> n in s.workers && after.workers[n] == s.workers[n]
    ensures forall n <- s.workers :: n != worker ==> n in after.workers
  {
    hide Resume;
  }

  lemma StaysStored(c: Cluster, after: Cluster, key: Key, k: Key)
    requires OnlyTouches(c, after, key)
    ensures k in after.services <==> k in c.services
  {
  }

  lemma OtherBusyStays(s: System, worker: nat, after: System, k: Key)
    requires worker in s.workers && KeyOf(s.workers[worker]) != k
    requires forall n <- s.workers :: n != worker ==> n in after.workers && after.workers[n] == s.workers[n]
    ensures Busy(s, k) ==> Busy(after, k)
  {
    if Busy(s, k) {
      var n :| n in s.workers && Between(s.workers[n]) && KeyOf(s.workers[n]) == k;
      assert n in after.workers && after.workers[n] == s.workers[n];
    }
  }

  lemma OwnWorkerStays(s: System, worker: nat, call: Call, ran: map<Key, Status>, lost: set<Key>)
    requires Inv(s, ran, lost) && Enabled(s, Continue(worker, call))
    requires worker in Step(s, Continue(worker, call)).workers
    ensures var after := Step(s, Continue(worker, call));
            && KeyOf(after.workers[worker]) == KeyOf(s.workers[worker])
            && WorkerOk(after.world, after.workers[worker], Ran(s, Continue(worker, call), ran))
  {
    var c, p := s.world.cluster, s.workers[worker];
    assert WorkerOk(s.world, p, ran);
    hide ServiceOk, Inv, Shows;
    if p.PatchDeployment? || p.PatchService? || p.UpdateStatus? {
      LateCall(c, p, call);
      LateWorkerStays(s.world, p, call, ran);
      hide WorkerOk, PhaseMirrors, KeyOf, ReadBy, Report, DeploymentTaken, PutDeployment, PutService, PutStatus;
    } else {
      EarlyCall(c, p, call);
      hide PhaseMirrors, Resume;
    }
  }

  lemma LateWorkerStays(w: World, p: Phase, call: Call, ran: map<Key, Status>)
    requires WorkerOk(w, p, ran) && (p.PatchDeployment? || p.PatchService? || p.UpdateStatus?)
    requires Resume(w.cluster, p, call).next.Some?
    ensures p.PatchDeployment? <==> Applies(w.cluster, p)
    ensures var progress := Resume(w.cluster, p, call);
            var ranNow := if Applies(w.cluster, p) then ran[KeyOf(p) := Report(p.job)] else ran;
            && KeyOf(progress.next.value) == KeyOf(p)
            && WorkerOk(w.(cluster := progress.cluster), progress.next.value, ranNow)
  {
    LateCall(w.cluster, p, call);
    hide PhaseMirrors, RenderFor, RenderedDeployment, Report, AppliedStatus, Holds;
    if p.PatchService? {
      var status := AppliedStatus(p.job.key, p.job.isvc, p.job.tenant, p.job.model, p.available, call.now);
      AppliedReports(p.job, p.available, call.now);
      SameSubstanceAgrees(ran[p.job.key], status, Report(p.job));
    }
  }

  lemma OtherWorkerStays(s: System, worker: nat, call: Call, ran: map<Key, Status>, lost: set<Key>, n: nat)
    requires Inv(s, ran, lost) && Enabled(s, Continue(worker, call)) && n != worker
    requires n in Step(s, Continue(worker, call)).workers
    ensures var after := Step(s, Continue(worker, call));
            && n in s.workers && after.workers[n] == s.workers[n]
            && WorkerOk(after.world, after.workers[n], Ran(s, Continue(worker, call), ran))
  {
    var c, p := s.world.cluster, s.workers[worker];
    var after := Step(s, Continue(worker, call));
    OtherWorkers(s, worker, call, after);
    var other := s.workers[n];
    assert WorkerOk(s.world, other, ran) && KeyOf(other) != KeyOf(p);
    OtherTracks(s, worker, call, ran, lost, KeyOf(other));
    hide Resume, Deployed, Served, Report, OnlyTouches, Shows, Ran, Unreported, ServiceOk, Between, Agree;
    ResumeTouchesOnly(c, p, call);
    OtherPhaseStays(c, after.world.cluster, KeyOf(p), other);
    OtherObjectsStay(c, after.world.cluster, KeyOf(p), KeyOf(other), ReadBy(other).uid, EMPTY_STATUS);
    StaysStored(c, after.world.cluster, KeyOf(p), KeyOf(other));
    hide PhaseMirrors;
  }

  lemma ContinueKeepsInv(s: System, worker: nat, call: Call, ran: map<Key, Status>, lost: set<Key>)
    requires Inv(s, ran, lost) && Enabled(s, Continue(worker, call))
    ensures var a := Continue(worker, call);
            Inv(Step(s, a), Ran(s, a, ran), Unreported(s, a, lost))
  {
    var after := Step(s, Continue(worker, call));
    var ranNow, lostNow := Ran(s, Continue(worker, call), ran), Unreported(s, Continue(worker, call), lost);
    forall k | k in after.world.cluster.services ensures ServiceOk(after, k, ranNow, lostNow) {
      if k == KeyOf(s.workers[worker]) {
        OwnServiceStays(s, worker, call, ran, lost);
      } else {
        OtherServiceStays(s, worker, call, ran, lost, k);
      }
    }
    forall n | n in after.workers
      ensures n in s.workers && KeyOf(after.workers[n]) == KeyOf(s.workers[n])
      ensures WorkerOk(after.world, after.workers[n], ranNow)
    {
      if n == worker {
        OwnWorkerStays(s, worker, call, ran, lost);
      } else {
        OtherWorkerStays(s, worker, call, ran, lost, n);
      }
    }
    hide Step, Ran, Unreported, ServiceOk, WorkerOk, KeyOf;
  }

  lemma StartKeepsInv(s: System, worker: nat, key: Key, ran: map<Key, Status>, lost: set<Key>)
    requires Inv(s, ran, lost) && worker !in s.workers && Orderly(s, Start(worker, key))
    ensures Inv(Step(s, Start(worker, key)), ran, lost)
  {
    var after := Step(s, Start(worker, key));
    forall k ensures Busy(after, k) <==> Busy(s, k) {
      if n :| n in s.workers && Between(s.workers[n]) && KeyOf(s.workers[n]) == k {
        assert n in after.workers && after.workers[n] == s.workers[n];
      }
    }
    hide Busy, RunsLast;
    forall k | k in s.world.cluster.services ensures ServiceOk(after, k, ran, lost) {
      assert ServiceOk(s, k, ran, lost);
    }
  }

  lemma AbandonKeepsInv(s: System, worker: nat, ran: map<Key, Status>, lost: set<Key>)
    requires Inv(s, ran, lost) && worker in s.workers
    ensures Inv(Step(s, Abandon(worker)), ran, Unreported(s, Abandon(worker), lost))
  {
    var after := Step(s, Abandon(worker));
    forall k | Busy(s, k) ensures Busy(after, k) || (Between(s.workers[worker]) && KeyOf(s.workers[worker]) == k) {
      var n :| n in s.workers && Between(s.workers[n]) && KeyOf(s.workers[n]) == k;
      if n != worker {
        assert n in after.workers && after.workers[n] == s.workers[n];
      }
    }
    hide Busy, RunsLast, WorkerOk;
    forall k | k in s.world.cluster.services ensures ServiceOk(after, k, ran, Unreported(s, Abandon(worker), lost)) {
      assert ServiceOk(s, k, ran, lost);
    }
  }

  lemma StepKeepsInv(s: System, a: Action, ran: map<Key, Status>, lost: set<Key>)
    requires Inv(s, ran, lost) && Enabled(s, a) && Orderly(s, a)
    ensures Inv(Step(s, a), Ran(s, a, ran), Unreported(s, a, lost))
  {
    hide Inv;
    match a {
      case Environment(action) => EnvironmentKeepsInv(s, action, ran, lost);
      case Start(worker, key) => StartKeepsInv(s, worker, key, ran, lost);
      case Continue(worker, call) => ContinueKeepsInv(s, worker, call, ran, lost);
      case Abandon(worker) => AbandonKeepsInv(s, worker, ran, lost);
    }
  }

  lemma {:induction false} RunKeepsInv(s: System, actions: seq<Action>, ran: map<Key, Status>, lost: set<Key>)
    requires Inv(s, ran, lost) && Runs(s, actions, Orderly)
    ensures Inv(Exec(s, actions, Orderly), RanAfter(s, actions, ran), UnreportedAfter(s, actions, lost))
    decreases |actions|
  {
    hide Inv;
    if actions != [] {
      StepKeepsInv(s, actions[0], ran, lost);
      RunKeepsInv(Step(s, actions[0]), actions[1..], Ran(s, actions[0], ran), Unreported(s, actions[0], lost));
    }
  }

  // ---------- the main results ----------

  /** Nobody at work, and every status true. */
  ghost predicate Begins(s: System) {
    && s.workers == map[]
    && Mirrored(s.world.cluster)
    && forall k <- s.world.cluster.services :: s.world.cluster.services[k].uid in s.world.issued
  }

  lemma BeginsInv(s: System)
    requires Begins(s)
    ensures Inv(s, Reported(s.world.cluster), {})
  {
    hide Shows, EndpointURL;
  }

  /** In every state of every orderly run, between any two API calls: a service that ever succeeded controls its
      objects, and its status shows what its Deployment runs exactly when the latest apply was of the image, served
      name and initdata hash that the status shows, whoever is at work and whatever was cut off. */
  lemma StatusIsTrueExactly(s: System, actions: seq<Action>, key: Key)
    requires Begins(s) && Runs(s, actions, Orderly)
    requires key in Exec(s, actions, Orderly).world.cluster.services
    requires HasSucceeded(Exec(s, actions, Orderly).world.cluster.services[key])
    ensures var end := Exec(s, actions, Orderly).world.cluster;
            var ran := RanAfter(s, actions, Reported(s.world.cluster));
            && key in ran
            && Deployed(end, key, end.services[key].uid, ran[key])
            && Served(end, key, end.services[key].uid)
            && (Mirrors(end, key) <==> Agree(ran[key], end.services[key].status))
  {
    var ran := Reported(s.world.cluster);
    BeginsInv(s);
    RunKeepsInv(s, actions, ran, {});
    var end := Exec(s, actions, Orderly);
    assert ServiceOk(end, key, RanAfter(s, actions, ran), UnreportedAfter(s, actions, {}));
    MirrorsIffAgrees(end.world.cluster, key, RanAfter(s, actions, ran));
  }

  /** So the status is true unless a worker is just now between the apply and the status, or the latest apply was
      cut off there. The next apply that gets through to the status clears that. */
  lemma StatusReportsWhatRuns(s: System, actions: seq<Action>, key: Key)
    requires Begins(s) && Runs(s, actions, Orderly)
    requires key in Exec(s, actions, Orderly).world.cluster.services
    ensures var end := Exec(s, actions, Orderly);
            HasSucceeded(end.world.cluster.services[key]) && key !in UnreportedAfter(s, actions, {}) && !Busy(end, key)
            ==> Mirrors(end.world.cluster, key)
  {
    var ran := Reported(s.world.cluster);
    var end := Exec(s, actions, Orderly);
    BeginsInv(s);
    RunKeepsInv(s, actions, ran, {});
    assert ServiceOk(end, key, RanAfter(s, actions, ran), UnreportedAfter(s, actions, {}));
    if HasSucceeded(end.world.cluster.services[key]) {
      StatusIsTrueExactly(s, actions, key);
    }
  }
}
