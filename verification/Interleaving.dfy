/** Reconciles cut at their API calls and interleaved in any way reach the state that whole ones reach. */
module Interleaving {
  import opened Types
  import opened Conditions
  import opened Render
  import opened Guard
  import opened Reconcile
  import opened Frame
  import opened Isolation
  import opened Claims
  import opened Protocol
  import opened Confluence
  import opened Overlay

  /** The environment is quiet, no reconcile is cut off, and the queue hands a service to one worker at a time. */
  predicate Quietly(s: System, a: Action) {
    match a
    case Environment(_) => false
    case Abandon(_) => false
    case Start(_, key) => forall n <- s.workers :: KeyOf(s.workers[n]) != key
    case Continue(_, _) => true
  }

  /** The services that have been reconciled to the end, after one more action. */
  ghost function Finished(s: System, a: Action, before: set<Key>): set<Key>
    requires Enabled(s, a)
  {
    if a.Continue? && Resume(s.world.cluster, s.workers[a.worker], a.call).next.None?
    then before + {KeyOf(s.workers[a.worker])}
    else before
  }

  ghost function FinishedAfter(s: System, actions: seq<Action>, before: set<Key>): set<Key>
    requires Runs(s, actions, Quietly)
    decreases |actions|
  {
    if actions == [] then before
    else FinishedAfter(Step(s, actions[0]), actions[1..], Finished(s, actions[0], before))
  }

  // ---------- the state ----------

  ghost predicate Based(v0: Cluster, ns: string, done: set<Key>, base: Cluster) {
    && Fresh(v0) && UidsDistinct(v0) && (forall k <- v0.services :: k.ns == ns)
    && done <= v0.services.Keys && Written(v0, done, base)
    && base == View(base, ns)
  }

  ghost function PlanOf(v0: Cluster): Plan {
    map k | k in v0.services :: Settling(v0, k)
  }

  lemma PlanAt(v0: Cluster, k: Key)
    requires k in v0.services
    ensures k in PlanOf(v0) && PlanOf(v0)[k] == Settling(v0, k)
  {
    hide Settling;
  }

  predicate HasMapped(p: Phase) {
    p.PatchDeployment? || p.PatchService? || p.UpdateStatus?
  }

  predicate HasApplied(p: Phase) {
    p.PatchService? || p.UpdateStatus?
  }

  predicate HasServed(p: Phase) {
    p.UpdateStatus?
  }

  function MadeBy(workers: map<nat, Phase>): Made {
    Made(KeysWith(workers, HasApplied), KeysWith(workers, HasServed), KeysWith(workers, HasMapped))
  }

  function KeysWith(workers: map<nat, Phase>, has: Phase -> bool): set<Key> {
    set n <- workers | has(workers[n]) :: KeyOf(workers[n])
  }

  function Marked(keys: set<Key>, key: Key, mark: bool): set<Key> {
    if mark then keys + {key} else keys - {key}
  }

  /** The writes with the service's own as its worker's phase has them. */
  function MadeWith(made: Made, key: Key, p: Phase): Made {
    Made(Marked(made.deployments, key, HasApplied(p)), Marked(made.services, key, HasServed(p)),
         Marked(made.configMaps, key, HasMapped(p)))
  }

  /** What the checks and the guard have told the job so far is what they say in v0. */
  ghost predicate Checked(v0: Cluster, job: Job) {
    job.key in v0.services && Checks(v0, job.key, v0.services[job.key]) == Go(job.tenant, job.model)
  }

  ghost predicate Cleared(v0: Cluster, job: Job) {
    Checked(v0, job) && Least(v0, job.key)
  }

  ghost predicate PhaseKnows(v0: Cluster, p: Phase) {
    match p
    case GetTenant(_, _) => true
    case GetModel(_, _, tenant) => v0.tenant == Some(tenant)
    case ListSiblings(job) => Checked(v0, job)
    case ListDeployments(job) => Cleared(v0, job)
    case ListPods(job) => Cleared(v0, job)
    case PatchConfigMap(job) => Cleared(v0, job) && job.isvc.spec.storage.weightsCache.Some?
    case PatchDeployment(job, template) =>
      Cleared(v0, job) && RenderFor(job.key, job.isvc, job.tenant, job.model) == Success(template)
    case PatchService(job, available) =>
      Cleared(v0, job) && RenderFor(job.key, job.isvc, job.tenant, job.model).Success? && !available
    case UpdateStatus(key, isvc, status) =>
      key in v0.services && Settling(v0, key).isvc == Some(EraseService(isvc.(status := status)))
  }

  ghost predicate Knows(v0: Cluster, c: Cluster, p: Phase) {
    && KeyOf(p) in v0.services && KeyOf(p) in c.services && c.services[KeyOf(p)] == ReadBy(p)
    && PhaseKnows(v0, p)
  }

  // ---------- what a worker sees ----------

  /** The object a worker read is the one in v0 but for its status, and in the base up to text and times. */
  lemma ReadIsOld(v0: Cluster, ns: string, done: set<Key>, base: Cluster, c: Cluster, made: Made, k: Key)
    requires Based(v0, ns, done, base) && Overlays(PlanOf(v0), base, c, ns, made) && k.ns == ns
    ensures k in c.services <==> k in v0.services
    ensures k in c.services ==>
              && k in base.services && base.services[k] == EraseService(c.services[k])
              && v0.services[k].(status := c.services[k].status) == c.services[k]
  {
    hide PlanOf, DeploymentsOverlay, KubeServicesOverlay, ConfigMapsOverlay;
    WrittenKeepsServices(v0, done, base);
    assert ErasedAt(c.services, k) == Lookup(base.services, k);
    hide Written;
    if k in c.services {
      assert base.services[k] == v0.services[k].(status := base.services[k].status);
      assert EraseService(c.services[k]).(status := c.services[k].status) == c.services[k];
    }
  }

  lemma SameChecks(v0: Cluster, ns: string, done: set<Key>, base: Cluster, c: Cluster, made: Made, k: Key)
    requires Based(v0, ns, done, base) && Overlays(PlanOf(v0), base, c, ns, made) && k.ns == ns && k in c.services
    ensures c.tenant == v0.tenant && k in v0.services
    ensures Checks(c, k, c.services[k]) == Checks(v0, k, v0.services[k])
  {
    ReadIsOld(v0, ns, done, base, c, made, k);
    SameInputs(v0, ns, done, base, c, made, ModelKey(k, c.services[k]));
    hide Written, Overlays, Based, OwnChecks;
    SameBesideStatus(v0.services[k], c.services[k]);
    SameOwnChecks(k, v0.services[k], c.services[k], c.tenant, Lookup(c.models, ModelKey(k, c.services[k])));
  }

  lemma SameInputs(v0: Cluster, ns: string, done: set<Key>, base: Cluster, c: Cluster, made: Made, model: Key)
    requires Based(v0, ns, done, base) && Overlays(PlanOf(v0), base, c, ns, made) && model.ns == ns
    ensures c.tenant == v0.tenant && Lookup(c.models, model) == Lookup(v0.models, model)
  {
    hide PlanOf, Fresh, UidsDistinct, View, DeploymentsOverlay, KubeServicesOverlay, ConfigMapsOverlay;
    assert Lookup(c.models, model) == Lookup(base.models, model);
  }

  lemma SameOwnChecks(key: Key, one: InferenceService, two: InferenceService, tenant: Option<BrukTenant>,
                      model: Option<BrukModel>)
    requires one.spec == two.spec
    ensures OwnChecks(key, one, tenant, model) == OwnChecks(key, two, tenant, model)
    ensures ModelKey(key, one) == ModelKey(key, two)
  {
  }

  lemma SameSiblings(v0: Cluster, ns: string, done: set<Key>, base: Cluster, c: Cluster, made: Made, k: Key,
                     order: seq<Key>)
    requires Based(v0, ns, done, base) && Overlays(PlanOf(v0), base, c, ns, made) && k.ns == ns && k in c.services
    requires Enumerates(order, c.services.Keys, ns)
    ensures k in v0.services
    ensures FirstHolder(OlderSibling, c, k, c.services[k], order).None? <==> Least(v0, k)
  {
    ReadIsOld(v0, ns, done, base, c, made, k);
    forall j: Key
      ensures HoldsClaim(OlderSibling, c, k, c.services[k], j) <==> HoldsClaim(OlderSibling, v0, k, v0.services[k], j)
    {
      if j.ns == ns {
        ReadIsOld(v0, ns, done, base, c, made, j);
        SameSibling(v0, c, k, j);
      }
    }
    hide Based, Overlays;
    SiblingsListed(c, v0, k, order);
  }

  lemma SameSibling(v0: Cluster, c: Cluster, k: Key, j: Key)
    requires k in c.services && k in v0.services && v0.services[k].(status := c.services[k].status) == c.services[k]
    requires j in c.services <==> j in v0.services
    requires j in c.services ==> v0.services[j].(status := c.services[j].status) == c.services[j]
    ensures HoldsClaim(OlderSibling, c, k, c.services[k], j) <==> HoldsClaim(OlderSibling, v0, k, v0.services[k], j)
  {
    if j in c.services {
      SameBesideStatus(v0.services[k], c.services[k]);
      SameBesideStatus(v0.services[j], c.services[j]);
    }
  }

  lemma SameBesideStatus(one: InferenceService, two: InferenceService)
    requires one.(status := two.status) == two
    ensures one.created == two.created && one.spec == two.spec && one.uid == two.uid && one.generation == two.generation
  {
  }

  lemma SiblingsListed(c: Cluster, v0: Cluster, k: Key, order: seq<Key>)
    requires k in c.services && k in v0.services && Enumerates(order, c.services.Keys, k.ns)
    requires forall j: Key ::
               HoldsClaim(OlderSibling, c, k, c.services[k], j) <==> HoldsClaim(OlderSibling, v0, k, v0.services[k], j)
    ensures FirstHolder(OlderSibling, c, k, c.services[k], order).None? <==> Least(v0, k)
  {
    FirstHolderExact(OlderSibling, c, k, c.services[k], order);
    forall j | HoldsClaim(OlderSibling, c, k, c.services[k], j) ensures j in order {
    }
    hide HoldsClaim, FirstHolder, Enumerates;
  }

  /** Any Deployment in the namespace is a winner's. */
  lemma OnlyWinners(v0: Cluster, ns: string, done: set<Key>, base: Cluster, c: Cluster, made: Made, k: Key)
    requires Based(v0, ns, done, base) && Overlays(PlanOf(v0), base, c, ns, made) && k.ns == ns && k in c.deployments
    ensures k in v0.services && Settling(v0, k).deployment == Some(c.deployments[k])
  {
    hide KubeServicesOverlay, ConfigMapsOverlay, InputsOverlay, Settling;
    assert Lookup(c.deployments, k) == DeploymentNow(PlanOf(v0), base, made, k);
    assert Lookup(base.deployments, k) == DeploymentAfter(v0, done, k);
    assert Lookup(v0.deployments, k) == None;
  }

  lemma NobodyMounts(v0: Cluster, ns: string, done: set<Key>, base: Cluster, c: Cluster, made: Made, k: Key,
                     order: seq<Key>)
    requires Based(v0, ns, done, base) && Overlays(PlanOf(v0), base, c, ns, made) && k.ns == ns && k in c.services
    requires k in v0.services && Least(v0, k) && Enumerates(order, c.deployments.Keys, ns)
    ensures FirstHolder(OtherDeployment, c, k, c.services[k], order).None?
  {
    ReadIsOld(v0, ns, done, base, c, made, k);
    FirstHolderExact(OtherDeployment, c, k, c.services[k], order);
    forall j | HoldsClaim(OtherDeployment, c, k, c.services[k], j) ensures false {
      OnlyWinners(v0, ns, done, base, c, made, j);
      hide Based, Overlays, Settling;
      WinnersMount(v0, j, c.services[k].Claim());
      if j != k {
        LeastBeats(v0, j, k);
      }
    }
  }

  lemma NoPods(v0: Cluster, ns: string, done: set<Key>, base: Cluster, c: Cluster, made: Made, k: Key, order: seq<Key>)
    requires Based(v0, ns, done, base) && Overlays(PlanOf(v0), base, c, ns, made) && k.ns == ns && k in c.services
    ensures FirstHolder(StandalonePod, c, k, c.services[k], order).None?
  {
    FirstHolderExact(StandalonePod, c, k, c.services[k], order);
    forall j: Key | j.ns == ns ensures j !in c.pods {
      assert Lookup(c.pods, j) == Lookup(base.pods, j);
    }
  }

  // ---------- what a worker's reconcile writes in all ----------

  lemma ErasesFailed(isvc: InferenceService, reason: Reason, message: Message, now: Clock, other: Message)
    ensures var e := EraseService(isvc);
            EraseService(isvc.(status := FailedStatus(isvc, reason, message, now)))
            == EraseService(e.(status := FailedStatus(e, reason, other, EPOCH)))
  {
    var cs, g := isvc.status.conditions, isvc.generation;
    EraseFailedOnce(cs, g, reason, message, now);
    EraseFailedOnce(EraseAll(cs), g, reason, other, EPOCH);
    EraseTwice(cs);
    hide FailedConditions, EraseAll;
  }

  lemma ErasesApplied(key: Key, isvc: InferenceService, tenant: BrukTenant, model: BrukModel, now: Clock)
    ensures var e := EraseService(isvc);
            EraseService(isvc.(status := AppliedStatus(key, isvc, tenant, model, false, now)))
            == EraseService(e.(status := AppliedStatus(key, e, tenant, model, false, EPOCH)))
  {
    var cs, g := isvc.status.conditions, isvc.generation;
    EraseApplied(cs, g, false, now);
    hide AppliedConditions, EraseAll, EndpointURL;
  }

  lemma PlanFromBase(v0: Cluster, ns: string, done: set<Key>, base: Cluster, k: Key)
    requires Based(v0, ns, done, base) && k in v0.services
    ensures Fresh(v0) && k in base.services
    ensures Settling(v0, k) == EraseWrites(WritesOf(base, k, Verdict(v0, k), EPOCH))
    ensures Settling(base, k) == Settling(v0, k)
    ensures DeploymentStatus(base, k) == []
    ensures ServiceTaken(base, k, v0.services[k].uid) <==> ServiceTaken(v0, k, v0.services[k].uid)
  {
    SettlingLater(v0, done, base, k);
    TurnsAreIndependent(v0, done, base, k);
    NothingTakenByTurns(v0, done, base, k);
  }

  /** The checks or the guard refused. */
  lemma PlanOfRefused(v0: Cluster, ns: string, done: set<Key>, base: Cluster, k: Key, isvc: InferenceService,
                      reason: Reason, message: Message, now: Clock)
    requires Based(v0, ns, done, base) && k in v0.services
    requires k in base.services && base.services[k] == EraseService(isvc)
    requires Verdict(v0, k).Refused? && Verdict(v0, k).reason == reason
    ensures Settling(v0, k) == Writes(Some(EraseService(isvc.(status := FailedStatus(isvc, reason, message, now)))),
        None, None, false)
  {
    PlanFromBase(v0, ns, done, base, k);
    ErasesFailed(isvc, reason, message, now, Verdict(v0, k).message);
    hide Based, Settling, Verdict, FailedStatus, AppliedStatus;
  }

  /** Rendering failed. */
  lemma PlanOfRenderFailed(v0: Cluster, ns: string, done: set<Key>, base: Cluster, k: Key, isvc: InferenceService,
                           message: Message, now: Clock)
    requires Based(v0, ns, done, base) && k in v0.services
    requires k in base.services && base.services[k] == EraseService(isvc)
    requires Verdict(v0, k).RenderFailed?
    ensures var failed := isvc.(status := FailedStatus(isvc, InvalidConfig, message, now));
            Settling(v0, k) == Writes(Some(EraseService(failed)), None, None, isvc.spec.storage.weightsCache.Some?)
  {
    PlanFromBase(v0, ns, done, base, k);
    ErasesFailed(isvc, InvalidConfig, message, now, Verdict(v0, k).error);
    hide Based, Settling, Verdict, FailedStatus, AppliedStatus;
  }

  /** Everything passed: with the Service free, and with the Service taken. */
  lemma PlanOfWorkload(v0: Cluster, ns: string, done: set<Key>, base: Cluster, job: Job, template: PodTemplate,
                       now: Clock)
    requires Based(v0, ns, done, base) && Cleared(v0, job)
    requires job.key in base.services && base.services[job.key] == EraseService(job.isvc)
    requires v0.services[job.key].(status := job.isvc.status) == job.isvc
    requires RenderFor(job.key, job.isvc, job.tenant, job.model) == Success(template)
    ensures var w := Settling(v0, job.key);
            var taken := ServiceTaken(base, job.key, job.isvc.uid);
            && w.deployment == Some(Deployment(Some(ByService(job.isvc.uid)), template, []))
            && w.configMap == job.isvc.spec.storage.weightsCache.Some?
            && (taken ==> w.isvc == None && w.service == None)
            && (!taken ==>
                  && w.service == Some(Service(Some(ByService(job.isvc.uid)), job.key.name))
                  && w.isvc == Some(EraseService(job.isvc.(status :=
                       AppliedStatus(job.key, job.isvc, job.tenant, job.model, false, now)))))
  {
    hide Based, Settling, Verdict, FailedStatus, AppliedStatus, Least, Checks, RenderFor;
    PlanFromBase(v0, ns, done, base, job.key);
    SameBesideStatus(v0.services[job.key], job.isvc);
    VerdictOfJob(v0, job);
    ErasesApplied(job.key, job.isvc, job.tenant, job.model, now);
  }

  lemma VerdictOfJob(v0: Cluster, job: Job)
    requires Fresh(v0) && Cleared(v0, job)
    requires v0.services[job.key].(status := job.isvc.status) == job.isvc
    ensures Verdict(v0, job.key) ==
            match RenderFor(job.key, job.isvc, job.tenant, job.model)
            case Failure(e) => RenderFailed(e)
            case Success(template) =>
              if ServiceTaken(v0, job.key, job.isvc.uid) then ServiceRejected(template)
              else Succeeded(template, job.tenant, job.model)
  {
    hide RenderDeployment, Least;
    assert v0.services[job.key].spec == job.isvc.spec && v0.services[job.key].uid == job.isvc.uid;
    assert RenderFor(job.key, v0.services[job.key], job.tenant, job.model)
        == RenderFor(job.key, job.isvc, job.tenant, job.model);
    assert !DeploymentTaken(v0, job.key, job.isvc.uid);
  }

  // ---------- one call ----------

  ghost predicate Working(v0: Cluster, ns: string, done: set<Key>, base: Cluster, c: Cluster, made: Made, p: Phase) {
    && Based(v0, ns, done, base) && Overlays(PlanOf(v0), base, c, ns, made)
    && KeyOf(p).ns == ns && Knows(v0, c, p)
    && made == MadeWith(made, KeyOf(p), p)
  }

  /** After a call that leads on. */
  ghost predicate LeadsOn(v0: Cluster, ns: string, base: Cluster, after: Cluster, made: Made, p: Phase, next: Phase) {
    && KeyOf(next) == KeyOf(p)
    && Knows(v0, after, next)
    && Overlays(PlanOf(v0), base, after, ns, MadeWith(made, KeyOf(p), next))
  }

  /** A phase may be entered when the service has made the writes that the phase comes after, or has none to make. */
  lemma Enters(plan: Plan, base: Cluster, c: Cluster, ns: string, made: Made, k: Key, next: Phase)
    requires Overlays(plan, base, c, ns, made) && k in plan
    requires plan[k].deployment.Some? ==> (k in made.deployments <==> HasApplied(next))
    requires plan[k].service.Some? ==> (k in made.services <==> HasServed(next))
    requires plan[k].configMap ==> (k in made.configMaps <==> HasMapped(next))
    ensures Overlays(plan, base, c, ns, MadeWith(made, k, next))
  {
    hide Overlays, HasApplied, HasServed, HasMapped;
    SameMade(plan, base, c, ns, made, MadeWith(made, k, next));
  }

  /** A refusal writes nothing but the status that is still to come. */
  lemma LeadsToRefusal(v0: Cluster, ns: string, done: set<Key>, base: Cluster, c: Cluster, made: Made, p: Phase,
                       reason: Reason, message: Message, now: Clock)
    requires Working(v0, ns, done, base, c, made, p)
    requires Verdict(v0, KeyOf(p)).Refused? && Verdict(v0, KeyOf(p)).reason == reason
    ensures LeadsOn(v0, ns, base, c, made, p, Fail(KeyOf(p), ReadBy(p), reason, message, now))
  {
    hide Overlays, Based, Settling, Verdict, FailedStatus, EraseService, MadeWith, PlanOf, Least, Checks;
    var k := KeyOf(p);
    ReadIsOld(v0, ns, done, base, c, made, k);
    PlanOfRefused(v0, ns, done, base, k, ReadBy(p), reason, message, now);
    PlanAt(v0, k);
    Enters(PlanOf(v0), base, c, ns, made, k, Fail(k, ReadBy(p), reason, message, now));
  }

  /** Reading on writes nothing. */
  lemma LeadsToRead(v0: Cluster, ns: string, done: set<Key>, base: Cluster, c: Cluster, made: Made, p: Phase,
                    next: Phase)
    requires Working(v0, ns, done, base, c, made, p)
    requires KeyOf(next) == KeyOf(p) && ReadBy(next) == ReadBy(p) && PhaseKnows(v0, next)
    requires !HasMapped(p) && !HasMapped(next)
    ensures LeadsOn(v0, ns, base, c, made, p, next)
  {
    hide Overlays, Based, PhaseKnows, KeyOf, ReadBy;
  }

  lemma GetTenantLeadsOn(v0: Cluster, ns: string, done: set<Key>, base: Cluster, c: Cluster, made: Made, p: Phase,
                         call: Call)
    requires Working(v0, ns, done, base, c, made, p) && p.GetTenant?
    ensures var progress := Resume(c, p, call);
            progress.cluster == c && progress.next.Some? && LeadsOn(v0, ns, base, c, made, p, progress.next.value)
  {
    SameChecks(v0, ns, done, base, c, made, p.key);
    if c.tenant.None? {
      hide Overlays, Based;
      LeadsToRefusal(v0, ns, done, base, c, made, p, TenantConfigMissing, NoTenant, call.now);
    } else {
      LeadsToRead(v0, ns, done, base, c, made, p, GetModel(p.key, p.isvc, c.tenant.value));
    }
  }

  lemma GetModelLeadsOn(v0: Cluster, ns: string, done: set<Key>, base: Cluster, c: Cluster, made: Made, p: Phase,
                        call: Call)
    requires Working(v0, ns, done, base, c, made, p) && p.GetModel?
    ensures var progress := Resume(c, p, call);
            progress.cluster == c && progress.next.Some? && LeadsOn(v0, ns, base, c, made, p, progress.next.value)
  {
    SameChecks(v0, ns, done, base, c, made, p.key);
    hide Overlays, Based, OwnChecks;
    assert OwnChecks(p.key, p.isvc, Some(p.tenant), Lookup(c.models, ModelKey(p.key, p.isvc)))
        == Checks(v0, p.key, v0.services[p.key]);
    match Checks(v0, p.key, v0.services[p.key]) {
      case Refuse(reason, message) =>
        LeadsToRefusal(v0, ns, done, base, c, made, p, reason, message, call.now);
      case Go(tenant, model) =>
        LeadsToRead(v0, ns, done, base, c, made, p, ListSiblings(Job(p.key, p.isvc, tenant, model)));
    }
  }

  lemma ListLeadsOn(v0: Cluster, ns: string, done: set<Key>, base: Cluster, c: Cluster, made: Made, p: Phase,
                    call: Call)
    requires Working(v0, ns, done, base, c, made, p) && (p.ListSiblings? || p.ListDeployments?)
    requires FaithfulRead(c, p, call.order)
    ensures var progress := Resume(c, p, call);
            progress.cluster == c && progress.next.Some? && LeadsOn(v0, ns, base, c, made, p, progress.next.value)
  {
    hide Overlays, Based, FirstHolder, Least, Checks, EraseService, MadeWith, LeadsOn, OwnChecks;
    var job := p.job;
    if p.ListDeployments? {
      NobodyMounts(v0, ns, done, base, c, made, job.key, call.order.deployments);
      LeadsToRead(v0, ns, done, base, c, made, p, ListPods(job));
    } else {
      SameSiblings(v0, ns, done, base, c, made, job.key, call.order.siblings);
      if Least(v0, job.key) {
        LeadsToRead(v0, ns, done, base, c, made, p, ListDeployments(job));
      } else {
        var message := FirstHolder(OlderSibling, c, job.key, job.isvc, call.order.siblings).value;
        LeadsToRefusal(v0, ns, done, base, c, made, p, TrustedStoreConflict, message, call.now);
      }
    }
  }

  lemma RenderPlan(v0: Cluster, ns: string, done: set<Key>, base: Cluster, job: Job, now: Clock)
    requires Based(v0, ns, done, base) && Cleared(v0, job)
    requires job.key in base.services && base.services[job.key] == EraseService(job.isvc)
    requires v0.services[job.key].(status := job.isvc.status) == job.isvc
    ensures var next, w := RenderJob(job, now), Settling(v0, job.key);
            && w.configMap == job.isvc.spec.storage.weightsCache.Some?
            && KeyOf(next) == job.key && ReadBy(next) == job.isvc && PhaseKnows(v0, next)
            && (next.PatchDeployment? || (next.UpdateStatus? && w.deployment.None? && w.service.None?))
  {
    VerdictOfJob(v0, job);
    match RenderFor(job.key, job.isvc, job.tenant, job.model) {
      case Failure(e) => PlanOfRenderFailed(v0, ns, done, base, job.key, job.isvc, e, now);
      case Success(template) => PlanOfWorkload(v0, ns, done, base, job, template, now);
    }
    hide Based, Settling, Verdict, FailedStatus, AppliedStatus, EraseService, Least, Checks;
  }

  /** From the last read or the ConfigMap to the Deployment, or to the failure of rendering. */
  lemma RenderLeadsOn(v0: Cluster, ns: string, done: set<Key>, base: Cluster, c: Cluster, after: Cluster, made: Made,
                      p: Phase,
                      job: Job, now: Clock)
    requires Working(v0, ns, done, base, c, made, p) && KeyOf(p) == job.key && ReadBy(p) == job.isvc
    requires Cleared(v0, job) && !HasMapped(p)
    requires after == if job.isvc.spec.storage.weightsCache.Some? then PutConfigMap(c, ns) else c
    ensures LeadsOn(v0, ns, base, after, made, p, RenderJob(job, now))
  {
    var k := job.key;
    ReadIsOld(v0, ns, done, base, c, made, k);
    RenderPlan(v0, ns, done, base, job, now);
    NotYetMade(made, k, p);
    assert PlanOf(v0)[k] == Settling(v0, k);
    hide Overlays, Based, Settling, PhaseKnows, RenderJob, PlanOf, MadeWith, Cleared, KeyOf, ReadBy;
    var next := RenderJob(job, now);
    if job.isvc.spec.storage.weightsCache.Some? {
      ConfigMapMade(PlanOf(v0), base, c, ns, made, k);
      Enters(PlanOf(v0), base, after, ns, made.(configMaps := made.configMaps + {k}), k, next);
      SameWith(made, k, next);
    } else {
      Enters(PlanOf(v0), base, c, ns, made, k, next);
    }
  }

  lemma NotYetMade(made: Made, k: Key, p: Phase)
    requires made == MadeWith(made, k, p)
    ensures k in made.deployments <==> HasApplied(p)
    ensures k in made.services <==> HasServed(p)
    ensures k in made.configMaps <==> HasMapped(p)
  {
    assert k in MadeWith(made, k, p).deployments <==> HasApplied(p);
    assert k in MadeWith(made, k, p).services <==> HasServed(p);
    assert k in MadeWith(made, k, p).configMaps <==> HasMapped(p);
  }

  lemma SameWith(made: Made, k: Key, next: Phase)
    ensures MadeWith(made.(configMaps := made.configMaps + {k}), k, next) == MadeWith(made, k, next)
    ensures MadeWith(made.(deployments := made.deployments + {k}), k, next) == MadeWith(made, k, next)
    ensures MadeWith(made.(services := made.services + {k}), k, next) == MadeWith(made, k, next)
  {
    assert made.configMaps + {k} - {k} == made.configMaps - {k};
    assert made.deployments + {k} - {k} == made.deployments - {k};
    assert made.services + {k} - {k} == made.services - {k};
  }

  lemma LastReadLeadsOn(v0: Cluster, ns: string, done: set<Key>, base: Cluster, c: Cluster, made: Made, p: Phase,
                        call: Call)
    requires Working(v0, ns, done, base, c, made, p) && (p.ListPods? || p.PatchConfigMap?)
    ensures var progress := Resume(c, p, call);
            progress.next.Some? && LeadsOn(v0, ns, base, progress.cluster, made, p, progress.next.value)
  {
    var job := p.job;
    if p.ListPods? {
      NoPods(v0, ns, done, base, c, made, job.key, call.order.pods);
    }
    hide Overlays, Based, FirstHolder, LeadsOn, RenderJob, Least, Checks;
    if p.ListPods? && job.isvc.spec.storage.weightsCache.Some? {
      LeadsToRead(v0, ns, done, base, c, made, p, PatchConfigMap(job));
    } else {
      RenderLeadsOn(v0, ns, done, base, c, Resume(c, p, call).cluster, made, p, job, call.now);
    }
  }

  /** The service's own Deployment, if it is there, is its own. */
  lemma OwnDeployment(v0: Cluster, ns: string, done: set<Key>, base: Cluster, c: Cluster, made: Made, k: Key, uid: nat)
    requires Based(v0, ns, done, base) && Overlays(PlanOf(v0), base, c, ns, made) && k.ns == ns
    requires k in v0.services && v0.services[k].uid == uid
    ensures DeploymentStatus(c, k) == [] && !DeploymentTaken(c, k, uid)
  {
    if k in c.deployments {
      OnlyWinners(v0, ns, done, base, c, made, k);
      hide Based, Overlays, Settling;
      WinnersMount(v0, k, "");
    }
  }

  lemma ApplyLeadsOn(v0: Cluster, ns: string, done: set<Key>, base: Cluster, c: Cluster, made: Made, p: Phase,
                     call: Call)
    requires Working(v0, ns, done, base, c, made, p) && p.PatchDeployment?
    ensures var progress := Resume(c, p, call);
            progress.next.Some? && LeadsOn(v0, ns, base, progress.cluster, made, p, progress.next.value)
  {
    hide Overlays, Based, Settling, PlanOf, MadeWith, Least, Checks, RenderFor, EraseService, AppliedStatus;
    var job, template := p.job, p.template;
    var k := job.key;
    ReadIsOld(v0, ns, done, base, c, made, k);
    SameBesideStatus(v0.services[k], job.isvc);
    OwnDeployment(v0, ns, done, base, c, made, k, job.isvc.uid);
    PlanOfWorkload(v0, ns, done, base, job, template, call.now);
    NotYetMade(made, k, p);
    PlanAt(v0, k);
    AppliesOn(PlanOf(v0), base, c, ns, made, k, job.isvc.uid, template, PatchService(job, false));
    hide PutDeployment, DeploymentTaken;
    KnowsAfterApply(c, k, job.isvc.uid, template);
  }

  lemma KnowsAfterApply(c: Cluster, k: Key, uid: nat, template: PodTemplate)
    ensures PutDeployment(c, k, uid, template).services == c.services
  {
  }

  lemma AppliesOn(plan: Plan, base: Cluster, c: Cluster, ns: string, made: Made, k: Key, uid: nat,
                  template: PodTemplate, next: Phase)
    requires Overlays(plan, base, c, ns, made) && k in plan && next.PatchService?
    requires plan[k].deployment == Some(RenderedDeployment(c, k, uid, template))
    requires k !in made.services && k in made.configMaps
    ensures Overlays(plan, base, PutDeployment(c, k, uid, template), ns, MadeWith(made, k, next))
  {
    hide Overlays, MadeWith, PutDeployment, RenderedDeployment;
    DeploymentMade(plan, base, c, ns, made, k, uid, template);
    Enters(plan, base, PutDeployment(c, k, uid, template), ns, made.(deployments := made.deployments + {k}), k, next);
    SameWith(made, k, next);
  }

  lemma ServesOn(plan: Plan, base: Cluster, c: Cluster, ns: string, made: Made, k: Key, uid: nat, next: Phase)
    requires Overlays(plan, base, c, ns, made) && k in plan && next.UpdateStatus?
    requires plan[k].service == Some(Service(Some(ByService(uid)), k.name))
    requires k in made.deployments && k in made.configMaps
    ensures Overlays(plan, base, PutService(c, k, uid), ns, MadeWith(made, k, next))
  {
    hide Overlays, MadeWith, PutService;
    ServiceMade(plan, base, c, ns, made, k, uid);
    Enters(plan, base, PutService(c, k, uid), ns, made.(services := made.services + {k}), k, next);
    SameWith(made, k, next);
  }

  lemma RejectionEnds(plan: Plan, base: Cluster, c: Cluster, ns: string, made: Made, k: Key)
    requires Overlays(plan, base, c, ns, made) && k in plan && k.ns == ns
    requires plan[k].service.None? && plan[k].isvc.None?
    requires k in made.deployments && k in made.configMaps
    ensures Overlays(plan, Write(base, k, plan[k]), c, ns, Without(made, k))
  {
    assert ErasedAt(c.services, k) == Lookup(base.services, k);
    hide Overlays, Write, EraseService, ErasedAt;
    var served := made.(services := made.services + {k});
    SameMade(plan, base, c, ns, made, served);
    Finishes(plan, base, c, c, ns, served, k);
    assert Without(served, k) == Without(made, k);
  }

  /** After a call that ends the reconcile. */
  ghost predicate Ends(v0: Cluster, ns: string, base: Cluster, after: Cluster, made: Made, p: Phase) {
    Overlays(PlanOf(v0), Settle(base, KeyOf(p)), after, ns, Without(made, KeyOf(p)))
  }

  lemma SettleIsPlan(v0: Cluster, ns: string, done: set<Key>, base: Cluster, k: Key)
    requires Based(v0, ns, done, base) && k in v0.services
    ensures Settle(base, k) == Write(base, k, PlanOf(v0)[k])
  {
    PlanFromBase(v0, ns, done, base, k);
    hide Settling, Based, Write;
  }

  /** Whether the Service name is taken has not changed before the service itself applied it. */
  lemma SameTaken(v0: Cluster, ns: string, done: set<Key>, base: Cluster, c: Cluster, made: Made, k: Key, uid: nat)
    requires Based(v0, ns, done, base) && Overlays(PlanOf(v0), base, c, ns, made) && k.ns == ns && k !in made.services
    ensures ServiceTaken(c, k, uid) <==> ServiceTaken(base, k, uid)
  {
    assert Lookup(c.kubeServices, ServiceKey(k)) == KubeServiceNow(PlanOf(v0), base, made, k);
    hide Based, Overlays, PlanOf;
  }

  lemma ServiceLeadsOn(v0: Cluster, ns: string, done: set<Key>, base: Cluster, c: Cluster, made: Made, p: Phase,
                       call: Call)
    requires Working(v0, ns, done, base, c, made, p) && p.PatchService?
    ensures var progress := Resume(c, p, call);
            if progress.next.Some? then LeadsOn(v0, ns, base, progress.cluster, made, p, progress.next.value)
            else Ends(v0, ns, base, progress.cluster, made, p)
  {
    hide Overlays, Based, Settling, PlanOf, MadeWith, Least, Checks, RenderFor, EraseService, AppliedStatus, Settle,
        Write;
    var job := p.job;
    var k, uid := job.key, job.isvc.uid;
    ReadIsOld(v0, ns, done, base, c, made, k);
    NotYetMade(made, k, p);
    SameTaken(v0, ns, done, base, c, made, k, uid);
    PlanOfWorkload(v0, ns, done, base, job, RenderFor(k, job.isvc, job.tenant, job.model).value, call.now);
    SettleIsPlan(v0, ns, done, base, k);
    PlanAt(v0, k);
    hide ServiceTaken, PutService;
    if ServiceTaken(c, k, uid) {
      RejectionEnds(PlanOf(v0), base, c, ns, made, k);
    } else {
      var next := UpdateStatus(k, job.isvc, AppliedStatus(k, job.isvc, job.tenant, job.model, false, call.now));
      ServesOn(PlanOf(v0), base, c, ns, made, k, uid, next);
      KnowsAfterService(c, k, uid);
    }
  }

  lemma KnowsAfterService(c: Cluster, k: Key, uid: nat)
    ensures PutService(c, k, uid).services == c.services
  {
  }

  lemma StatusPut(c: Cluster, k: Key, status: Status, ns: string)
    requires k in c.services
    ensures var after := PutStatus(c, k, status);
            && after == c.(services := after.services)
            && ErasedAt(after.services, k) == Some(EraseService(c.services[k].(status := status)))
            && forall j: Key {:trigger Lookup(after.services, j)} :: j != k ==>
                Lookup(after.services, j) == Lookup(c.services, j)
  {
    hide EraseService;
  }

  lemma StatusEnds(v0: Cluster, ns: string, done: set<Key>, base: Cluster, c: Cluster, made: Made, p: Phase, call: Call)
    requires Working(v0, ns, done, base, c, made, p) && p.UpdateStatus?
    ensures var progress := Resume(c, p, call);
            progress.next.None? && Ends(v0, ns, base, progress.cluster, made, p)
  {
    hide Overlays, Based, Settling, PlanOf, MadeWith, Settle, Write, EraseService;
    var k := p.key;
    NotYetMade(made, k, p);
    SettleIsPlan(v0, ns, done, base, k);
    PlanAt(v0, k);
    var after := PutStatus(c, k, p.status);
    StatusPut(c, k, p.status, ns);
    assert Resume(c, p, call) == Progress(after, None);
    hide Resume, PutStatus;
    Finishes(PlanOf(v0), base, c, after, ns, made, k);
  }

  lemma CallLeadsOn(v0: Cluster, ns: string, done: set<Key>, base: Cluster, c: Cluster, made: Made, p: Phase,
                    call: Call)
    requires Working(v0, ns, done, base, c, made, p) && FaithfulRead(c, p, call.order)
    ensures var progress := Resume(c, p, call);
            if progress.next.Some? then LeadsOn(v0, ns, base, progress.cluster, made, p, progress.next.value)
            else Ends(v0, ns, base, progress.cluster, made, p)
  {
    hide Working, LeadsOn, Ends, Resume;
    match p {
      case GetTenant(_, _) => GetTenantLeadsOn(v0, ns, done, base, c, made, p, call);
      case GetModel(_, _, _) => GetModelLeadsOn(v0, ns, done, base, c, made, p, call);
      case ListSiblings(_) => ListLeadsOn(v0, ns, done, base, c, made, p, call);
      case ListDeployments(_) => ListLeadsOn(v0, ns, done, base, c, made, p, call);
      case ListPods(_) => LastReadLeadsOn(v0, ns, done, base, c, made, p, call);
      case PatchConfigMap(_) => LastReadLeadsOn(v0, ns, done, base, c, made, p, call);
      case PatchDeployment(_, _) => ApplyLeadsOn(v0, ns, done, base, c, made, p, call);
      case PatchService(_, _) => ServiceLeadsOn(v0, ns, done, base, c, made, p, call);
      case UpdateStatus(_, _, _) => StatusEnds(v0, ns, done, base, c, made, p, call);
    }
  }

  // ---------- the steps ----------

  ghost predicate Inv(s: System, v0: Cluster, ns: string, done: set<Key>, base: Cluster) {
    && Based(v0, ns, done, base)
    && Overlays(PlanOf(v0), base, s.world.cluster, ns, MadeBy(s.workers))
    && (forall n <- s.workers :: KeyOf(s.workers[n]).ns == ns ==> Knows(v0, s.world.cluster, s.workers[n]))
    && OwnKeys(s.workers)
  }

  ghost predicate OwnKeys(workers: map<nat, Phase>) {
    forall m <- workers, n <- workers :: KeyOf(workers[m]) == KeyOf(workers[n]) ==> m == n
  }

  lemma KeysMove(workers: map<nat, Phase>, worker: nat, next: Phase, has: Phase -> bool)
    requires forall n <- workers :: n != worker ==> KeyOf(workers[n]) != KeyOf(next)
    requires worker in workers ==> KeyOf(workers[worker]) == KeyOf(next)
    ensures KeysWith(workers[worker := next], has) == Marked(KeysWith(workers, has), KeyOf(next), has(next))
  {
    hide KeyOf;
    var after := workers[worker := next];
    forall k | k in KeysWith(after, has) ensures k in Marked(KeysWith(workers, has), KeyOf(next), has(next)) {
      var n :| n in after && has(after[n]) && KeyOf(after[n]) == k;
      if n != worker {
        assert n in workers && after[n] == workers[n];
      }
    }
    forall k | k in Marked(KeysWith(workers, has), KeyOf(next), has(next)) ensures k in KeysWith(after, has) {
      if k == KeyOf(next) {
        assert worker in after && after[worker] == next;
      } else {
        var n :| n in workers && has(workers[n]) && KeyOf(workers[n]) == k;
        assert n in after && after[n] == workers[n];
      }
    }
  }

  lemma KeysLeave(workers: map<nat, Phase>, worker: nat, has: Phase -> bool)
    requires OwnKeys(workers) && worker in workers
    ensures KeysWith(workers - {worker}, has) == KeysWith(workers, has) - {KeyOf(workers[worker])}
  {
    hide KeyOf;
    var after := workers - {worker};
    forall k | k in KeysWith(workers, has) && k != KeyOf(workers[worker]) ensures k in KeysWith(after, has) {
      var n :| n in workers && has(workers[n]) && KeyOf(workers[n]) == k;
      assert n in after && after[n] == workers[n];
    }
  }

  lemma MadeByMoves(workers: map<nat, Phase>, worker: nat, next: Phase)
    requires OwnKeys(workers)
    requires worker in workers ==> KeyOf(workers[worker]) == KeyOf(next)
    requires worker !in workers ==> forall n <- workers :: KeyOf(workers[n]) != KeyOf(next)
    ensures MadeBy(workers[worker := next]) == MadeWith(MadeBy(workers), KeyOf(next), next)
    ensures OwnKeys(workers[worker := next])
  {
    hide KeyOf;
    KeysMove(workers, worker, next, HasApplied);
    KeysMove(workers, worker, next, HasServed);
    KeysMove(workers, worker, next, HasMapped);
  }

  lemma MadeByWithout(workers: map<nat, Phase>, worker: nat)
    requires OwnKeys(workers) && worker in workers
    ensures MadeBy(workers - {worker}) == Without(MadeBy(workers), KeyOf(workers[worker]))
    ensures OwnKeys(workers - {worker})
  {
    hide KeyOf;
    KeysLeave(workers, worker, HasApplied);
    KeysLeave(workers, worker, HasServed);
    KeysLeave(workers, worker, HasMapped);
  }

  lemma OthersKnow(v0: Cluster, c: Cluster, after: Cluster, key: Key, p: Phase)
    requires OnlyTouches(c, after, key) && Knows(v0, c, p) && KeyOf(p) != key
    ensures Knows(v0, after, p)
  {
    hide PhaseKnows;
  }

  lemma BaseMoves(v0: Cluster, ns: string, done: set<Key>, base: Cluster, k: Key)
    requires Based(v0, ns, done, base) && k in v0.services
    ensures Based(v0, ns, done + {k}, Settle(base, k))
  {
    SettleWrites(v0, done, base, k);
    assert {k} * v0.services.Keys == {k};
    SettleIsPlan(v0, ns, done, base, k);
    WriteInNamespace(base, k, PlanOf(v0)[k], ns);
    hide Settle, Written, Fresh, UidsDistinct, Write, View, PlanOf;
  }

  /** A worker that goes on to its next call. */
  lemma MovesOn(s: System, worker: nat, c: Cluster, next: Phase, v0: Cluster, ns: string, done: set<Key>, base: Cluster)
    requires OwnKeys(s.workers) && worker in s.workers && KeyOf(next) == KeyOf(s.workers[worker])
    requires Based(v0, ns, done, base)
    requires Overlays(PlanOf(v0), base, c, ns, MadeWith(MadeBy(s.workers), KeyOf(next), next))
    requires KeyOf(next).ns == ns ==> Knows(v0, c, next)
    requires forall n <- s.workers :: n != worker && KeyOf(s.workers[n]).ns == ns ==> Knows(v0, c, s.workers[n])
    ensures Inv(System(s.world.(cluster := c), s.workers[worker := next]), v0, ns, done, base)
  {
    MadeByMoves(s.workers, worker, next);
    hide OwnKeys, MadeBy, MadeWith, Overlays, Based, Knows, PlanOf, KeyOf;
  }

  /** A worker that has come to its end. */
  lemma MovesOut(s: System, worker: nat, c: Cluster, v0: Cluster, ns: string, done: set<Key>, base: Cluster)
    requires OwnKeys(s.workers) && worker in s.workers
    requires Based(v0, ns, done, base)
    requires Overlays(PlanOf(v0), base, c, ns, Without(MadeBy(s.workers), KeyOf(s.workers[worker])))
    requires forall n <- s.workers :: n != worker && KeyOf(s.workers[n]).ns == ns ==> Knows(v0, c, s.workers[n])
    ensures Inv(System(s.world.(cluster := c), s.workers - {worker}), v0, ns, done, base)
  {
    MadeByWithout(s.workers, worker);
    hide OwnKeys, MadeBy, Without, Overlays, Based, Knows, PlanOf, KeyOf;
  }

  lemma ContinueKeepsInv(s: System, worker: nat, call: Call, v0: Cluster, ns: string, done: set<Key>, base: Cluster)
    returns (doneNow: set<Key>, baseNow: Cluster)
    requires Inv(s, v0, ns, done, base) && Enabled(s, Continue(worker, call))
    ensures Inv(Step(s, Continue(worker, call)), v0, ns, doneNow, baseNow)
    ensures done <= doneNow
    ensures forall k <- v0.services ::
              k in Finished(s, Continue(worker, call), {}) ==> k in doneNow
  {
    hide MadeBy, MadeWith, Overlays, Based, PlanOf, KeyOf, Resume, OnlyTouches, PhaseKnows;
    var c, p := s.world.cluster, s.workers[worker];
    var after := Resume(c, p, call).cluster;
    var key := KeyOf(p);
    var made := MadeBy(s.workers);
    ResumeTouchesOnly(c, p, call);
    forall n | n in s.workers && n != worker && KeyOf(s.workers[n]).ns == ns ensures Knows(v0, after, s.workers[n]) {
      OthersKnow(v0, c, after, key, s.workers[n]);
    }
    MadeByMoves(s.workers, worker, p);
    assert s.workers[worker := p] == s.workers;
    hide OwnKeys, Inv, Knows;
    if key.ns == ns {
      doneNow, baseNow := OwnCall(s, worker, call, v0, ns, done, base);
    } else {
      doneNow, baseNow := done, base;
      ElsewhereCall(s, worker, call, v0, ns, done, base);
      OwnOnly(v0, ns, done, base, key);
    }
  }

  lemma OwnCall(s: System, worker: nat, call: Call, v0: Cluster, ns: string, done: set<Key>, base: Cluster)
    returns (doneNow: set<Key>, baseNow: Cluster)
    requires Enabled(s, Continue(worker, call)) && OwnKeys(s.workers)
    requires Working(v0, ns, done, base, s.world.cluster, MadeBy(s.workers), s.workers[worker])
    requires var after := Resume(s.world.cluster, s.workers[worker], call).cluster;
             forall n <- s.workers :: n != worker && KeyOf(s.workers[n]).ns == ns ==> Knows(v0, after, s.workers[n])
    ensures Inv(Step(s, Continue(worker, call)), v0, ns, doneNow, baseNow)
    ensures done <= doneNow
    ensures forall k :: k in Finished(s, Continue(worker, call), {}) ==> k in doneNow
  {
    var c, p := s.world.cluster, s.workers[worker];
    var after := Resume(c, p, call).cluster;
    hide OwnKeys, MadeBy, MadeWith, Overlays, Based, PlanOf, KeyOf, Resume, Inv, PhaseKnows, Settle;
    CallLeadsOn(v0, ns, done, base, c, MadeBy(s.workers), p, call);
    hide Knows;
    if Resume(c, p, call).next.None? {
      BaseMoves(v0, ns, done, base, KeyOf(p));
      doneNow, baseNow := done + {KeyOf(p)}, Settle(base, KeyOf(p));
      MovesOut(s, worker, after, v0, ns, doneNow, baseNow);
    } else {
      doneNow, baseNow := done, base;
      MovesOn(s, worker, after, Resume(c, p, call).next.value, v0, ns, done, base);
    }
  }

  lemma ElsewhereCall(s: System, worker: nat, call: Call, v0: Cluster, ns: string, done: set<Key>, base: Cluster)
    requires Enabled(s, Continue(worker, call)) && OwnKeys(s.workers) && KeyOf(s.workers[worker]).ns != ns
    requires Based(v0, ns, done, base) && Overlays(PlanOf(v0), base, s.world.cluster, ns, MadeBy(s.workers))
    requires var after := Resume(s.world.cluster, s.workers[worker], call).cluster;
             && OnlyTouches(s.world.cluster, after, KeyOf(s.workers[worker]))
             && forall n <- s.workers :: n != worker && KeyOf(s.workers[n]).ns == ns ==> Knows(v0, after, s.workers[n])
    ensures Inv(Step(s, Continue(worker, call)), v0, ns, done, base)
  {
    hide OwnKeys, MadeBy, MadeWith, Without, Overlays, Based, PlanOf, KeyOf, Resume, OnlyTouches, Inv, Knows;
    var c, p := s.world.cluster, s.workers[worker];
    var key, made := KeyOf(p), MadeBy(s.workers);
    var after := Resume(c, p, call).cluster;
    ElsewhereUnseen(PlanOf(v0), base, c, after, ns, made, key);
    if Resume(c, p, call).next.None? {
      WithoutTwice(made, key);
      OthersMade(v0, ns, done, base, after, made, key, Without(made, key));
      MovesOut(s, worker, after, v0, ns, done, base);
    } else {
      var next := Resume(c, p, call).next.value;
      SameKeyAfter(c, p, call);
      WithThenWithout(made, key, next);
      OthersMade(v0, ns, done, base, after, made, key, MadeWith(made, key, next));
      MovesOn(s, worker, after, next, v0, ns, done, base);
    }
  }

  lemma OwnOnly(v0: Cluster, ns: string, done: set<Key>, base: Cluster, key: Key)
    requires Based(v0, ns, done, base) && key.ns != ns
    ensures key !in v0.services
  {
  }

  lemma WithoutTwice(made: Made, key: Key)
    ensures Without(Without(made, key), key) == Without(made, key)
  {
  }

  lemma WithThenWithout(made: Made, key: Key, p: Phase)
    ensures Without(MadeWith(made, key, p), key) == Without(made, key)
  {
    hide HasMapped, HasApplied, HasServed;
    assert made.deployments + {key} - {key} == made.deployments - {key};
    assert made.services + {key} - {key} == made.services - {key};
    assert made.configMaps + {key} - {key} == made.configMaps - {key};
  }

  lemma SameKeyAfter(c: Cluster, p: Phase, call: Call)
    ensures var next := Resume(c, p, call).next;
            next.Some? ==> KeyOf(next.value) == KeyOf(p)
  {
    hide FailedStatus, AppliedStatus, FirstHolder, OwnChecks, RenderFor;
  }

  /** What is made in other namespaces does not matter here. */
  lemma OthersMade(v0: Cluster, ns: string, done: set<Key>, base: Cluster, c: Cluster, made: Made, key: Key,
                   other: Made)
    requires Based(v0, ns, done, base) && Overlays(PlanOf(v0), base, c, ns, made) && key.ns != ns
    requires Without(other, key) == Without(made, key)
    ensures Overlays(PlanOf(v0), base, c, ns, other)
  {
    hide Overlays, Settling, Written, Fresh, UidsDistinct;
    forall k | k != key
      ensures k in other.deployments <==> k in made.deployments
      ensures k in other.services <==> k in made.services
      ensures k in other.configMaps <==> k in made.configMaps
    {
      assert k in Without(other, key).deployments <==> k in Without(made, key).deployments;
      assert k in Without(other, key).services <==> k in Without(made, key).services;
      assert k in Without(other, key).configMaps <==> k in Without(made, key).configMaps;
    }
    SameMade(PlanOf(v0), base, c, ns, made, other);
  }

  lemma StartKeepsInv(s: System, worker: nat, key: Key, v0: Cluster, ns: string, done: set<Key>, base: Cluster)
    requires Inv(s, v0, ns, done, base) && Enabled(s, Start(worker, key)) && Quietly(s, Start(worker, key))
    ensures Inv(Step(s, Start(worker, key)), v0, ns, done, base)
  {
    var c := s.world.cluster;
    if key in c.services {
      var first := GetTenant(key, c.services[key]);
      var made := MadeBy(s.workers);
      MadeByMoves(s.workers, worker, first);
      NobodyHas(s.workers, key);
      SameWithFirst(made, key, first);
      if key.ns == ns {
        ReadIsOld(v0, ns, done, base, c, made, key);
        assert Knows(v0, c, first);
      }
      hide Based, Overlays, Knows, PlanOf, OwnKeys, MadeBy;
    }
  }

  lemma NobodyHas(workers: map<nat, Phase>, key: Key)
    requires forall n <- workers :: KeyOf(workers[n]) != key
    ensures var made := MadeBy(workers);
            key !in made.deployments && key !in made.services && key !in made.configMaps
  {
  }

  lemma SameWithFirst(made: Made, key: Key, first: Phase)
    requires first.GetTenant? && key !in made.deployments && key !in made.services && key !in made.configMaps
    ensures MadeWith(made, key, first) == made
  {
  }

  lemma StepKeepsInv(s: System, a: Action, v0: Cluster, ns: string, done: set<Key>, base: Cluster)
    returns (doneNow: set<Key>, baseNow: Cluster)
    requires Inv(s, v0, ns, done, base) && Enabled(s, a) && Quietly(s, a)
    ensures Inv(Step(s, a), v0, ns, doneNow, baseNow) && done <= doneNow
    ensures forall k <- v0.services :: k in Finished(s, a, {}) ==> k in doneNow
  {
    hide Inv;
    doneNow, baseNow := done, base;
    match a {
      case Start(worker, key) => StartKeepsInv(s, worker, key, v0, ns, done, base);
      case Continue(worker, call) =>
        doneNow, baseNow := ContinueKeepsInv(s, worker, call, v0, ns, done, base);
    }
  }

  lemma {:induction false} FinishedGrows(s: System, actions: seq<Action>, one: set<Key>, two: set<Key>)
    requires Runs(s, actions, Quietly)
    ensures FinishedAfter(s, actions, one + two) == FinishedAfter(s, actions, one) + two
    decreases |actions|
  {
    if actions != [] {
      assert Finished(s, actions[0], one + two) == Finished(s, actions[0], one) + two;
      FinishedGrows(Step(s, actions[0]), actions[1..], Finished(s, actions[0], one), two);
    }
  }

  lemma {:induction false} RunKeepsInv(s: System, actions: seq<Action>, v0: Cluster, ns: string, done: set<Key>,
                                       base: Cluster)
    returns (doneNow: set<Key>, baseNow: Cluster)
    requires Inv(s, v0, ns, done, base) && Runs(s, actions, Quietly)
    ensures Inv(Exec(s, actions, Quietly), v0, ns, doneNow, baseNow) && done <= doneNow
    ensures forall k <- v0.services :: k in FinishedAfter(s, actions, {}) ==> k in doneNow
    decreases |actions|
  {
    hide Inv;
    doneNow, baseNow := done, base;
    if actions != [] {
      var a, rest := actions[0], actions[1..];
      var done1, base1 := StepKeepsInv(s, a, v0, ns, done, base);
      doneNow, baseNow := RunKeepsInv(Step(s, a), rest, v0, ns, done1, base1);
      FinishedGrows(Step(s, a), rest, {}, Finished(s, a, {}));
      assert {} + Finished(s, a, {}) == Finished(s, a, {});
    }
  }

  // ---------- the main results ----------

  /** A run from an idle system that reconciles every service of the namespace to the end at least once and leaves no
      worker busy there. */
  ghost predicate Completes(s: System, actions: seq<Action>, ns: string) {
    && s.workers == map[]
    && Runs(s, actions, Quietly)
    && (forall k <- s.world.cluster.services :: k.ns == ns ==> k in FinishedAfter(s, actions, {}))
    && var end := Exec(s, actions, Quietly);
       forall n <- end.workers :: KeyOf(end.workers[n]).ns != ns
  }

  lemma CompletedRunWrites(s: System, actions: seq<Action>, ns: string)
    requires Untouched(s.world.cluster, ns) && Completes(s, actions, ns)
    ensures var v0 := Seen(s.world.cluster, ns);
            Written(v0, v0.services.Keys, Seen(Exec(s, actions, Quietly).world.cluster, ns))
  {
    var v0 := Seen(s.world.cluster, ns);
    InvAtTheStart(s, ns);
    hide Inv, Seen;
    var done, base := RunKeepsInv(s, actions, v0, ns, {}, v0);
    SeenKeys(s.world.cluster, ns);
    EndsWritten(Exec(s, actions, Quietly), v0, ns, done, base);
  }

  lemma InvAtTheStart(s: System, ns: string)
    requires Untouched(s.world.cluster, ns) && s.workers == map[]
    ensures Inv(s, Seen(s.world.cluster, ns), ns, {}, Seen(s.world.cluster, ns))
  {
    var c := s.world.cluster;
    var v0 := Seen(c, ns);
    FreshStart(c, ns);
    NothingWritten(v0);
    NothingMade(PlanOf(v0), c, ns);
    SeenWithin(c, ns);
    hide Seen, Overlays, Fresh, UidsDistinct, Written, View;
    assert MadeBy(s.workers) == NOTHING;
  }

  lemma SeenKeys(c: Cluster, ns: string)
    ensures forall k <- Seen(c, ns).services :: k in c.services && k.ns == ns
  {
  }

  lemma EndsWritten(end: System, v0: Cluster, ns: string, done: set<Key>, base: Cluster)
    requires Inv(end, v0, ns, done, base)
    requires forall k <- v0.services :: k in done
    requires forall n <- end.workers :: KeyOf(end.workers[n]).ns != ns
    ensures Written(v0, v0.services.Keys, Seen(end.world.cluster, ns))
  {
    hide Written, Fresh, UidsDistinct, View, Seen, Overlays, KeyOf, MadeBy, Knows;
    assert done == v0.services.Keys;
    OthersOnly(v0, ns, done, base, end.world.cluster, end.workers);
    AllMade(PlanOf(v0), base, end.world.cluster, ns);
  }

  lemma SeenWithin(c: Cluster, ns: string)
    ensures Seen(c, ns) == View(Seen(c, ns), ns)
  {
  }

  lemma OthersOnly(v0: Cluster, ns: string, done: set<Key>, base: Cluster, c: Cluster, workers: map<nat, Phase>)
    requires Based(v0, ns, done, base) && Overlays(PlanOf(v0), base, c, ns, MadeBy(workers))
    requires forall n <- workers :: KeyOf(workers[n]).ns != ns
    ensures Overlays(PlanOf(v0), base, c, ns, NOTHING)
  {
    hide Overlays, Settling, Written, Fresh, UidsDistinct, KeyOf;
    forall k: Key | k.ns == ns ensures k !in MadeBy(workers).deployments && k !in MadeBy(workers).services
        && k !in MadeBy(workers).configMaps
    {
    }
    hide MadeBy;
    SameMade(PlanOf(v0), base, c, ns, MadeBy(workers), NOTHING);
  }

  /** In a quiet namespace that starts without workloads, reconciles cut at their API calls and interleaved in any way,
      with any number of workers, end in the state that whole reconciles reach one after the other, up to text and
      times. */
  lemma InterleavedIsSequential(s: System, actions: seq<Action>, schedule: seq<Turn>, ns: string)
    requires Untouched(s.world.cluster, ns) && Completes(s, actions, ns)
    requires ValidSchedule(s.world.cluster, schedule) && Covers(s.world.cluster, schedule, ns)
    ensures Seen(Exec(s, actions, Quietly).world.cluster, ns) == Seen(RunAll(s.world.cluster, schedule), ns)
  {
    var v0 := Seen(s.world.cluster, ns);
    CompletedRunWrites(s, actions, ns);
    CoveringScheduleWrites(s.world.cluster, schedule, ns);
    WrittenDetermines(v0, v0.services.Keys, Seen(Exec(s, actions, Quietly).world.cluster, ns),
                      Seen(RunAll(s.world.cluster, schedule), ns));
  }

  /** So two such runs agree with each other. */
  lemma InterleavingsAgree(s: System, one: seq<Action>, two: seq<Action>, ns: string)
    requires Untouched(s.world.cluster, ns) && Completes(s, one, ns) && Completes(s, two, ns)
    ensures Seen(Exec(s, one, Quietly).world.cluster, ns) == Seen(Exec(s, two, Quietly).world.cluster, ns)
  {
    var v0 := Seen(s.world.cluster, ns);
    CompletedRunWrites(s, one, ns);
    CompletedRunWrites(s, two, ns);
    WrittenDetermines(v0, v0.services.Keys, Seen(Exec(s, one, Quietly).world.cluster, ns),
                      Seen(Exec(s, two, Quietly).world.cluster, ns));
  }
}
