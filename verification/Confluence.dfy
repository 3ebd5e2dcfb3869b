/** In a namespace without Deployments and Pods, every schedule of reconciles reaches the same state. */
module Confluence {
  import opened Types
  import opened Conditions
  import opened Render
  import opened Guard
  import opened Reconcile
  import opened Frame
  import opened Isolation
  import opened Claims

  // ---------- states up to message text and transition times ----------

  function EraseService(isvc: InferenceService): InferenceService {
    isvc.(status := isvc.status.(conditions := EraseAll(isvc.status.conditions)))
  }

  function Erase(c: Cluster): Cluster {
    c.(services := map k | k in c.services :: EraseService(c.services[k]))
  }

  function EraseWrites(w: Writes): Writes {
    if w.isvc.Some? then w.(isvc := Some(EraseService(w.isvc.value))) else w
  }

  /** What the service's next reconcile writes, up to text and times: no clock and no list order left. */
  ghost function Settling(c: Cluster, key: Key): Writes
    requires key in c.services
  {
    var conflict := if Conflicted(c, key, c.services[key]) then Some(Silent) else None;
    EraseWrites(WritesOf(c, key, OutcomeOf(c, key, conflict), EPOCH))
  }

  ghost function Settle(c: Cluster, key: Key): Cluster {
    if key in c.services then Write(c, key, Settling(c, key)) else c
  }

  lemma EraseWrite(c: Cluster, key: Key, w: Writes)
    ensures Erase(Write(c, key, w)) == Write(Erase(c), key, EraseWrites(w))
  {
  }

  ghost predicate SameOutcomeUpToText(a: Outcome, b: Outcome) {
    || a == b
    || (a.Refused? && b.Refused? && a.reason == b.reason)
  }

  lemma EraseWritesOf(c: Cluster, key: Key, outcome: Outcome, other: Outcome, now: Clock)
    requires key in c.services
    requires SameOutcomeUpToText(outcome, other)
    ensures EraseWrites(WritesOf(c, key, outcome, now)) == EraseWrites(WritesOf(Erase(c), key, other, EPOCH))
  {
    var isvc := c.services[key];
    var cs, g := isvc.status.conditions, isvc.generation;
    match outcome {
      case Refused(reason, message) =>
        EraseFailed(cs, g, reason, message, now);
        EraseFailedOnce(EraseAll(cs), g, reason, other.message, EPOCH);
        EraseFailedOnce(EraseAll(cs), g, reason, Silent, EPOCH);
      case RenderFailed(message) =>
        EraseFailed(cs, g, InvalidConfig, message, now);
        EraseFailedOnce(EraseAll(cs), g, InvalidConfig, message, EPOCH);
        EraseFailedOnce(EraseAll(cs), g, InvalidConfig, Silent, EPOCH);
      case Succeeded(template, tenant, model) =>
        EraseApplied(cs, g, IsAvailable(DeploymentStatus(c, key)), now);
      case _ =>
    }
  }

  lemma EraseKeepsConflicts(c: Cluster, key: Key)
    requires key in c.services
    ensures Conflicted(Erase(c), key, Erase(c).services[key]) <==> Conflicted(c, key, c.services[key])
  {
    forall holder, k
      ensures HoldsClaim(holder, Erase(c), key, Erase(c).services[key], k)
          <==> HoldsClaim(holder, c, key, c.services[key], k)
    {
      HoldersUnchanged(c, Erase(c), key, c.services[key], Erase(c).services[key], holder, k);
    }
  }

  /** Up to text and times a reconcile is a function of the state alone. */
  lemma ReconcileSettles(c: Cluster, key: Key, call: Call)
    requires Lists(call.order, c, key.ns)
    ensures Erase(Reconciled(c, key, call)) == Settle(Erase(c), key)
  {
    if key in c.services {
      var isvc := c.services[key];
      GuardIsExact(c, key, isvc, call.order);
      EraseKeepsConflicts(c, key);
      var e := Erase(c);
      var quiet := if Conflicted(e, key, e.services[key]) then Some(Silent) else None;
      assert Checks(e, key, e.services[key]) == Checks(c, key, isvc);
      var outcome, other := Ending(c, key, call), OutcomeOf(e, key, quiet);
      assert SameOutcomeUpToText(outcome, other);
      EraseWrite(c, key, WritesOf(c, key, outcome, call.now));
      EraseWritesOf(c, key, outcome, other, call.now);
    }
  }

  // ---------- schedules ----------

  datatype Turn = Turn(key: Key, call: Call)

  function RunAll(c: Cluster, schedule: seq<Turn>): Cluster
    decreases |schedule|
  {
    if schedule == [] then c else RunAll(Reconciled(c, schedule[0].key, schedule[0].call), schedule[1..])
  }

  /** Each turn's lists enumerate the namespace as it then is. */
  ghost predicate ValidSchedule(c: Cluster, schedule: seq<Turn>)
    decreases |schedule|
  {
    schedule == [] ||
    (var turn := schedule[0];
     Lists(turn.call.order, c, turn.key.ns) && ValidSchedule(Reconciled(c, turn.key, turn.call), schedule[1..]))
  }

  /** The services of `ns` that get a turn. */
  function Turned(schedule: seq<Turn>, ns: string): set<Key> {
    set turn <- schedule | turn.key.ns == ns :: turn.key
  }

  // ---------- the state after a set of services has had its turn ----------

  ghost function ServiceAfter(v0: Cluster, done: set<Key>, k: Key): Option<InferenceService>
    requires done <= v0.services.Keys
  {
    if k in done && Settling(v0, k).isvc.Some? then Settling(v0, k).isvc else Lookup(v0.services, k)
  }

  ghost function DeploymentAfter(v0: Cluster, done: set<Key>, k: Key): Option<Deployment>
    requires done <= v0.services.Keys
  {
    if k in done && Settling(v0, k).deployment.Some? then Settling(v0, k).deployment else Lookup(v0.deployments, k)
  }

  ghost function KubeServiceAfter(v0: Cluster, done: set<Key>, k: Key): Option<Service>
    requires done <= v0.services.Keys
  {
    if k in done && Settling(v0, k).service.Some? then Settling(v0, k).service
    else Lookup(v0.kubeServices, ServiceKey(k))
  }

  ghost predicate AppliesConfigMap(v0: Cluster, k: Key, ns: string)
    requires k in v0.services
  {
    k.ns == ns && Settling(v0, k).configMap
  }

  ghost function ConfigMapAfter(v0: Cluster, done: set<Key>, ns: string): Option<map<string, string>>
    requires done <= v0.services.Keys
  {
    if exists k <- done :: AppliesConfigMap(v0, k, ns) then Some(GaiConfigMap()) else Lookup(v0.configMaps, GaiKey(ns))
  }

  /** v is v0 with the writes that each service of `done` would do alone, starting from v0. */
  ghost predicate Written(v0: Cluster, done: set<Key>, v: Cluster)
    requires done <= v0.services.Keys
  {
    && v.models == v0.models && v.tenant == v0.tenant && v.pods == v0.pods
    && (forall k :: Lookup(v.services, k) == ServiceAfter(v0, done, k))
    && (forall k :: Lookup(v.deployments, k) == DeploymentAfter(v0, done, k))
    && KubeServicesWritten(v0, done, v.kubeServices)
    && ConfigMapsWritten(v0, done, v.configMaps)
  }

  ghost predicate KubeServicesWritten(v0: Cluster, done: set<Key>, kubeServices: map<Key, Service>)
    requires done <= v0.services.Keys
  {
    && (forall k: Key :: Lookup(kubeServices, ServiceKey(k)) == KubeServiceAfter(v0, done, k))
    && (forall s: Key :: (forall k: Key :: ServiceKey(k) != s) ==>
        Lookup(kubeServices, s) == Lookup(v0.kubeServices, s))
  }

  ghost predicate ConfigMapsWritten(v0: Cluster, done: set<Key>, configMaps: map<Key, map<string, string>>)
    requires done <= v0.services.Keys
  {
    && (forall ns: string :: Lookup(configMaps, GaiKey(ns)) == ConfigMapAfter(v0, done, ns))
    && (forall m: Key :: (forall ns: string :: GaiKey(ns) != m) ==> Lookup(configMaps, m) == Lookup(v0.configMaps, m))
  }

  lemma WrittenDetermines(v0: Cluster, done: set<Key>, v1: Cluster, v2: Cluster)
    requires done <= v0.services.Keys
    requires Written(v0, done, v1) && Written(v0, done, v2)
    ensures v1 == v2
  {
    SameMap(v1.services, v2.services);
    SameMap(v1.deployments, v2.deployments);
    forall s ensures Lookup(v1.kubeServices, s) == Lookup(v2.kubeServices, s) {
      if k: Key :| ServiceKey(k) == s {
        assert Lookup(v1.kubeServices, ServiceKey(k)) == Lookup(v2.kubeServices, ServiceKey(k));
      }
    }
    SameMap(v1.kubeServices, v2.kubeServices);
    forall m ensures Lookup(v1.configMaps, m) == Lookup(v2.configMaps, m) {
      if ns: string :| GaiKey(ns) == m {
        assert Lookup(v1.configMaps, GaiKey(ns)) == Lookup(v2.configMaps, GaiKey(ns));
      }
    }
    SameMap(v1.configMaps, v2.configMaps);
  }

  lemma NothingWritten(v0: Cluster)
    ensures Written(v0, {}, v0)
  {
  }

  /** One more turn, provided the service writes what it would have written from the start. */
  lemma WriteOne(v0: Cluster, done: set<Key>, v: Cluster, key: Key)
    requires done <= v0.services.Keys && key in v0.services
    requires Written(v0, done, v)
    ensures Written(v0, done + {key}, Write(v, key, Settling(v0, key)))
  {
    var w := Settling(v0, key);
    var after := Write(v, key, w);
    forall k ensures Lookup(after.services, k) == ServiceAfter(v0, done + {key}, k) {
      assert Lookup(v.services, k) == ServiceAfter(v0, done, k);
    }
    forall k ensures Lookup(after.deployments, k) == DeploymentAfter(v0, done + {key}, k) {
      assert Lookup(v.deployments, k) == DeploymentAfter(v0, done, k);
    }
    WriteOneService(v0, done, v, key);
    WriteOneConfigMap(v0, done, v, key);
  }

  lemma WriteOneService(v0: Cluster, done: set<Key>, v: Cluster, key: Key)
    requires done <= v0.services.Keys && key in v0.services
    requires KubeServicesWritten(v0, done, v.kubeServices)
    ensures KubeServicesWritten(v0, done + {key}, Put(v.kubeServices, ServiceKey(key), Settling(v0, key).service))
  {
    var after := Put(v.kubeServices, ServiceKey(key), Settling(v0, key).service);
    forall k: Key ensures Lookup(after, ServiceKey(k)) == KubeServiceAfter(v0, done + {key}, k) {
      assert Lookup(v.kubeServices, ServiceKey(k)) == KubeServiceAfter(v0, done, k);
      if ServiceKey(k) == ServiceKey(key) {
        ServiceKeyInjective(k, key);
      }
    }
  }

  lemma WriteOneConfigMap(v0: Cluster, done: set<Key>, v: Cluster, key: Key)
    requires done <= v0.services.Keys && key in v0.services
    requires ConfigMapsWritten(v0, done, v.configMaps)
    ensures ConfigMapsWritten(v0, done + {key},
              Put(v.configMaps, GaiKey(key.ns), if Settling(v0, key).configMap then Some(GaiConfigMap()) else None))
  {
    var after := Put(v.configMaps, GaiKey(key.ns), if Settling(v0, key).configMap then Some(GaiConfigMap()) else None);
    forall ns: string ensures Lookup(after, GaiKey(ns)) == ConfigMapAfter(v0, done + {key}, ns) {
      assert Lookup(v.configMaps, GaiKey(ns)) == ConfigMapAfter(v0, done, ns);
      assert (exists k <- done + {key} :: AppliesConfigMap(v0, k, ns))
        <==> (exists k <- done :: AppliesConfigMap(v0, k, ns)) || AppliesConfigMap(v0, key, ns);
    }
  }

  // ---------- turns do not disturb each other ----------

  /** A namespace before anything was applied. */
  ghost predicate Fresh(v0: Cluster) {
    v0 == Erase(v0) && v0.deployments == map[] && v0.pods == map[]
  }

  /** What is mounted after some turns is mounted by winners, and a winner is least. */
  lemma WinnersMount(v0: Cluster, key: Key, claim: string)
    requires Fresh(v0) && key in v0.services
    requires Settling(v0, key).deployment.Some?
    ensures Least(v0, key)
    ensures var d := Settling(v0, key).deployment.value;
            && ControlledBy(d, v0.services[key])
            && d.conditions == []
            && (MountsClaim(d.template.spec, claim) <==> claim == v0.services[key].Claim())
  {
    var isvc := v0.services[key];
    ConflictedMeans(v0, key);
    var checks := Checks(v0, key, isvc);
    RenderedMountsExactly(key.name, isvc.spec, isvc.spec.modelRef, checks.model, TenantConfig(checks.tenant), claim);
  }

  ghost predicate UidsDistinct(c: Cluster) {
    forall a, b :: a in c.services && b in c.services && c.services[a].uid == c.services[b].uid ==> a == b
  }

  lemma WrittenKeepsServices(v0: Cluster, done: set<Key>, v: Cluster)
    requires done <= v0.services.Keys
    requires Written(v0, done, v)
    ensures SameButStatus(v0, v)
  {
    forall k ensures k in v.services <==> k in v0.services {
      assert Lookup(v.services, k) == ServiceAfter(v0, done, k);
    }
    forall k | k in v0.services
      ensures v.services[k] == v0.services[k].(status := v.services[k].status)
    {
      assert Lookup(v.services, k) == ServiceAfter(v0, done, k);
    }
  }

  /** The guard's verdict is the sibling rule alone, before and after any turns. */
  lemma SiblingsDecide(v0: Cluster, done: set<Key>, v: Cluster, key: Key)
    requires Fresh(v0) && UidsDistinct(v0)
    requires done <= v0.services.Keys && Written(v0, done, v)
    requires key in v0.services && (forall k <- v0.services :: k.ns == key.ns)
    ensures key in v.services
    ensures Conflicted(v, key, v.services[key]) <==> Conflicted(v0, key, v0.services[key])
    ensures Conflicted(v0, key, v0.services[key]) <==> !Least(v0, key)
  {
    WrittenKeepsServices(v0, done, v);
    var isvc, later := v0.services[key], v.services[key];
    ConflictedMeans(v0, key);
    forall k ensures HoldsClaim(OlderSibling, v, key, later, k) <==> HoldsClaim(OlderSibling, v0, key, isvc, k) {
    }
    forall holder, k | HoldsClaim(holder, v, key, later, k)
      ensures !Least(v0, key)
    {
      match holder {
        case OlderSibling =>
          assert HoldsClaim(OlderSibling, v0, key, isvc, k);
        case OtherDeployment =>
          assert Lookup(v.deployments, k) == DeploymentAfter(v0, done, k);
          WinnersMount(v0, k, isvc.Claim());
          assert k != key;
          LeastBeats(v0, k, key);
        case StandalonePod =>
      }
    }
    if Conflicted(v0, key, isvc) {
      var k :| HoldsClaim(OlderSibling, v0, key, isvc, k);
      assert HoldsClaim(OlderSibling, v, key, later, k);
    }
  }

  /** How the service's next reconcile ends in v0, by the sibling rule alone. */
  ghost function Verdict(v0: Cluster, key: Key): Outcome
    requires key in v0.services
  {
    OutcomeOf(v0, key, if Least(v0, key) then None else Some(Silent))
  }

  /** What a service's turn writes, seen from any state after some turns. */
  lemma SettlingLater(v0: Cluster, done: set<Key>, v: Cluster, key: Key)
    requires Fresh(v0) && UidsDistinct(v0)
    requires done <= v0.services.Keys && Written(v0, done, v)
    requires key in v0.services && (forall k <- v0.services :: k.ns == key.ns)
    ensures key in v.services
    ensures Settling(v, key) == EraseWrites(WritesOf(v, key, Verdict(v0, key), EPOCH))
    ensures Settling(v0, key) == EraseWrites(WritesOf(v0, key, Verdict(v0, key), EPOCH))
  {
    SiblingsDecide(v0, done, v, key);
    WrittenKeepsServices(v0, done, v);
    NothingTakenByTurns(v0, done, v, key);
    assert Checks(v, key, v.services[key]) == Checks(v0, key, v0.services[key]);
    var conflict := if Least(v0, key) then None else Some(Silent);
    assert OutcomeOf(v, key, conflict) == OutcomeOf(v0, key, conflict);
  }

  /** A service's turn writes the same thing whoever had a turn before, itself included. */
  lemma TurnsAreIndependent(v0: Cluster, done: set<Key>, v: Cluster, key: Key)
    requires Fresh(v0) && UidsDistinct(v0)
    requires done <= v0.services.Keys && Written(v0, done, v)
    requires key in v0.services && (forall k <- v0.services :: k.ns == key.ns)
    ensures key in v.services && Settling(v, key) == Settling(v0, key)
  {
    SettlingLater(v0, done, v, key);
    NothingTakenByTurns(v0, done, v, key);
    hide Settling, Verdict, Written, Fresh, UidsDistinct;
    SameStatusAgain(v0, done, v, key, Verdict(v0, key));
  }

  lemma NothingTakenByTurns(v0: Cluster, done: set<Key>, v: Cluster, key: Key)
    requires Fresh(v0)
    requires done <= v0.services.Keys && Written(v0, done, v)
    requires key in v0.services
    ensures DeploymentStatus(v, key) == DeploymentStatus(v0, key) == []
    ensures !DeploymentTaken(v, key, v0.services[key].uid) && !DeploymentTaken(v0, key, v0.services[key].uid)
    ensures ServiceTaken(v, key, v0.services[key].uid) <==> ServiceTaken(v0, key, v0.services[key].uid)
  {
    assert Lookup(v.deployments, key) == DeploymentAfter(v0, done, key);
    if Settling(v0, key).deployment.Some? {
      WinnersMount(v0, key, "");
    }
    assert Lookup(v.kubeServices, ServiceKey(key)) == KubeServiceAfter(v0, done, key);
  }

  lemma SameStatusAgain(v0: Cluster, done: set<Key>, v: Cluster, key: Key, outcome: Outcome)
    requires Fresh(v0)
    requires done <= v0.services.Keys && Written(v0, done, v)
    requires key in v0.services && key in v.services
    requires Settling(v0, key) == EraseWrites(WritesOf(v0, key, outcome, EPOCH))
    requires DeploymentStatus(v, key) == DeploymentStatus(v0, key) == []
    ensures EraseWrites(WritesOf(v, key, outcome, EPOCH)) == Settling(v0, key)
  {
    var isvc := v0.services[key];
    var cs, g := isvc.status.conditions, isvc.generation;
    assert Lookup(v.services, key) == ServiceAfter(v0, done, key);
    if key in done {
      match outcome {
        case Refused(reason, message) => ErasedFailedTwice(cs, g, reason, message);
        case RenderFailed(message) => ErasedFailedTwice(cs, g, InvalidConfig, message);
        case Succeeded(template, tenant, model) => ErasedAppliedTwice(cs, g);
        case _ =>
      }
    }
  }

  lemma ErasedFailedTwice(cs: seq<Condition>, g: nat, reason: Reason, message: Message)
    ensures var once := EraseAll(FailedConditions(cs, g, reason, message, EPOCH));
            EraseAll(FailedConditions(once, g, reason, message, EPOCH)) == once
  {
    var once := EraseAll(FailedConditions(cs, g, reason, message, EPOCH));
    EraseFailedOnce(cs, g, reason, message, EPOCH);
    EraseFailedOnce(once, g, reason, message, EPOCH);
    EraseTwice(FailedConditions(cs, g, reason, message, EPOCH));
    FailedTwice(EraseAll(cs), g, reason, Silent, EPOCH, EPOCH);
  }

  lemma ErasedAppliedTwice(cs: seq<Condition>, g: nat)
    ensures var once := EraseAll(AppliedConditions(cs, g, false, EPOCH));
            EraseAll(AppliedConditions(once, g, false, EPOCH)) == once
  {
    var raw := AppliedConditions(cs, g, false, EPOCH);
    EraseApplied(raw, g, false, EPOCH);
    AppliedTwice(cs, g, false, EPOCH, EPOCH);
  }

  // ---------- the main results ----------

  /** The namespace up to text and times. */
  function Seen(c: Cluster, ns: string): Cluster {
    Erase(View(c, ns))
  }

  lemma SeenSettles(c: Cluster, turn: Turn, ns: string)
    requires Lists(turn.call.order, c, turn.key.ns)
    ensures Seen(Reconciled(c, turn.key, turn.call), ns)
         == if turn.key.ns == ns then Settle(Seen(c, ns), turn.key) else Seen(c, ns)
  {
    ReconcileIsLocal(c, turn.key, Conflict(c, turn.key, turn.call.order), turn.call.now, ns);
    if turn.key.ns == ns {
      ViewTwice(c, ns);
      GuardIsLocal(c, View(c, ns), turn.key, turn.call.order);
      assert View(Reconciled(c, turn.key, turn.call), ns) == Reconciled(View(c, ns), turn.key, turn.call);
      ReconcileSettles(View(c, ns), turn.key, turn.call);
    }
  }

  /** No Deployment and no Pod in the namespace, and no uid used twice. */
  ghost predicate Untouched(c: Cluster, ns: string) {
    && (forall k <- c.deployments :: k.ns != ns)
    && (forall k <- c.pods :: k.ns != ns)
    && UidsDistinct(c)
  }

  lemma SettleWrites(v0: Cluster, done: set<Key>, v: Cluster, key: Key)
    requires Fresh(v0) && UidsDistinct(v0) && (forall k <- v0.services :: k.ns == key.ns)
    requires done <= v0.services.Keys && Written(v0, done, v)
    ensures Written(v0, done + {key} * v0.services.Keys, Settle(v, key))
  {
    WrittenKeepsServices(v0, done, v);
    if key in v0.services {
      TurnsAreIndependent(v0, done, v, key);
      WriteOne(v0, done, v, key);
      assert {key} * v0.services.Keys == {key};
    } else {
      assert done + {key} * v0.services.Keys == done;
    }
  }

  lemma TurnedFirst(schedule: seq<Turn>, ns: string)
    requires schedule != []
    ensures Turned(schedule, ns) ==
            (if schedule[0].key.ns == ns then {schedule[0].key} else {}) + Turned(schedule[1..], ns)
  {
    assert schedule == [schedule[0]] + schedule[1..];
  }

  lemma {:induction false} ScheduleWrites(v0: Cluster, done: set<Key>, c: Cluster, schedule: seq<Turn>, ns: string)
    requires Fresh(v0) && UidsDistinct(v0) && (forall k <- v0.services :: k.ns == ns)
    requires done <= v0.services.Keys && Written(v0, done, Seen(c, ns))
    requires ValidSchedule(c, schedule)
    ensures Written(v0, done + Turned(schedule, ns) * v0.services.Keys, Seen(RunAll(c, schedule), ns))
    decreases |schedule|
  {
    hide Seen, Written, Settle, Fresh, UidsDistinct;
    if schedule == [] {
      assert done + Turned(schedule, ns) * v0.services.Keys == done;
    } else {
      var turn, rest := schedule[0], schedule[1..];
      SeenSettles(c, turn, ns);
      TurnedFirst(schedule, ns);
      var more := done;
      if turn.key.ns == ns {
        SettleWrites(v0, done, Seen(c, ns), turn.key);
        more := done + {turn.key} * v0.services.Keys;
      }
      ScheduleWrites(v0, more, Reconciled(c, turn.key, turn.call), rest, ns);
      assert more + Turned(rest, ns) * v0.services.Keys == done + Turned(schedule, ns) * v0.services.Keys;
    }
  }

  /** Every service of the namespace gets at least one turn. */
  ghost predicate Covers(c: Cluster, schedule: seq<Turn>, ns: string) {
    forall k <- c.services :: k.ns == ns ==> k in Turned(schedule, ns)
  }

  lemma CoveringScheduleWrites(c: Cluster, schedule: seq<Turn>, ns: string)
    requires Untouched(c, ns) && ValidSchedule(c, schedule) && Covers(c, schedule, ns)
    ensures var v0 := Seen(c, ns);
            Fresh(v0) && Written(v0, v0.services.Keys, Seen(RunAll(c, schedule), ns))
  {
    var v0 := Seen(c, ns);
    FreshStart(c, ns);
    hide Fresh, UidsDistinct, Written, RunAll;
    NothingWritten(v0);
    ScheduleWrites(v0, {}, c, schedule, ns);
    assert {} + Turned(schedule, ns) * v0.services.Keys == v0.services.Keys;
  }

  lemma FreshStart(c: Cluster, ns: string)
    requires Untouched(c, ns)
    ensures Fresh(Seen(c, ns)) && UidsDistinct(Seen(c, ns)) && forall k <- Seen(c, ns).services :: k.ns == ns
  {
    var v0 := Seen(c, ns);
    forall k | k in v0.services ensures EraseService(v0.services[k]) == v0.services[k] {
      EraseTwice(c.services[k].status.conditions);
    }
    assert v0.services == Erase(v0).services;
  }

  /** Any two schedules that give every service a turn, of any length, in any order, mixed with any turns in
      other namespaces, at any times and with lists in any order, leave the namespace the same up to text and
      times. */
  lemma SchedulesAgree(c: Cluster, one: seq<Turn>, two: seq<Turn>, ns: string)
    requires Untouched(c, ns)
    requires ValidSchedule(c, one) && Covers(c, one, ns)
    requires ValidSchedule(c, two) && Covers(c, two, ns)
    ensures Seen(RunAll(c, one), ns) == Seen(RunAll(c, two), ns)
  {
    CoveringScheduleWrites(c, one, ns);
    CoveringScheduleWrites(c, two, ns);
    var v0 := Seen(c, ns);
    WrittenDetermines(v0, v0.services.Keys, Seen(RunAll(c, one), ns), Seen(RunAll(c, two), ns));
  }

  /** At the end a service is Configured exactly when its own checks pass and it is least among the services
      with its claim; only a service whose Service object belongs to another controller keeps its old status. */
  lemma ConfiguredAtTheEnd(c: Cluster, schedule: seq<Turn>, ns: string, key: Key)
    requires Untouched(c, ns) && ValidSchedule(c, schedule) && Covers(c, schedule, ns)
    requires key in c.services && key.ns == ns
    ensures var end := RunAll(c, schedule);
            var wins := Renders(c, key) && Least(c, key);
            && key in end.services
            && (Holds(end.services[key].status.conditions, Configured)
                <==> wins && (ServiceTaken(c, key, c.services[key].uid) ==>
                    Holds(c.services[key].status.conditions, Configured)))
            && (key in end.deployments <==> wins)
  {
    hide FailedConditions, AppliedConditions, RenderDeployment, EndpointURL;
    var end := RunAll(c, schedule);
    var v0, v := Seen(c, ns), Seen(end, ns);
    CoveringScheduleWrites(c, schedule, ns);
    FreshStart(c, ns);
    SeenAt(c, ns, key);
    SeenAt(end, ns, key);
    assert Lookup(v.services, key) == ServiceAfter(v0, v0.services.Keys, key);
    assert Lookup(v.deployments, key) == DeploymentAfter(v0, v0.services.Keys, key);
    SameVerdictSeen(c, ns, key);
    WinsAlone(v0, key);
    hide Seen, Settling, Written, Fresh, UidsDistinct, Renders, Least;
    EraseFind(c.services[key].status.conditions, Configured);
    EraseFind(end.services[key].status.conditions, Configured);
  }

  lemma SeenAt(c: Cluster, ns: string, key: Key)
    requires key.ns == ns
    ensures Lookup(Seen(c, ns).services, key) ==
            (if key in c.services then Some(EraseService(c.services[key])) else None)
    ensures Lookup(Seen(c, ns).deployments, key) == Lookup(c.deployments, key)
  {
  }

  lemma FreshOutcome(v0: Cluster, key: Key, outcome: Outcome)
    requires Fresh(v0) && UidsDistinct(v0)
    requires key in v0.services && (forall k <- v0.services :: k.ns == key.ns)
    requires outcome == OutcomeOf(v0, key, if Conflicted(v0, key, v0.services[key]) then Some(Silent) else None)
    ensures var wins := Renders(v0, key) && Least(v0, key);
            var taken := ServiceTaken(v0, key, v0.services[key].uid);
            && !outcome.DeploymentRejected? && !outcome.Gone?
            && (outcome.Succeeded? <==> wins && !taken)
            && (outcome.ServiceRejected? <==> wins && taken)
  {
    NothingWritten(v0);
    SiblingsDecide(v0, {}, v0, key);
    NothingTakenByTurns(v0, {}, v0, key);
  }

  /** The same for the service's turn taken alone. */
  lemma WinsAlone(v0: Cluster, key: Key)
    requires Fresh(v0) && UidsDistinct(v0)
    requires key in v0.services && (forall k <- v0.services :: k.ns == key.ns)
    ensures var wins := Renders(v0, key) && Least(v0, key);
            && (Settling(v0, key).deployment.Some? <==> wins)
            && (var after := ServiceAfter(v0, v0.services.Keys, key);
                && after.Some?
                && (Holds(after.value.status.conditions, Configured)
                    <==> wins && (ServiceTaken(v0, key, v0.services[key].uid) ==>
                        Holds(v0.services[key].status.conditions, Configured))))
  {
    var outcome := OutcomeOf(v0, key, if Conflicted(v0, key, v0.services[key]) then Some(Silent) else None);
    FreshOutcome(v0, key, outcome);
    SettledConfigured(v0, key, outcome);
  }

  lemma SettledConfigured(v0: Cluster, key: Key, outcome: Outcome)
    requires key in v0.services && !outcome.Gone?
    ensures var w := EraseWrites(WritesOf(v0, key, outcome, EPOCH));
            && (w.isvc.None? <==> outcome.DeploymentRejected? || outcome.ServiceRejected?)
            && (w.isvc.Some? ==> (Holds(w.isvc.value.status.conditions, Configured) <==> outcome.Succeeded?))
  {
    var cs, g := v0.services[key].status.conditions, v0.services[key].generation;
    match outcome {
      case Refused(reason, message) =>
        FailedFind(cs, g, reason, message, EPOCH, Configured);
        EraseFind(FailedConditions(cs, g, reason, message, EPOCH), Configured);
      case RenderFailed(message) =>
        FailedFind(cs, g, InvalidConfig, message, EPOCH, Configured);
        EraseFind(FailedConditions(cs, g, InvalidConfig, message, EPOCH), Configured);
      case Succeeded(template, tenant, model) =>
        var available := IsAvailable(DeploymentStatus(v0, key));
        AppliedFind(cs, g, available, EPOCH, Configured);
        EraseFind(AppliedConditions(cs, g, available, EPOCH), Configured);
      case _ =>
    }
  }

  lemma SameVerdictSeen(c: Cluster, ns: string, key: Key)
    requires key in c.services && key.ns == ns && key in Seen(c, ns).services
    ensures var v0 := Seen(c, ns);
            && v0.services[key] == EraseService(c.services[key])
            && (Renders(v0, key) <==> Renders(c, key))
            && (Least(v0, key) <==> Least(c, key))
            && (ServiceTaken(v0, key, c.services[key].uid) <==> ServiceTaken(c, key, c.services[key].uid))
  {
    var v0 := Seen(c, ns);
    var isvc := c.services[key];
    assert Lookup(v0.models, ModelKey(key, isvc)) == Lookup(c.models, ModelKey(key, isvc));
    forall k ensures HoldsClaim(OlderSibling, v0, key, v0.services[key], k)
        <==> HoldsClaim(OlderSibling, c, key, isvc, k)
    {
    }
  }
}
