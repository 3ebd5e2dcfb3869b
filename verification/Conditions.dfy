/** Status conditions: the upsert behind setCondition and the two status writers. */
module Conditions {
  import opened Types

  function Find(cs: seq<Condition>, kind: ConditionType): Option<Condition> {
    if cs == [] then None
    else if cs[0].kind == kind then Some(cs[0])
    else Find(cs[1..], kind)
  }

  predicate Holds(cs: seq<Condition>, kind: ConditionType) {
    Find(cs, kind).Some? && Find(cs, kind).value.status == True
  }

  /** Upsert by type: the first condition of the type is overwritten, keeping its transition time
      unless the status changes; a condition of a new type goes to the end. */
  function Upsert(cs: seq<Condition>, written: Condition): seq<Condition> {
    if cs == [] then [written]
    else if cs[0].kind == written.kind then
      [if cs[0].status == written.status then written.(since := cs[0].since) else written] + cs[1..]
    else [cs[0]] + Upsert(cs[1..], written)
  }

  /** The conditions a failed reconcile writes. */
  function FailedConditions(cs: seq<Condition>, generation: nat, reason: Reason, message: Message,
                            now: Clock): seq<Condition>
  {
    var cs1 := Upsert(cs, Condition(Configured, False, reason, message, generation, now.configured));
    var cs2 := Upsert(cs1, Condition(Ready, False, reason, message, generation, now.ready));
    Upsert(cs2, Condition(Progressing, False, reason, message, generation, now.progressing))
  }

  /** The conditions a reconcile writes after it applied the children. */
  function AppliedConditions(cs: seq<Condition>, generation: nat, available: bool, now: Clock): seq<Condition> {
    var cs1 := Upsert(cs, Condition(Configured, True, ConfiguredReason, WorkloadApplied, generation, now.configured));
    if available then
      var cs2 := Upsert(cs1, Condition(WorkloadAvailable, True, WorkloadReady, DeploymentIsAvailable, generation,
          now.workloadAvailable));
      var cs3 := Upsert(cs2, Condition(Ready, True, WorkloadReady, WorkloadServing, generation, now.ready));
      Upsert(cs3, Condition(Progressing, False, WorkloadReady, RolloutComplete, generation, now.progressing))
    else
      var cs2 := Upsert(cs1, Condition(WorkloadAvailable, False, WorkloadPending, NotYetAvailable, generation,
          now.workloadAvailable));
      var cs3 := Upsert(cs2, Condition(Ready, False, WorkloadPending, NotYetAvailable, generation, now.ready));
      Upsert(cs3, Condition(Progressing, True, Deploying, NotYetAvailable, generation, now.progressing))
  }

  // ---------- what an upsert does ----------

  lemma {:induction false} UpsertFind(cs: seq<Condition>, written: Condition, kind: ConditionType)
    ensures kind != written.kind ==> Find(Upsert(cs, written), kind) == Find(cs, kind)
    ensures Find(Upsert(cs, written), written.kind) ==
            Some(match Find(cs, written.kind)
                 case None => written
                 case Some(was) => if was.status == written.status then written.(since := was.since) else written)
  {
    if cs != [] {
      UpsertFind(cs[1..], written, kind);
    }
  }

  /** Writing what is already there, at any later time, writes nothing. */
  lemma {:induction false} UpsertSettled(cs: seq<Condition>, written: Condition)
    requires Find(cs, written.kind).Some? && Find(cs, written.kind).value.(since := written.since) == written
    ensures Upsert(cs, written) == cs
  {
    if cs[0].kind == written.kind {
      assert [cs[0]] + cs[1..] == cs;
    } else {
      UpsertSettled(cs[1..], written);
      assert [cs[0]] + cs[1..] == cs;
    }
  }

  ghost predicate UniqueKinds(cs: seq<Condition>) {
    forall i, j :: 0 <= i < j < |cs| ==> cs[i].kind != cs[j].kind
  }

  ghost predicate GenerationsUpTo(cs: seq<Condition>, generation: nat) {
    forall i :: 0 <= i < |cs| ==> cs[i].observedGeneration <= generation
  }

  lemma {:induction false} UpsertKinds(cs: seq<Condition>, written: Condition)
    ensures UniqueKinds(cs) ==> UniqueKinds(Upsert(cs, written))
    ensures forall g :: GenerationsUpTo(cs, g) && written.observedGeneration <= g ==>
        GenerationsUpTo(Upsert(cs, written), g)
    ensures forall c <- Upsert(cs, written) :: c.kind == written.kind || c in cs
  {
    if cs != [] {
      UpsertKinds(cs[1..], written);
      forall g | GenerationsUpTo(cs, g) ensures GenerationsUpTo(cs[1..], g) {}
    }
  }

  // ---------- the invariant of a service's conditions ----------

  ghost predicate Coherent(cs: seq<Condition>) {
    && (Holds(cs, Ready) <==> Holds(cs, Configured) && Holds(cs, WorkloadAvailable))
    && (Holds(cs, Progressing) <==> Holds(cs, Configured) && !Holds(cs, WorkloadAvailable))
  }

  /** What a failed write leaves for each type; WorkloadAvailable stays as it was. */
  lemma FailedFind(cs: seq<Condition>, generation: nat, reason: Reason, message: Message, now: Clock,
                   kind: ConditionType)
    ensures var found := Find(FailedConditions(cs, generation, reason, message, now), kind);
            if kind == WorkloadAvailable then found == Find(cs, kind)
            else found.Some? && found.value == Condition(kind, False, reason, message, generation, found.value.since)
  {
    var cs1 := Upsert(cs, Condition(Configured, False, reason, message, generation, now.configured));
    var cs2 := Upsert(cs1, Condition(Ready, False, reason, message, generation, now.ready));
    UpsertFind(cs, Condition(Configured, False, reason, message, generation, now.configured), kind);
    UpsertFind(cs1, Condition(Ready, False, reason, message, generation, now.ready), kind);
    UpsertFind(cs2, Condition(Progressing, False, reason, message, generation, now.progressing), kind);
  }

  function AppliedCondition(kind: ConditionType, generation: nat, available: bool, since: nat): Condition {
    match kind
    case Configured => Condition(Configured, True, ConfiguredReason, WorkloadApplied, generation, since)
    case WorkloadAvailable =>
      if available then Condition(WorkloadAvailable, True, WorkloadReady, DeploymentIsAvailable, generation, since)
      else Condition(WorkloadAvailable, False, WorkloadPending, NotYetAvailable, generation, since)
    case Ready =>
      if available then Condition(Ready, True, WorkloadReady, WorkloadServing, generation, since)
      else Condition(Ready, False, WorkloadPending, NotYetAvailable, generation, since)
    case Progressing =>
      if available then Condition(Progressing, False, WorkloadReady, RolloutComplete, generation, since)
      else Condition(Progressing, True, Deploying, NotYetAvailable, generation, since)
  }

  lemma AppliedFind(cs: seq<Condition>, generation: nat, available: bool, now: Clock, kind: ConditionType)
    ensures var found := Find(AppliedConditions(cs, generation, available, now), kind);
            found.Some? && found.value == AppliedCondition(kind, generation, available, found.value.since)
  {
    var cs1 := Upsert(cs, AppliedCondition(Configured, generation, available, now.configured));
    var cs2 := Upsert(cs1, AppliedCondition(WorkloadAvailable, generation, available, now.workloadAvailable));
    var cs3 := Upsert(cs2, AppliedCondition(Ready, generation, available, now.ready));
    UpsertFind(cs, AppliedCondition(Configured, generation, available, now.configured), kind);
    UpsertFind(cs1, AppliedCondition(WorkloadAvailable, generation, available, now.workloadAvailable), kind);
    UpsertFind(cs2, AppliedCondition(Ready, generation, available, now.ready), kind);
    UpsertFind(cs3, AppliedCondition(Progressing, generation, available, now.progressing), kind);
  }

  /** Both writers establish Ready = Configured and WorkloadAvailable, whatever was there before:
      the stale WorkloadAvailable that a failure leaves cannot break it. */
  lemma WritersCohere(cs: seq<Condition>, generation: nat, reason: Reason, message: Message, available: bool,
                      now: Clock)
    ensures Coherent(FailedConditions(cs, generation, reason, message, now))
    ensures Coherent(AppliedConditions(cs, generation, available, now))
  {
    forall kind { FailedFind(cs, generation, reason, message, now, kind); }
    forall kind { AppliedFind(cs, generation, available, now, kind); }
  }

  lemma FailedKinds(cs: seq<Condition>, generation: nat, reason: Reason, message: Message, now: Clock)
    requires UniqueKinds(cs) && GenerationsUpTo(cs, generation)
    ensures var after := FailedConditions(cs, generation, reason, message, now);
            UniqueKinds(after) && GenerationsUpTo(after, generation)
  {
    var cs1 := Upsert(cs, Condition(Configured, False, reason, message, generation, now.configured));
    var cs2 := Upsert(cs1, Condition(Ready, False, reason, message, generation, now.ready));
    UpsertKinds(cs, Condition(Configured, False, reason, message, generation, now.configured));
    UpsertKinds(cs1, Condition(Ready, False, reason, message, generation, now.ready));
    UpsertKinds(cs2, Condition(Progressing, False, reason, message, generation, now.progressing));
  }

  lemma AppliedKinds(cs: seq<Condition>, generation: nat, available: bool, now: Clock)
    requires UniqueKinds(cs) && GenerationsUpTo(cs, generation)
    ensures var after := AppliedConditions(cs, generation, available, now);
            UniqueKinds(after) && GenerationsUpTo(after, generation)
  {
    var cs1 := Upsert(cs, AppliedCondition(Configured, generation, available, now.configured));
    var cs2 := Upsert(cs1, AppliedCondition(WorkloadAvailable, generation, available, now.workloadAvailable));
    var cs3 := Upsert(cs2, AppliedCondition(Ready, generation, available, now.ready));
    UpsertKinds(cs, AppliedCondition(Configured, generation, available, now.configured));
    UpsertKinds(cs1, AppliedCondition(WorkloadAvailable, generation, available, now.workloadAvailable));
    UpsertKinds(cs2, AppliedCondition(Ready, generation, available, now.ready));
    UpsertKinds(cs3, AppliedCondition(Progressing, generation, available, now.progressing));
  }

  // ---------- writing twice ----------

  lemma FailedTwice(cs: seq<Condition>, generation: nat, reason: Reason, message: Message, now: Clock, later: Clock)
    ensures var after := FailedConditions(cs, generation, reason, message, now);
            FailedConditions(after, generation, reason, message, later) == after
  {
    var after := FailedConditions(cs, generation, reason, message, now);
    forall kind { FailedFind(cs, generation, reason, message, now, kind); }
    UpsertSettled(after, Condition(Configured, False, reason, message, generation, later.configured));
    UpsertSettled(after, Condition(Ready, False, reason, message, generation, later.ready));
    UpsertSettled(after, Condition(Progressing, False, reason, message, generation, later.progressing));
  }

  lemma AppliedTwice(cs: seq<Condition>, generation: nat, available: bool, now: Clock, later: Clock)
    ensures var after := AppliedConditions(cs, generation, available, now);
            AppliedConditions(after, generation, available, later) == after
  {
    var after := AppliedConditions(cs, generation, available, now);
    forall kind { AppliedFind(cs, generation, available, now, kind); }
    UpsertSettled(after, AppliedCondition(Configured, generation, available, later.configured));
    UpsertSettled(after, AppliedCondition(WorkloadAvailable, generation, available, later.workloadAvailable));
    UpsertSettled(after, AppliedCondition(Ready, generation, available, later.ready));
    UpsertSettled(after, AppliedCondition(Progressing, generation, available, later.progressing));
  }

  // ---------- erasing message text and transition times ----------

  function Erased(c: Condition): Condition {
    c.(message := Silent, since := 0)
  }

  function EraseAll(cs: seq<Condition>): seq<Condition> {
    if cs == [] then [] else [Erased(cs[0])] + EraseAll(cs[1..])
  }

  lemma {:induction false} EraseUpsert(cs: seq<Condition>, written: Condition)
    ensures EraseAll(Upsert(cs, written)) == Upsert(EraseAll(cs), Erased(written))
  {
    if cs == [] {
      assert EraseAll([written]) == [Erased(written)] + EraseAll([]);
    } else {
      EraseUpsert(cs[1..], written);
      assert EraseAll(cs)[1..] == EraseAll(cs[1..]);
      if cs[0].kind == written.kind {
        assert Upsert(cs, written)[1..] == cs[1..];
      } else {
        assert Upsert(cs, written)[1..] == Upsert(cs[1..], written);
      }
    }
  }

  lemma {:induction false} EraseFind(cs: seq<Condition>, kind: ConditionType)
    ensures Find(EraseAll(cs), kind) == match Find(cs, kind) case None => None case Some(c) => Some(Erased(c))
    ensures |EraseAll(cs)| == |cs|
  {
    if cs != [] {
      EraseFind(cs[1..], kind);
      assert EraseAll(cs)[1..] == EraseAll(cs[1..]);
    }
  }

  lemma {:induction false} EraseTwice(cs: seq<Condition>)
    ensures EraseAll(EraseAll(cs)) == EraseAll(cs)
  {
    if cs != [] {
      EraseTwice(cs[1..]);
      assert EraseAll(cs)[1..] == EraseAll(cs[1..]);
    }
  }

  /** Up to text and times a failed write depends on the reason alone. */
  lemma EraseFailed(cs: seq<Condition>, generation: nat, reason: Reason, message: Message, now: Clock)
    ensures EraseAll(FailedConditions(cs, generation, reason, message, now))
         == EraseAll(FailedConditions(EraseAll(cs), generation, reason, Silent, EPOCH))
  {
    EraseFailedOnce(cs, generation, reason, message, now);
    EraseFailedOnce(EraseAll(cs), generation, reason, Silent, EPOCH);
    EraseTwice(cs);
  }

  lemma EraseFailedOnce(cs: seq<Condition>, generation: nat, reason: Reason, message: Message, now: Clock)
    ensures EraseAll(FailedConditions(cs, generation, reason, message, now))
         == FailedConditions(EraseAll(cs), generation, reason, Silent, EPOCH)
  {
    var cs1 := Upsert(cs, Condition(Configured, False, reason, message, generation, now.configured));
    var cs2 := Upsert(cs1, Condition(Ready, False, reason, message, generation, now.ready));
    EraseUpsert(cs, Condition(Configured, False, reason, message, generation, now.configured));
    EraseUpsert(cs1, Condition(Ready, False, reason, message, generation, now.ready));
    EraseUpsert(cs2, Condition(Progressing, False, reason, message, generation, now.progressing));
  }

  lemma EraseApplied(cs: seq<Condition>, generation: nat, available: bool, now: Clock)
    ensures EraseAll(AppliedConditions(cs, generation, available, now))
         == EraseAll(AppliedConditions(EraseAll(cs), generation, available, EPOCH))
  {
    EraseAppliedOnce(cs, generation, available, now);
    EraseAppliedOnce(EraseAll(cs), generation, available, EPOCH);
    EraseTwice(cs);
  }

  function Quiet(cs: seq<Condition>, generation: nat, available: bool): seq<Condition> {
    var cs1 := Upsert(cs, Erased(AppliedCondition(Configured, generation, available, 0)));
    var cs2 := Upsert(cs1, Erased(AppliedCondition(WorkloadAvailable, generation, available, 0)));
    var cs3 := Upsert(cs2, Erased(AppliedCondition(Ready, generation, available, 0)));
    Upsert(cs3, Erased(AppliedCondition(Progressing, generation, available, 0)))
  }

  lemma EraseAppliedOnce(cs: seq<Condition>, generation: nat, available: bool, now: Clock)
    ensures EraseAll(AppliedConditions(cs, generation, available, now)) == Quiet(EraseAll(cs), generation, available)
  {
    var cs1 := Upsert(cs, AppliedCondition(Configured, generation, available, now.configured));
    var cs2 := Upsert(cs1, AppliedCondition(WorkloadAvailable, generation, available, now.workloadAvailable));
    var cs3 := Upsert(cs2, AppliedCondition(Ready, generation, available, now.ready));
    EraseUpsert(cs, AppliedCondition(Configured, generation, available, now.configured));
    EraseUpsert(cs1, AppliedCondition(WorkloadAvailable, generation, available, now.workloadAvailable));
    EraseUpsert(cs2, AppliedCondition(Ready, generation, available, now.ready));
    EraseUpsert(cs3, AppliedCondition(Progressing, generation, available, now.progressing));
  }
}
