/** Why one worker: with two, a single claim edit at the wrong moment puts two workloads on one claim. */
module Collision {
  import opened Types
  import opened Examples
  import opened Reconcile
  import opened World
  import opened Protocol
  import opened Exclusion
  import opened Walks

  /** The environment does nothing but edit specs. */
  predicate OnlyEdits(s: System, a: Action) {
    a.Environment? ==> a.action.EditSpec?
  }

  // ---------- the run ----------

  /** Two services with different claims, nothing applied yet. */
  function ExampleStart(amount: Quantity): System {
    System(
      World(
        Cluster(
          map[OLDER := InferenceService(1, 1, 1, ExampleSpec("y", amount), EMPTY_STATUS),
              NEWER := InferenceService(2, 2, 1, ExampleSpec("x", amount), EMPTY_STATUS)],
          map[Key("default", "m") := MODEL], Some(TENANT), map[], map[], map[], map[]),
        map[1 := OLDER, 2 := NEWER]),
      map[])
  }

  const EXAMPLE_CALL := Call(EPOCH, Listing([OLDER, NEWER], [], []))

  /** The newer service passes the guard; then the older one's claim is edited to the same claim and its own
      reconcile passes too, because it is older and nothing is applied yet; then both apply. */
  lemma TwoWorkersCollide(amount: Quantity) returns (actions: seq<Action>)
    ensures var s := ExampleStart(amount);
            && Registered(s.world) && Exclusive(s.world.cluster) && s.workers == map[]
            && Runs(s, actions, OnlyEdits)
            && !Exclusive(Exec(s, actions, OnlyEdits).world.cluster)
  {
    ExampleKeys();
    actions := NewerReady(amount);
    actions := OlderReady(amount, actions);
    BothRender(amount);
    actions := BothPatch(ExampleStart(amount), actions, BothReady(amount),
                         NewerJob(amount), ExampleTemplate(NEWER, NewerJob(amount).isvc, TENANT),
                         OlderJob(amount), ExampleTemplate(OLDER, OlderJob(amount).isvc, TENANT));
  }

  function NewerJob(amount: Quantity): Job {
    Job(NEWER, ExampleStart(amount).world.cluster.services[NEWER], TENANT, MODEL)
  }

  function OlderJob(amount: Quantity): Job {
    Job(OLDER, Edited(amount), TENANT, MODEL)
  }

  function OneReady(amount: Quantity): System {
    var job := NewerJob(amount);
    At(ExampleStart(amount), 1, PatchDeployment(job, ExampleTemplate(NEWER, job.isvc, TENANT)))
  }

  function AfterEdit(amount: Quantity): System
  {
    var s := OneReady(amount);
    var services := s.world.cluster.services[OLDER := Edited(amount)];
    s.(world := s.world.(cluster := s.world.cluster.(services := services)))
  }

  function BothReady(amount: Quantity): System {
    At(AfterEdit(amount), 2, PatchDeployment(OlderJob(amount), ExampleTemplate(OLDER, OlderJob(amount).isvc, TENANT)))
  }

  lemma NewerReady(amount: Quantity) returns (actions: seq<Action>)
    ensures var s := ExampleStart(amount);
            Runs(s, actions, OnlyEdits) && Exec(s, actions, OnlyEdits) == OneReady(amount)
  {
    var s := ExampleStart(amount);
    FirstPasses(amount);
    hide Passes, ExampleTemplate;
    var job := NewerJob(amount);
    actions := ReachesPatch(s, [], s, 1, job, ExampleTemplate(NEWER, job.isvc, TENANT), EXAMPLE_CALL, OnlyEdits);
  }

  lemma EditPossible(amount: Quantity)
    ensures var edit := EditSpec(OLDER, ExampleSpec("x", amount));
            && Possible(OneReady(amount).world, edit)
            && Act(OneReady(amount).world, edit) == AfterEdit(amount).world
            && AfterEdit(amount).workers == OneReady(amount).workers
  {
    ExampleKeys();
    hide ExampleTemplate;
  }

  lemma OlderReady(amount: Quantity, actions: seq<Action>) returns (all: seq<Action>)
    requires var s := ExampleStart(amount);
             Runs(s, actions, OnlyEdits) && Exec(s, actions, OnlyEdits) == OneReady(amount)
    ensures var s := ExampleStart(amount);
            Runs(s, all, OnlyEdits) && Exec(s, all, OnlyEdits) == BothReady(amount)
  {
    var s := ExampleStart(amount);
    var edit := Environment(EditSpec(OLDER, ExampleSpec("x", amount)));
    EditPossible(amount);
    OneMore(s, actions, OneReady(amount), edit, OnlyEdits);
    all := actions + [edit];
    SecondPasses(amount, AfterEdit(amount).world.cluster);
    hide Passes, ExampleTemplate, Runs, Exec;
    var job := OlderJob(amount);
    all := ReachesPatch(s, all, AfterEdit(amount), 2, job, ExampleTemplate(OLDER, job.isvc, TENANT), EXAMPLE_CALL,
        OnlyEdits);
  }

  lemma BothRender(amount: Quantity)
    ensures RenderFor(NEWER, NewerJob(amount).isvc, TENANT, MODEL)
        == Success(ExampleTemplate(NEWER, NewerJob(amount).isvc, TENANT))
    ensures RenderFor(OLDER, OlderJob(amount).isvc, TENANT, MODEL)
        == Success(ExampleTemplate(OLDER, OlderJob(amount).isvc, TENANT))
  {
    ExampleModels(AfterEdit(amount).world.cluster, NEWER, NewerJob(amount).isvc, TENANT, amount, "x");
    ExampleModels(AfterEdit(amount).world.cluster, OLDER, OlderJob(amount).isvc, TENANT, amount, "x");
  }

  function Edited(amount: Quantity): InferenceService {
    InferenceService(1, 1, 2, ExampleSpec("x", amount), EMPTY_STATUS)
  }

  lemma FirstPasses(amount: Quantity)
    ensures var c := ExampleStart(amount).world.cluster;
            var job := Job(NEWER, c.services[NEWER], TENANT, MODEL);
            Passes(c, job, ExampleTemplate(NEWER, job.isvc, TENANT), EXAMPLE_CALL)
  {
    ExampleKeys();
    var c := ExampleStart(amount).world.cluster;
    assert "x"[0] != "y"[0];
    assert c.services.Keys == {OLDER, NEWER};
    ExampleModels(c, NEWER, c.services[NEWER], TENANT, amount, "x");
  }

  lemma SecondPasses(amount: Quantity, c: Cluster)
    requires var start := ExampleStart(amount).world.cluster;
             c == start.(services := start.services[OLDER := Edited(amount)])
    ensures var job := Job(OLDER, Edited(amount), TENANT, MODEL);
            Passes(c, job, ExampleTemplate(OLDER, job.isvc, TENANT), EXAMPLE_CALL)
  {
    ExampleKeys();
    assert c.services.Keys == {OLDER, NEWER};
    ExampleModels(c, OLDER, Edited(amount), TENANT, amount, "x");
  }

  lemma BothPatch(s0: System, actions: seq<Action>, s: System, job1: Job, template1: PodTemplate, job2: Job,
                  template2: PodTemplate)
    returns (all: seq<Action>)
    requires Runs(s0, actions, OnlyEdits) && Exec(s0, actions, OnlyEdits) == s
    requires AboutToPatch(s, 1, job1, template1) && AboutToPatch(s, 2, job2, template2)
    requires s.world.cluster.deployments == map[]
    requires job1.key != job2.key && job1.key.ns == job2.key.ns && job1.isvc.Claim() == job2.isvc.Claim()
    requires RenderFor(job1.key, job1.isvc, job1.tenant, job1.model) == Success(template1)
    requires RenderFor(job2.key, job2.isvc, job2.tenant, job2.model) == Success(template2)
    ensures Runs(s0, all, OnlyEdits) && !Exclusive(Exec(s0, all, OnlyEdits).world.cluster)
  {
    var c := s.world.cluster;
    var c1 := PutDeployment(c, job2.key, job2.isvc.uid, template2);
    var s1 := Step(s, Continue(2, EXAMPLE_CALL));
    OneMore(s0, actions, s, Continue(2, EXAMPLE_CALL), OnlyEdits);
    all := actions + [Continue(2, EXAMPLE_CALL)];
    assert s1.world.cluster == c1 && AboutToPatch(s1, 1, job1, template1);
    var s2 := Step(s1, Continue(1, EXAMPLE_CALL));
    OneMore(s0, all, s1, Continue(1, EXAMPLE_CALL), OnlyEdits);
    all := all + [Continue(1, EXAMPLE_CALL)];
    assert s2.world.cluster == PutDeployment(c1, job1.key, job1.isvc.uid, template1);
    BothMount(c, job1, template1, job2, template2);
  }

  lemma BothMount(c: Cluster, job1: Job, template1: PodTemplate, job2: Job, template2: PodTemplate)
    requires job1.key != job2.key && job1.key.ns == job2.key.ns && job1.isvc.Claim() == job2.isvc.Claim()
    requires RenderFor(job1.key, job1.isvc, job1.tenant, job1.model) == Success(template1)
    requires RenderFor(job2.key, job2.isvc, job2.tenant, job2.model) == Success(template2)
    ensures !Exclusive(PutDeployment(PutDeployment(c, job2.key, job2.isvc.uid, template2), job1.key, job1.isvc.uid,
        template1))
  {
    var claim := job1.isvc.Claim();
    RenderedJobMounts(job1, template1, claim);
    RenderedJobMounts(job2, template2, claim);
    var after := PutDeployment(PutDeployment(c, job2.key, job2.isvc.uid, template2), job1.key, job1.isvc.uid,
        template1);
    assert MountsAt(after, job1.key, claim) && MountsAt(after, job2.key, claim);
    assert Applied(after, job1.key) && Applied(after, job2.key);
  }
}
