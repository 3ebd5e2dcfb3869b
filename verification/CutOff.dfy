/** A run in which a reconcile is cut off between the apply and the status, and what the status then says. */
module CutOff {
  import opened Types
  import opened Examples
  import opened Render
  import opened Guard
  import opened Reconcile
  import opened Convergence
  import opened World
  import opened Protocol
  import opened Walks
  import opened Mirroring

  const UPGRADED := TENANT.(defaultImage := "newer image")

  const CALL := Call(EPOCH, Listing([OLDER], [OLDER], []))

  function Running(amount: Quantity): InferenceService {
    var configured := Condition(Configured, True, ConfiguredReason, WorkloadApplied, 1, 0);
    InferenceService(1, 1, 1, ExampleSpec("y", amount),
                     Status(1, [configured], Some(EndpointURL(OLDER)), "m", "image", InitDataHash("blob")))
  }

  /** One service, applied and reported. */
  function BeforeUpgrade(amount: Quantity): System {
    var isvc := Running(amount);
    System(
      World(
        Cluster(
          map[OLDER := isvc], map[Key("default", "m") := MODEL], Some(TENANT),
          map[OLDER := Deployment(Some(ByService(1)), ExampleTemplate(OLDER, isvc, TENANT), [])],
          map[ServiceKey(OLDER) := Service(Some(ByService(1)), "a")],
          map[], map[]),
        map[1 := OLDER]),
      map[])
  }

  /** The tenant moves to another image. */
  function AfterUpgrade(amount: Quantity): System {
    var s := BeforeUpgrade(amount);
    s.(world := s.world.(cluster := s.world.cluster.(tenant := Some(UPGRADED))))
  }

  function UpgradeJob(amount: Quantity): Job {
    Job(OLDER, Running(amount), UPGRADED, MODEL)
  }

  lemma StartIsTrue(amount: Quantity)
    ensures Begins(BeforeUpgrade(amount)) && HasSucceeded(Running(amount))
  {
    var isvc := Running(amount);
    var template := ExampleTemplate(OLDER, isvc, TENANT);
    assert EngineArgs(isvc.spec.engine, "org/model", "m")[1] == "--served-model-name=" + "m";
    assert template.spec.containers[0].args == EngineArgs(isvc.spec.engine, "org/model", "m");
    assert Mirrors(BeforeUpgrade(amount).world.cluster, OLDER);
  }

  lemma UpgradePasses(amount: Quantity)
    ensures var job := UpgradeJob(amount);
            Passes(AfterUpgrade(amount).world.cluster, job, ExampleTemplate(OLDER, job.isvc, UPGRADED), CALL)
  {
    hide EndpointURL, Template;
    var c := AfterUpgrade(amount).world.cluster;
    ExampleModels(c, OLDER, Running(amount), UPGRADED, amount, "y");
    assert ControlledBy(c.deployments[OLDER], Running(amount));
  }

  /** From a cluster where all statuses are true: the tenant's image changes, the service's reconcile applies the new
      image and is abandoned. The service has succeeded, nobody is at work, and its status shows the old image. */
  lemma CutOffApplyIsUnreported(amount: Quantity) returns (actions: seq<Action>)
    ensures var s := BeforeUpgrade(amount);
            && Begins(s) && Runs(s, actions, Orderly)
            && var end := Exec(s, actions, Orderly);
            && end.workers == map[]
            && OLDER in end.world.cluster.services && HasSucceeded(end.world.cluster.services[OLDER])
            && !Busy(end, OLDER)
            && !Mirrors(end.world.cluster, OLDER)
            && OLDER in UnreportedAfter(s, actions, {})
  {
    var s, s1 := BeforeUpgrade(amount), AfterUpgrade(amount);
    var job := UpgradeJob(amount);
    var template := ExampleTemplate(OLDER, job.isvc, UPGRADED);
    StartIsTrue(amount);
    UpgradePasses(amount);
    hide Passes, ExampleTemplate, EndpointURL;
    var upgrade := Environment(SetTenant(Some(UPGRADED)));
    OneMore(s, [], s, upgrade, Orderly);
    actions := ReachesPatch(s, [] + [upgrade], s1, 1, job, template, CALL, Orderly);
    actions := ApplyAndAbandon(s, actions, s1, 1, job, template);
    StatusReportsWhatRuns(s, actions, OLDER);
  }

  lemma ApplyAndAbandon(s0: System, actions: seq<Action>, s: System, worker: nat, job: Job, template: PodTemplate)
    returns (all: seq<Action>)
    requires worker !in s.workers && Stored(s.world.cluster, job.key, job.isvc.uid)
    requires Runs(s0, actions, Orderly) && Exec(s0, actions, Orderly) == At(s, worker, PatchDeployment(job, template))
    requires RenderFor(job.key, job.isvc, job.tenant, job.model) == Success(template)
    requires !DeploymentTaken(s.world.cluster, job.key, job.isvc.uid)
    requires s.world.cluster.services[job.key].status.resolvedImage != job.tenant.defaultImage
    ensures Runs(s0, all, Orderly)
    ensures var end := Exec(s0, all, Orderly);
            && end.workers == s.workers
            && end.world.cluster.services == s.world.cluster.services
            && !Mirrors(end.world.cluster, job.key)
  {
    var c := s.world.cluster;
    var ready := At(s, worker, PatchDeployment(job, template));
    OneMore(s0, actions, ready, Continue(worker, CALL), Orderly);
    var applied := Step(ready, Continue(worker, CALL));
    assert applied.world.cluster == PutDeployment(c, job.key, job.isvc.uid, template);
    PatchedIsUnreported(c, job, template);
    hide Mirrors, PutDeployment, Runs, Exec;
    all := actions + [Continue(worker, CALL)];
    OneMore(s0, all, applied, Abandon(worker), Orderly);
    all := all + [Abandon(worker)];
    assert applied.workers - {worker} == s.workers;
  }

  lemma PatchedIsUnreported(c: Cluster, job: Job, template: PodTemplate)
    requires Stored(c, job.key, job.isvc.uid)
    requires RenderFor(job.key, job.isvc, job.tenant, job.model) == Success(template)
    requires c.services[job.key].status.resolvedImage != job.tenant.defaultImage
    ensures var after := PutDeployment(c, job.key, job.isvc.uid, template);
            after.services == c.services && !Mirrors(after, job.key)
  {
    RenderedShows(c, job, template);
  }
}
