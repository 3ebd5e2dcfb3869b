/** Concrete clusters for the properties that fail without their proviso. */
module Counterexamples {
  import opened Types
  import opened Conditions
  import opened Render
  import opened Guard
  import opened Reconcile
  import opened Frame
  import opened Claims
  import opened Confluence
  import opened Convergence
  import opened Examples

  function OneService(isvc: InferenceService, tenant: BrukTenant): Cluster {
    Cluster(map[OLDER := isvc], map[Key("default", "m") := MODEL], Some(tenant), map[], map[], map[], map[])
  }

  // ---------- a failed rendering leaves its ConfigMap ----------

  function CachedSpec(amount: Quantity): Spec {
    var spec := ExampleSpec("y", amount);
    spec.(storage := spec.storage.(weightsCache := Some(WeightsCache(None))))
  }

  /** The tenant has no image, which its schema does not allow. */
  lemma FailedRenderLeavesConfigMap(amount: Quantity, now: Clock)
    ensures var c := OneService(InferenceService(1, 1, 1, CachedSpec(amount), EMPTY_STATUS),
        TENANT.(defaultImage := ""));
            var call := Call(now, Listing([OLDER], [], []));
            && Lists(call.order, c, "default")
            && Ending(c, OLDER, call).RenderFailed?
            && c.configMaps == map[]
            && Reconciled(c, OLDER, call).configMaps == map[GaiKey("default") := GaiConfigMap()]
  {
    var c := OneService(InferenceService(1, 1, 1, CachedSpec(amount), EMPTY_STATUS), TENANT.(defaultImage := ""));
    var order := Listing([OLDER], [], []);
    GuardIsExact(c, OLDER, c.services[OLDER], order);
    assert Conflict(c, OLDER, order) == None;
    RenderFailsExactly(c, OLDER, None);
    FailureKeepsChildren(c, OLDER, None, now);
  }

  // ---------- a refusal that names somebody else the second time ----------

  const POD_A := Key("default", "pod-a")
  const POD_B := Key("default", "pod-b")

  /** Two bare Pods already mount the service's claim. */
  function TwoPods(amount: Quantity): Cluster {
    var pod := Pod([], PodSpec([], [Volume("v", PersistentVolumeClaim("y"))]));
    OneService(InferenceService(1, 1, 1, ExampleSpec("y", amount), EMPTY_STATUS), TENANT)
      .(pods := map[POD_A := pod, POD_B := pod])
  }

  /** The lists return one Pod first and then the other: the second reconcile rewrites the message. */
  lemma RefusalTextChanges(amount: Quantity, now: Clock, later: Clock)
    ensures var c := TwoPods(amount);
            var call := Call(now, Listing([OLDER], [], [POD_A, POD_B]));
            var again := Call(later, Listing([OLDER], [], [POD_B, POD_A]));
            && Lists(call.order, c, "default")
            && Lists(again.order, Reconciled(c, OLDER, call), "default")
            && Reconciled(Reconciled(c, OLDER, call), OLDER, again) != Reconciled(c, OLDER, call)
  {
    var c := TwoPods(amount);
    var call := Call(now, Listing([OLDER], [], [POD_A, POD_B]));
    var again := Call(later, Listing([OLDER], [], [POD_B, POD_A]));
    assert "pod-a"[4] != "pod-b"[4];
    assert POD_A != POD_B;
    PodsHold(amount);
    ReconcileTouchesOnly(c, OLDER, Conflict(c, OLDER, call.order), now);
    FailureKeepsChildren(c, OLDER, Conflict(c, OLDER, call.order), now);
    Idempotent(c, OLDER, call, again);
  }

  lemma PodsHold(amount: Quantity)
    ensures var c := TwoPods(amount);
            && Checks(c, OLDER, c.services[OLDER]) == Go(TENANT, MODEL)
            && Conflict(c, OLDER, Listing([OLDER], [], [POD_A, POD_B])) == Some(HeldBy(StandalonePod, "pod-a", "y"))
            && Conflict(c, OLDER, Listing([OLDER], [], [POD_B, POD_A])) == Some(HeldBy(StandalonePod, "pod-b", "y"))
  {
    var c := TwoPods(amount);
    var isvc := c.services[OLDER];
    ExampleModels(c, OLDER, isvc, TENANT, amount, "y");
    var volumes := c.pods[POD_A].spec.volumes;
    assert volumes[0].source == PersistentVolumeClaim("y");
    assert HoldsClaim(StandalonePod, c, OLDER, isvc, POD_A) && HoldsClaim(StandalonePod, c, OLDER, isvc, POD_B);
    assert FirstHolder(OlderSibling, c, OLDER, isvc, [OLDER]) == None;
  }

  // ---------- a service that stays Configured with an old hash ----------

  /** The service succeeded with `oldBlob`; its Deployment has been replaced by somebody else's, which mounts
      nothing, and the tenant's blob has changed. */
  function StaleCluster(amount: Quantity, oldBlob: string, newBlob: string): Cluster {
    var configured := Condition(Configured, True, ConfiguredReason, WorkloadApplied, 1, 0);
    var status := Status(1, [configured], Some(EndpointURL(OLDER)), "m", "image", InitDataHash(oldBlob));
    var foreign := Deployment(Some(ByOther(9)), PodTemplate("other", map[], PodSpec([], [])), []);
    OneService(InferenceService(1, 1, 1, ExampleSpec("y", amount), status), TENANT.(initDataB64 := newBlob))
      .(deployments := map[OLDER := foreign])
  }

  lemma StaleBlockedStays(amount: Quantity, oldBlob: string, newBlob: string, now: Clock)
    requires newBlob != "" && InitDataHash(oldBlob) != InitDataHash(newBlob)
    ensures var c := StaleCluster(amount, oldBlob, newBlob);
            var call := Call(now, Listing([OLDER], [OLDER], []));
            var after := Reconciled(c, OLDER, call);
            && Lists(call.order, c, "default")
            && OLDER in after.services
            && Holds(after.services[OLDER].status.conditions, Configured)
            && after.services[OLDER].status.appliedInitDataHash == InitDataHash(oldBlob)
            && c.tenant.Some? && !UpToDate(c, OLDER) && after.tenant.Some? && !UpToDate(after, OLDER)
  {
    var c := StaleCluster(amount, oldBlob, newBlob);
    var call := Call(now, Listing([OLDER], [OLDER], []));
    StaleIsRejected(amount, oldBlob, newBlob, now);
    hide OutcomeOf, EndpointURL;
    assert Reconciled(c, OLDER, call).services == c.services && Reconciled(c, OLDER, call).tenant == c.tenant;
  }

  lemma StaleIsRejected(amount: Quantity, oldBlob: string, newBlob: string, now: Clock)
    requires newBlob != ""
    ensures var c := StaleCluster(amount, oldBlob, newBlob);
            var call := Call(now, Listing([OLDER], [OLDER], []));
            Lists(call.order, c, "default") && Ending(c, OLDER, call) == DeploymentRejected
  {
    hide EndpointURL, Template;
    var c := StaleCluster(amount, oldBlob, newBlob);
    var order := Listing([OLDER], [OLDER], []);
    assert !MountsClaim(c.deployments[OLDER].template.spec, "y");
    GuardIsExact(c, OLDER, c.services[OLDER], order);
    assert Conflict(c, OLDER, order) == None;
  }

  // ---------- a winner that cannot be Configured ----------

  /** Nothing runs yet, and the Service name of the only service belongs to somebody else. */
  function TakenName(amount: Quantity): Cluster {
    OneService(InferenceService(1, 1, 1, ExampleSpec("y", amount), EMPTY_STATUS), TENANT)
      .(kubeServices := map[ServiceKey(OLDER) := Service(Some(ByOther(9)), "other")])
  }

  lemma WinnerStaysUnconfigured(amount: Quantity, now: Clock)
    ensures var c := TakenName(amount);
            var schedule := [Turn(OLDER, Call(now, Listing([OLDER], [], [])))];
            && Untouched(c, "default") && ValidSchedule(c, schedule) && Covers(c, schedule, "default")
            && Renders(c, OLDER) && Least(c, OLDER)
            && OLDER in RunAll(c, schedule).deployments
            && OLDER in RunAll(c, schedule).services
            && !Holds(RunAll(c, schedule).services[OLDER].status.conditions, Configured)
  {
    var c := TakenName(amount);
    var turn := Turn(OLDER, Call(now, Listing([OLDER], [], [])));
    ExampleModels(c, OLDER, c.services[OLDER], TENANT, amount, "y");
    assert turn in [turn];
    ConfiguredAtTheEnd(c, [turn], "default", OLDER);
  }
}
