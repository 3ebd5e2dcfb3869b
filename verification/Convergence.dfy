/** Whole reconciles in a run: status mirrors the workload, and the two controllers agree on the initdata hash. */
module Convergence {
  import opened Types
  import opened Conditions
  import opened Render
  import opened Guard
  import opened Reconcile
  import opened Frame
  import opened Claims
  import opened Tenant
  import opened World

  datatype Event =
    | Outside(action: EnvAction)
    | ServiceTurn(key: Key, call: Call)
    | TenantTurn(now: nat)

  /** Nobody but the operator and the garbage collector touches what the operator applied. */
  predicate NoDrift(c: Cluster, a: EnvAction) {
    match a
    case RemoveDeployment(key) => !Applied(c, key)
    case DriftDeployment(_, _) => false
    case RemoveKubeService(key) => key in c.kubeServices ==> !OwnedByService(c.kubeServices[key].controller)
    case _ => true
  }

  ghost predicate CanHappen(w: World, e: Event) {
    match e
    case Outside(action) => Possible(w, action) && NoDrift(w.cluster, action)
    case ServiceTurn(key, call) => Lists(call.order, w.cluster, key.ns)
    case TenantTurn(_) => true
  }

  ghost function Happen(w: World, e: Event): World
    requires CanHappen(w, e)
  {
    match e
    case Outside(action) => Act(w, action)
    case ServiceTurn(key, call) => w.(cluster := Reconciled(w.cluster, key, call))
    case TenantTurn(now) => w.(cluster := TenantReconciled(w.cluster, now))
  }

  ghost predicate History(w: World, events: seq<Event>)
    decreases |events|
  {
    events == [] || (CanHappen(w, events[0]) && History(Happen(w, events[0]), events[1..]))
  }

  ghost function After(w: World, events: seq<Event>): World
    requires History(w, events)
    decreases |events|
  {
    if events == [] then w else After(Happen(w, events[0]), events[1..])
  }

  // ---------- status mirrors the workload ----------

  /** The endpoint is written by the first success and never cleared. */
  predicate HasSucceeded(isvc: InferenceService) {
    isvc.status.endpoint.Some?
  }

  predicate Shows(d: Deployment, status: Status) {
    && |d.template.spec.containers| == 1
    && d.template.spec.containers[0].image == status.resolvedImage
    && |d.template.spec.containers[0].args| > 1
    && d.template.spec.containers[0].args[1] == "--served-model-name=" + status.servedModelName
    && INIT_DATA_ANNOTATION in d.template.annotations
    && InitDataHash(d.template.annotations[INIT_DATA_ANNOTATION]) == status.appliedInitDataHash
  }

  /** The service controls its Deployment and its Service, and its status says what the Deployment runs. */
  predicate Mirrors(c: Cluster, key: Key)
    requires key in c.services
  {
    var isvc := c.services[key];
    && key in c.deployments
    && ControlledBy(c.deployments[key], isvc)
    && Shows(c.deployments[key], isvc.status)
    && ServiceKey(key) in c.kubeServices
    && c.kubeServices[ServiceKey(key)].controller == Some(ByService(isvc.uid))
    && isvc.status.endpoint == Some(EndpointURL(key))
  }

  ghost predicate Mirrored(c: Cluster) {
    forall k <- c.services ::
      && (HasSucceeded(c.services[k]) ==> Mirrors(c, k))
      && (Holds(c.services[k].status.conditions, Configured) ==> HasSucceeded(c.services[k]))
  }

  lemma EnvironmentKeepsMirrored(w: World, a: EnvAction)
    requires Possible(w, a) && NoDrift(w.cluster, a) && Mirrored(w.cluster)
    ensures Mirrored(Act(w, a).cluster)
  {
    var c, after := w.cluster, Act(w, a).cluster;
    forall k | k in after.services
      ensures HasSucceeded(after.services[k]) ==> Mirrors(after, k)
      ensures Holds(after.services[k].status.conditions, Configured) ==> HasSucceeded(after.services[k])
    {
      if k in c.services && HasSucceeded(c.services[k]) {
        assert Mirrors(c, k);
      }
    }
  }

  lemma SuccessMirrors(c: Cluster, key: Key, call: Call)
    requires key in c.services && Ending(c, key, call).Succeeded?
    ensures key in Reconciled(c, key, call).services && Mirrors(Reconciled(c, key, call), key)
  {
    var isvc := c.services[key];
    var e := Ending(c, key, call);
    assert e.template == Template(key.name, isvc.spec, isvc.spec.modelRef, e.model.source.value, e.model,
        TenantConfig(e.tenant), e.tenant.defaultImage);
    assert EngineArgs(isvc.spec.engine, e.model.source.value.repo, ServedModelName(isvc.spec.modelRef, e.model))[1]
        == "--served-model-name=" + ServedModelName(isvc.spec.modelRef, e.model);
  }

  /** A reconcile of another service does not reach this one's objects. */
  lemma OthersUntouched(c: Cluster, key: Key, call: Call, k: Key)
    requires k in c.services && k != key
    ensures var after := Reconciled(c, key, call);
            && k in after.services && after.services[k] == c.services[k]
            && Lookup(after.deployments, k) == Lookup(c.deployments, k)
            && Lookup(after.kubeServices, ServiceKey(k)) == Lookup(c.kubeServices, ServiceKey(k))
  {
    ReconcileTouchesOnly(c, key, Conflict(c, key, call.order), call.now);
    if ServiceKey(k) == ServiceKey(key) {
      ServiceKeyInjective(k, key);
    }
  }

  lemma TurnKeepsMirrored(c: Cluster, key: Key, call: Call)
    requires Mirrored(c)
    ensures Mirrored(Reconciled(c, key, call))
  {
    var after := Reconciled(c, key, call);
    ReconcileTouchesOnly(c, key, Conflict(c, key, call.order), call.now);
    forall k | k in after.services
      ensures HasSucceeded(after.services[k]) ==> Mirrors(after, k)
      ensures Holds(after.services[k].status.conditions, Configured) ==> HasSucceeded(after.services[k])
    {
      if k != key {
        OthersUntouched(c, key, call, k);
      } else {
        OwnTurnKeepsMirrored(c, key, call);
      }
    }
  }

  lemma OwnTurnKeepsMirrored(c: Cluster, key: Key, call: Call)
    requires Mirrored(c) && key in c.services
    ensures var after := Reconciled(c, key, call);
            && key in after.services
            && (HasSucceeded(after.services[key]) ==> Mirrors(after, key))
            && (Holds(after.services[key].status.conditions, Configured) ==> HasSucceeded(after.services[key]))
  {
    hide FailedConditions, AppliedConditions, RenderDeployment;
    var after := Reconciled(c, key, call);
    match Ending(c, key, call) {
      case Refused(_, _) => FailureKeepsChildren(c, key, Conflict(c, key, call.order), call.now);
      case RenderFailed(_) => FailureKeepsChildren(c, key, Conflict(c, key, call.order), call.now);
      case DeploymentRejected =>
        assert after.services == c.services;
      case ServiceRejected(_) =>
        // A service that has succeeded controls its Service object, so this cannot happen to it.
        assert after.services == c.services;
        assert !HasSucceeded(c.services[key]);
      case Succeeded(_, _, _) => SuccessMirrors(c, key, call);
      case Gone =>
    }
  }

  lemma HappenKeepsMirrored(w: World, e: Event)
    requires CanHappen(w, e) && Mirrored(w.cluster)
    ensures Mirrored(Happen(w, e).cluster)
  {
    match e {
      case Outside(action) => EnvironmentKeepsMirrored(w, action);
      case ServiceTurn(key, call) => TurnKeepsMirrored(w.cluster, key, call);
      case TenantTurn(now) =>
        var after := TenantReconciled(w.cluster, now);
        forall k | k in after.services && HasSucceeded(after.services[k]) ensures Mirrors(after, k) {
          assert Mirrors(w.cluster, k);
        }
    }
  }

  /** Over every history without outside drift, mixing successes and failures in any way, a service that has
      ever succeeded shows in its status the image, initdata hash and served name its Deployment runs. */
  lemma {:induction false} StatusMirrorsWorkload(w: World, events: seq<Event>)
    requires Mirrored(w.cluster) && History(w, events)
    ensures Mirrored(After(w, events).cluster)
    decreases |events|
  {
    if events != [] {
      HappenKeepsMirrored(w, events[0]);
      StatusMirrorsWorkload(Happen(w, events[0]), events[1..]);
    }
  }

  // ---------- the two controllers agree on the hash ----------

  /** If the service reports Configured, its hash is that of the tenant's blob. */
  predicate UpToDate(c: Cluster, k: Key)
    requires k in c.services && c.tenant.Some?
  {
    Holds(c.services[k].status.conditions, Configured) ==>
      c.services[k].status.appliedInitDataHash == InitDataHash(c.tenant.value.initDataB64)
  }

  /** Its Deployment or its Service belongs to another controller. */
  predicate Blocked(c: Cluster, k: Key)
    requires k in c.services
  {
    DeploymentTaken(c, k, c.services[k].uid) || ServiceTaken(c, k, c.services[k].uid)
  }

  /** A turn brings a service up to date, exactly unless it was out of date, wins its claim, passes its checks and
      cannot apply because an object of its belongs to somebody else. */
  lemma TurnConvergesExactly(c: Cluster, key: Key, call: Call)
    requires key in c.services && c.tenant.Some? && Lists(call.order, c, key.ns)
    ensures var after := Reconciled(c, key, call);
            && after.tenant == c.tenant && key in after.services
            && (UpToDate(after, key) <==>
                  !(Renders(c, key) && Least(c, key) && !MountedElsewhere(c, key) && Blocked(c, key)
                      && !UpToDate(c, key)))
  {
    EndsRejectedExactly(c, key, call);
    hide FailedConditions, AppliedConditions, RenderDeployment, EndpointURL;
    ReconcileTouchesOnly(c, key, Conflict(c, key, call.order), call.now);
    SucceedsExactly(c, key, call);
    hide Renders, Least, MountedElsewhere, Conflict;
    var ending := Ending(c, key, call);
    if ending.DeploymentRejected? || ending.ServiceRejected? {
      assert Reconciled(c, key, call).services == c.services;
    }
  }

  /** An apply is rejected exactly when everything else is in order. */
  lemma EndsRejectedExactly(c: Cluster, key: Key, call: Call)
    requires key in c.services && Lists(call.order, c, key.ns)
    ensures Ending(c, key, call).DeploymentRejected? || Ending(c, key, call).ServiceRejected?
       <==> Renders(c, key) && Least(c, key) && !MountedElsewhere(c, key) && Blocked(c, key)
  {
    GuardIsExact(c, key, c.services[key], call.order);
    ConflictedMeans(c, key);
    hide Least, MountedElsewhere, HoldsClaim, RenderDeployment, OwnChecks;
  }

  /** Nobody is both out of date and unable to apply. */
  ghost predicate NoStaleBlocked(c: Cluster)
    requires c.tenant.Some?
  {
    forall k <- c.services :: Blocked(c, k) ==> UpToDate(c, k)
  }

  ghost predicate Settled(c: Cluster, done: set<Key>)
    requires c.tenant.Some?
  {
    && NoStaleBlocked(c)
    && forall k <- c.services :: k in done ==> UpToDate(c, k)
  }

  lemma TurnSettles(c: Cluster, done: set<Key>, key: Key, call: Call)
    requires c.tenant.Some? && Settled(c, done) && Lists(call.order, c, key.ns)
    ensures var after := Reconciled(c, key, call);
            after.tenant == c.tenant && after.services.Keys == c.services.Keys && Settled(after, done + {key})
  {
    var after := Reconciled(c, key, call);
    ReconcileTouchesOnly(c, key, Conflict(c, key, call.order), call.now);
    forall k | k in after.services
      ensures Blocked(after, k) || k in done + {key} ==> UpToDate(after, k)
    {
      if k != key {
        OthersUntouched(c, key, call, k);
      } else {
        TurnConvergesExactly(c, key, call);
      }
    }
  }

  lemma TenantTurnSettles(c: Cluster, done: set<Key>, now: nat)
    requires c.tenant.Some? && Settled(c, done)
    ensures var after := TenantReconciled(c, now);
            && after.tenant.Some? && after.services == c.services
            && after.tenant.value.initDataB64 == c.tenant.value.initDataB64
            && after.tenant.value.status.appliedInitDataHash == InitDataHash(c.tenant.value.initDataB64)
            && Settled(after, done)
  {
    hide TenantCondition, Upsert, InitDataHash, IsAvailable;
    var after := TenantReconciled(c, now);
    forall k | k in after.services
      ensures Blocked(after, k) || k in done ==> UpToDate(after, k)
    {
      assert Blocked(after, k) <==> Blocked(c, k);
    }
  }

  predicate IsTurn(e: Event) {
    !e.Outside?
  }

  function TurnedServices(events: seq<Event>): set<Key> {
    set e <- events | e.ServiceTurn? :: e.key
  }

  predicate TenantTurned(events: seq<Event>) {
    exists i :: 0 <= i < |events| && events[i].TenantTurn?
  }

  /** Turns only, in any order and number: what they leave behind. */
  lemma {:induction false} SweepSettles(w: World, done: set<Key>, events: seq<Event>, hashed: bool)
    requires History(w, events) && (forall e <- events :: IsTurn(e))
    requires w.cluster.tenant.Some? && Settled(w.cluster, done)
    requires var tenant := w.cluster.tenant.value;
             hashed ==> tenant.status.appliedInitDataHash == InitDataHash(tenant.initDataB64)
    ensures var end := After(w, events).cluster;
            && end.services.Keys == w.cluster.services.Keys
            && end.tenant.Some?
            && Settled(end, done + TurnedServices(events))
            && (hashed || TenantTurned(events) ==>
                  end.tenant.value.status.appliedInitDataHash == InitDataHash(end.tenant.value.initDataB64))
    decreases |events|
  {
    if events == [] {
      assert done + TurnedServices(events) == done;
    } else {
      var e, rest := events[0], events[1..];
      assert events == [e] + rest;
      assert IsTurn(e);
      match e {
        case ServiceTurn(key, call) =>
          TurnSettles(w.cluster, done, key, call);
          SweepSettles(Happen(w, e), done + {key}, rest, hashed);
          assert done + {key} + TurnedServices(rest) == done + TurnedServices(events);
        case TenantTurn(now) =>
          TenantTurnSettles(w.cluster, done, now);
          SweepSettles(Happen(w, e), done, rest, true);
          assert done + TurnedServices(rest) == done + TurnedServices(events);
      }
    }
  }

  /** The services and the tenant show the same hash. */
  ghost predicate HashesAgree(c: Cluster) {
    && c.tenant.Some?
    && forall k <- c.services :: Holds(c.services[k].status.conditions, Configured) ==>
         c.services[k].status.appliedInitDataHash == c.tenant.value.status.appliedInitDataHash
  }

  /** A sweep: turns in any order, at least one of the tenant and at least one of every service. */
  ghost predicate Sweep(c: Cluster, events: seq<Event>) {
    && (forall e <- events :: IsTurn(e))
    && TenantTurned(events)
    && c.services.Keys <= TurnedServices(events)
  }

  /** From any cluster at all, a sweep makes the hashes agree, provided no service is stale and blocked. */
  lemma SweepConverges(w: World, events: seq<Event>)
    requires w.cluster.tenant.Some? && NoStaleBlocked(w.cluster)
    requires History(w, events) && Sweep(w.cluster, events)
    ensures HashesAgree(After(w, events).cluster)
  {
    SweepSettles(w, {}, events, false);
    var end := After(w, events).cluster;
    forall k | k in end.services && Holds(end.services[k].status.conditions, Configured)
      ensures end.services[k].status.appliedInitDataHash == end.tenant.value.status.appliedInitDataHash
    {
      assert k in {} + TurnedServices(events);
      assert UpToDate(end, k);
    }
  }

  /** After any history without outside drift no service is stale and blocked, so a sweep always converges. */
  lemma SweepConvergesAfterAnyHistory(w: World, past: seq<Event>, events: seq<Event>)
    requires Mirrored(w.cluster) && History(w, past)
    requires var now := After(w, past);
             now.cluster.tenant.Some? && History(now, events) && Sweep(now.cluster, events)
    ensures HashesAgree(After(After(w, past), events).cluster)
  {
    StatusMirrorsWorkload(w, past);
    var now := After(w, past);
    forall k | k in now.cluster.services
      ensures Holds(now.cluster.services[k].status.conditions, Configured) ==> !Blocked(now.cluster, k)
    {
    }
    SweepConverges(now, events);
  }
}
