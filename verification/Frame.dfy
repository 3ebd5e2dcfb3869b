/** What a reconcile leaves alone, and what happens when it runs again. */
module Frame {
  import opened Types
  import opened Conditions
  import opened Render
  import opened Guard
  import opened Reconcile

  /** c2 is c1 with, at most, the status of the service, its Deployment, its Service and the namespace's
      ConfigMap written. */
  ghost predicate OnlyTouches(c1: Cluster, c2: Cluster, key: Key) {
    && c2.models == c1.models && c2.tenant == c1.tenant && c2.pods == c1.pods
    && SameButStatus(c1, c2)
    && (forall k <- c1.services :: k != key ==> c2.services[k] == c1.services[k])
    && SameExceptAt(c1.deployments, c2.deployments, key)
    && SameExceptAt(c1.kubeServices, c2.kubeServices, ServiceKey(key))
    && SameExceptAt(c1.configMaps, c2.configMaps, GaiKey(key.ns))
  }

  ghost predicate SameExceptAt<T>(m1: map<Key, T>, m2: map<Key, T>, at: Key) {
    forall k :: k != at ==> Lookup(m2, k) == Lookup(m1, k)
  }

  /** The services agree on everything but status. */
  ghost predicate SameButStatus(c1: Cluster, c2: Cluster) {
    && c2.services.Keys == c1.services.Keys
    && forall k <- c1.services :: c2.services[k] == c1.services[k].(status := c2.services[k].status)
  }

  lemma WriteTouchesOnly(c: Cluster, key: Key, w: Writes)
    requires key in c.services
    requires w.isvc.Some? ==> w.isvc.value == c.services[key].(status := w.isvc.value.status)
    ensures OnlyTouches(c, Write(c, key, w), key)
  {
  }

  lemma ReconcileTouchesOnly(c: Cluster, key: Key, conflict: Option<Message>, now: Clock)
    ensures OnlyTouches(c, Resolved(c, key, conflict, now), key)
  {
    if key in c.services {
      WriteTouchesOnly(c, key, WritesOf(c, key, OutcomeOf(c, key, conflict), now));
    }
  }

  /** Rendering fails exactly when the checks and the guard passed and the tenant lacks an image or a blob. The
      schema of the tenant asks for both. */
  lemma RenderFailsExactly(c: Cluster, key: Key, conflict: Option<Message>)
    ensures OutcomeOf(c, key, conflict).RenderFailed?
       <==> && key in c.services
            && Checks(c, key, c.services[key]).Go?
            && conflict.None?
            && (c.tenant.value.defaultImage == "" || c.tenant.value.initDataB64 == "")
  {
  }

  /** Rendering failed after the ConfigMap had been applied. */
  predicate AppliesConfigMapOnly(c: Cluster, key: Key, outcome: Outcome)
    requires key in c.services
  {
    outcome.RenderFailed? && c.services[key].spec.storage.weightsCache.Some?
  }

  /** A reconcile that does not get to apply touches no Deployment and no Service. It leaves the ConfigMaps alone
      too, exactly unless rendering failed for a service with a cache and the ConfigMap was not there yet as
      rendered. */
  lemma FailureKeepsChildren(c: Cluster, key: Key, conflict: Option<Message>, now: Clock)
    requires OutcomeOf(c, key, conflict).Refused? || OutcomeOf(c, key, conflict).RenderFailed?
    ensures var after := Resolved(c, key, conflict, now);
            var applied := AppliesConfigMapOnly(c, key, OutcomeOf(c, key, conflict));
            && after.deployments == c.deployments
            && after.kubeServices == c.kubeServices
            && after.configMaps == (if applied then c.configMaps[GaiKey(key.ns) := GaiConfigMap()] else c.configMaps)
            && (after.configMaps == c.configMaps
                <==> (applied ==> Lookup(c.configMaps, GaiKey(key.ns)) == Some(GaiConfigMap())))
            && after.services[key].status.(conditions := [], observedGeneration := 0)
               == c.services[key].status.(conditions := [], observedGeneration := 0)
            && !Holds(after.services[key].status.conditions, Configured)
  {
    var isvc := c.services[key];
    var after := Resolved(c, key, conflict, now);
    var outcome := OutcomeOf(c, key, conflict);
    var reason := if outcome.Refused? then outcome.reason else InvalidConfig;
    var message := if outcome.Refused? then outcome.message else outcome.error;
    FailedFind(isvc.status.conditions, isvc.generation, reason, message, now, Configured);
    if AppliesConfigMapOnly(c, key, outcome) {
      assert GaiKey(key.ns) in after.configMaps && after.configMaps[GaiKey(key.ns)] == GaiConfigMap();
    }
  }

  // ---------- the guard's view ----------

  lemma HoldersUnchanged(c1: Cluster, c2: Cluster, key: Key, i1: InferenceService, i2: InferenceService,
                         holder: Holder, k: Key)
    requires SameButStatus(c1, c2) && c2.pods == c1.pods
    requires Lookup(c2.deployments, k) == Lookup(c1.deployments, k)
    requires i2 == i1.(status := i2.status)
    ensures HoldsClaim(holder, c1, key, i1, k) <==> HoldsClaim(holder, c2, key, i2, k)
  {
  }

  lemma {:induction false} ScanUnchanged(c1: Cluster, c2: Cluster, key: Key, i1: InferenceService,
                                         i2: InferenceService, holder: Holder, order: seq<Key>)
    requires SameButStatus(c1, c2) && c2.pods == c1.pods && c2.deployments == c1.deployments
    requires i2 == i1.(status := i2.status)
    ensures FirstHolder(holder, c1, key, i1, order) == FirstHolder(holder, c2, key, i2, order)
  {
    if order != [] {
      HoldersUnchanged(c1, c2, key, i1, i2, holder, order[0]);
      ScanUnchanged(c1, c2, key, i1, i2, holder, order[1..]);
    }
  }

  /** Status writes are invisible to the guard. */
  lemma GuardIgnoresStatus(c1: Cluster, c2: Cluster, key: Key, order: Listing)
    requires SameButStatus(c1, c2) && c2.pods == c1.pods && c2.deployments == c1.deployments
    ensures Conflict(c1, key, order) == Conflict(c2, key, order)
  {
    if key in c1.services {
      ScanUnchanged(c1, c2, key, c1.services[key], c2.services[key], OlderSibling, order.siblings);
      ScanUnchanged(c1, c2, key, c1.services[key], c2.services[key], OtherDeployment, order.deployments);
      ScanUnchanged(c1, c2, key, c1.services[key], c2.services[key], StandalonePod, order.pods);
    }
  }

  // ---------- running again ----------

  lemma WriteTwice(c: Cluster, key: Key, w: Writes)
    ensures Write(Write(c, key, w), key, w) == Write(c, key, w)
  {
  }

  /** After a reconcile the same outcome asks for the same writes, at any later time. */
  lemma WritesSettle(c: Cluster, key: Key, outcome: Outcome, now: Clock, later: Clock)
    requires key in c.services
    ensures var w := WritesOf(c, key, outcome, now);
            var once := Write(c, key, w);
            key in once.services && Write(once, key, WritesOf(once, key, outcome, later)) == once
  {
    var isvc := c.services[key];
    var w := WritesOf(c, key, outcome, now);
    var once := Write(c, key, w);
    WriteTwice(c, key, w);
    match outcome {
      case Gone =>
      case Refused(reason, message) =>
        FailedTwice(isvc.status.conditions, isvc.generation, reason, message, now, later);
      case RenderFailed(message) =>
        FailedTwice(isvc.status.conditions, isvc.generation, InvalidConfig, message, now, later);
      case DeploymentRejected =>
      case ServiceRejected(template) =>
        assert DeploymentStatus(once, key) == DeploymentStatus(c, key);
      case Succeeded(template, tenant, model) =>
        assert DeploymentStatus(once, key) == DeploymentStatus(c, key);
        AppliedTwice(isvc.status.conditions, isvc.generation, IsAvailable(DeploymentStatus(c, key)), now, later);
    }
    assert WritesOf(once, key, outcome, later) == w;
  }

  /** The second run ends as the first one did. */
  lemma SameOutcome(c: Cluster, key: Key, first: Option<Message>, second: Option<Message>, now: Clock)
    requires first == second || (key in c.services && Checks(c, key, c.services[key]).Refuse?)
    ensures OutcomeOf(Resolved(c, key, first, now), key, second) == OutcomeOf(c, key, first)
  {
    hide FailedConditions, AppliedConditions, RenderDeployment, EndpointURL;
    if key in c.services {
      var outcome := OutcomeOf(c, key, first);
      var once := Resolved(c, key, first, now);
      ReconcileTouchesOnly(c, key, first, now);
      assert Checks(once, key, once.services[key]) == Checks(c, key, c.services[key]);
    }
  }

  lemma ResolvedTwice(c: Cluster, key: Key, first: Option<Message>, second: Option<Message>, now: Clock, later: Clock)
    requires first == second || (key in c.services && Checks(c, key, c.services[key]).Refuse?)
    ensures var once := Resolved(c, key, first, now);
            Resolved(once, key, second, later) == once
  {
    if key in c.services {
      SameOutcome(c, key, first, second, now);
      WritesSettle(c, key, OutcomeOf(c, key, first), now, later);
    }
  }

  /** A Deployment written by a reconcile is the service's own: it never shows up as a conflict later. */
  lemma NoNewConflict(c: Cluster, key: Key, conflict: Option<Message>, now: Clock)
    requires key in c.services
    requires !Conflicted(c, key, c.services[key])
    ensures var once := Resolved(c, key, conflict, now);
            key in once.services && !Conflicted(once, key, once.services[key])
  {
    hide FailedConditions, AppliedConditions, RenderDeployment, EndpointURL;
    var once := Resolved(c, key, conflict, now);
    ReconcileTouchesOnly(c, key, conflict, now);
    var isvc := c.services[key];
    forall holder, k | HoldsClaim(holder, once, key, once.services[key], k)
      ensures HoldsClaim(holder, c, key, isvc, k)
    {
      if k != key {
        HoldersUnchanged(c, once, key, isvc, once.services[key], holder, k);
      }
    }
  }

  ghost predicate RefusedByGuard(c: Cluster, key: Key, call: Call) {
    Ending(c, key, call).Refused? && Ending(c, key, call).reason == TrustedStoreConflict
  }

  /** Reconciling the same service again, at any later time and with lists in any order, changes nothing at
      all, unless the guard refused and now names another holder first; then only the text changes. */
  lemma Idempotent(c: Cluster, key: Key, call: Call, again: Call)
    requires Lists(call.order, c, key.ns)
    requires Lists(again.order, Reconciled(c, key, call), key.ns)
    ensures var once := Reconciled(c, key, call);
            Reconciled(once, key, again) == once
            <==> (RefusedByGuard(c, key, call) ==> Conflict(c, key, again.order) == Conflict(c, key, call.order))
  {
    hide FailedConditions, AppliedConditions, RenderDeployment, EndpointURL;
    var once := Reconciled(c, key, call);
    var first, second := Conflict(c, key, call.order), Conflict(once, key, again.order);
    ReconcileTouchesOnly(c, key, first, call.now);
    if key in c.services {
      var isvc := c.services[key];
      if Checks(c, key, isvc).Refuse? {
        ResolvedTwice(c, key, first, second, call.now, again.now);
      } else if first.None? {
        GuardIsExact(c, key, isvc, call.order);
        NoNewConflict(c, key, first, call.now);
        GuardIsExact(once, key, once.services[key], again.order);
        ResolvedTwice(c, key, first, second, call.now, again.now);
      } else {
        GuardIgnoresStatus(c, once, key, again.order);
        if first == second {
          ResolvedTwice(c, key, first, second, call.now, again.now);
        } else {
          VerdictIgnoresOrder(c, key, isvc, call.order, again.order);
          OtherTextOtherStatus(c, key, first.value, second.value, call.now, again.now);
        }
      }
    }
  }

  lemma OtherTextOtherStatus(c: Cluster, key: Key, text: Message, other: Message, now: Clock, later: Clock)
    requires key in c.services && Checks(c, key, c.services[key]).Go? && text != other
    ensures var once := Resolved(c, key, Some(text), now);
            Resolved(once, key, Some(other), later) != once
  {
    var once := Resolved(c, key, Some(text), now);
    var twice := Resolved(once, key, Some(other), later);
    var isvc := c.services[key];
    ReconcileTouchesOnly(c, key, Some(text), now);
    assert OutcomeOf(once, key, Some(other)) == Refused(TrustedStoreConflict, other);
    FailedFind(isvc.status.conditions, isvc.generation, TrustedStoreConflict, text, now, Configured);
    FailedFind(once.services[key].status.conditions, isvc.generation, TrustedStoreConflict, other, later, Configured);
    assert Find(twice.services[key].status.conditions, Configured).value.message == other;
  }
}
