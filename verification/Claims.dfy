/** One workload per claim, seen from a single reconcile. */
module Claims {
  import opened Types
  import opened Conditions
  import opened Order
  import opened Render
  import opened Guard
  import opened Reconcile
  import opened Frame

  /** No older service of the namespace asks for the same claim. */
  ghost predicate Least(c: Cluster, key: Key)
    requires key in c.services
  {
    forall k :: !HoldsClaim(OlderSibling, c, key, c.services[key], k)
  }

  /** Somebody other than this service mounts its claim. */
  ghost predicate MountedElsewhere(c: Cluster, key: Key)
    requires key in c.services
  {
    exists k :: HoldsClaim(OtherDeployment, c, key, c.services[key], k)
        || HoldsClaim(StandalonePod, c, key, c.services[key], k)
  }

  /** The checks that concern the service, its model and the tenant alone. */
  predicate Renders(c: Cluster, key: Key)
    requires key in c.services
  {
    var checks := Checks(c, key, c.services[key]);
    checks.Go? && RenderFor(key, c.services[key], checks.tenant, checks.model).Success?
  }

  lemma ConflictedMeans(c: Cluster, key: Key)
    requires key in c.services
    ensures Conflicted(c, key, c.services[key]) <==> !Least(c, key) || MountedElsewhere(c, key)
  {
    if Conflicted(c, key, c.services[key]) {
      var holder, k :| HoldsClaim(holder, c, key, c.services[key], k);
      assert holder == OlderSibling || holder == OtherDeployment || holder == StandalonePod;
    }
  }

  /** When exactly a reconcile succeeds; and it then reports Configured, otherwise it does not start to. */
  lemma SucceedsExactly(c: Cluster, key: Key, call: Call)
    requires key in c.services && Lists(call.order, c, key.ns)
    ensures Ending(c, key, call).Succeeded?
       <==> && Renders(c, key)
            && Least(c, key)
            && !MountedElsewhere(c, key)
            && !DeploymentTaken(c, key, c.services[key].uid)
            && !ServiceTaken(c, key, c.services[key].uid)
    ensures Holds(Reconciled(c, key, call).services[key].status.conditions, Configured)
       <==> || Ending(c, key, call).Succeeded?
            || ((Ending(c, key, call).DeploymentRejected? || Ending(c, key, call).ServiceRejected?)
                && Holds(c.services[key].status.conditions, Configured))
  {
    hide FailedConditions, AppliedConditions, EndpointURL;
    var isvc := c.services[key];
    GuardIsExact(c, key, isvc, call.order);
    ConflictedMeans(c, key);
    var conflict := Conflict(c, key, call.order);
    if Ending(c, key, call).Refused? || Ending(c, key, call).RenderFailed? {
      FailureKeepsChildren(c, key, conflict, call.now);
    } else {
      AppliedFind(isvc.status.conditions, isvc.generation, IsAvailable(DeploymentStatus(c, key)), call.now, Configured);
    }
  }

  // ---------- counting mounters ----------

  function DeploymentMounters(c: Cluster, ns: string, claim: string): set<Key> {
    set k | k in c.deployments && k.ns == ns && MountsClaim(c.deployments[k].template.spec, claim)
  }

  function PodMounters(c: Cluster, ns: string, claim: string): set<Key> {
    set k | k in c.pods && k.ns == ns && c.pods[k].ownerReferences == [] && MountsClaim(c.pods[k].spec, claim)
  }

  function Mounters(c: Cluster, ns: string, claim: string): nat {
    |DeploymentMounters(c, ns, claim)| + |PodMounters(c, ns, claim)|
  }

  /** A Deployment controlled by a service carries that service's name. */
  ghost predicate OwnersNamed(c: Cluster) {
    forall k <- c.deployments, s <- c.services :: ControlledBy(c.deployments[k], c.services[s]) ==> k == s
  }

  /** A reconcile keeps it that way. */
  lemma ReconcileKeepsOwnersNamed(c: Cluster, key: Key, call: Call)
    requires OwnersNamed(c)
    requires forall a <- c.services, b <- c.services :: c.services[a].uid == c.services[b].uid ==> a == b
    ensures OwnersNamed(Reconciled(c, key, call))
  {
    hide FailedConditions, AppliedConditions, RenderDeployment, EndpointURL;
    var after := Reconciled(c, key, call);
    ReconcileTouchesOnly(c, key, Conflict(c, key, call.order), call.now);
    forall k, s | k in after.deployments && s in after.services && ControlledBy(after.deployments[k], after.services[s])
      ensures k == s
    {
      assert || Lookup(after.deployments, k) == Lookup(c.deployments, k)
             || (k == key && ControlledBy(after.deployments[k], c.services[key]));
    }
  }

  /** A reconcile never raises the number of mounters of any claim above one. */
  lemma NoSecondMounter(c: Cluster, key: Key, call: Call, ns: string, claim: string)
    requires OwnersNamed(c)
    requires Lists(call.order, c, key.ns)
    ensures Mounters(Reconciled(c, key, call), ns, claim) <= Mounters(c, ns, claim)
         || Mounters(Reconciled(c, key, call), ns, claim) <= 1
  {
    var after := Reconciled(c, key, call);
    ReconcileTouchesOnly(c, key, Conflict(c, key, call.order), call.now);
    assert PodMounters(after, ns, claim) == PodMounters(c, ns, claim);
    if key !in c.services || after.deployments == c.deployments || key.ns != ns {
      assert DeploymentMounters(after, ns, claim) == DeploymentMounters(c, ns, claim);
    } else {
      var isvc := c.services[key];
      OwnTemplateOnly(c, key, call);
      if claim == isvc.Claim() {
        GuardIsExact(c, key, isvc, call.order);
        SoleMounter(c, after, key, claim);
      } else {
        assert DeploymentMounters(after, ns, claim) <= DeploymentMounters(c, ns, claim);
        SubsetSize(DeploymentMounters(after, ns, claim), DeploymentMounters(c, ns, claim));
      }
    }
  }

  lemma OwnTemplateOnly(c: Cluster, key: Key, call: Call)
    requires key in c.services && Lists(call.order, c, key.ns)
    requires Reconciled(c, key, call).deployments != c.deployments
    ensures Conflict(c, key, call.order).None?
    ensures var after := Reconciled(c, key, call);
            && key in after.deployments
            && after.deployments[key].controller == Some(ByService(c.services[key].uid))
            && forall claim :: MountsClaim(after.deployments[key].template.spec, claim)
                <==> claim == c.services[key].Claim()
  {
    var isvc := c.services[key];
    var outcome := Ending(c, key, call);
    assert outcome.ServiceRejected? || outcome.Succeeded?;
    var checks := Checks(c, key, isvc);
    forall claim ensures MountsClaim(outcome.template.spec, claim) <==> claim == isvc.Claim() {
      RenderedMountsExactly(key.name, isvc.spec, isvc.spec.modelRef, checks.model, TenantConfig(checks.tenant), claim);
    }
  }

  lemma SoleMounter(c: Cluster, after: Cluster, key: Key, claim: string)
    requires key in c.services && claim == c.services[key].Claim()
    requires OwnersNamed(c) && OnlyTouches(c, after, key)
    requires !Conflicted(c, key, c.services[key])
    ensures Mounters(after, key.ns, claim) <= 1
  {
    var isvc := c.services[key];
    forall k | k != key ensures k !in DeploymentMounters(after, key.ns, claim) {
      assert Lookup(after.deployments, k) == Lookup(c.deployments, k);
      assert !HoldsClaim(OtherDeployment, c, key, isvc, k);
    }
    forall k <- PodMounters(after, key.ns, claim) ensures false {
      assert HoldsClaim(StandalonePod, c, key, isvc, k);
    }
    SubsetSize(DeploymentMounters(after, key.ns, claim), {key});
    assert PodMounters(after, key.ns, claim) == {};
  }

  lemma SubsetSize<T>(a: set<T>, b: set<T>)
    requires a <= b
    ensures |a| <= |b|
  {
    assert b == a + (b - a);
  }

  // ---------- handover ----------

  /** While a Deployment that is not the service's own mounts the claim, for instance the one a deleted winner
      left behind, a reconcile writes no Deployment and does not report Configured. */
  lemma HandoverWaits(c: Cluster, key: Key, call: Call, left: Key)
    requires key in c.services && Lists(call.order, c, key.ns)
    requires HoldsClaim(OtherDeployment, c, key, c.services[key], left)
    ensures var after := Reconciled(c, key, call);
            && after.deployments == c.deployments
            && after.kubeServices == c.kubeServices
            && !Holds(after.services[key].status.conditions, Configured)
  {
    GuardIsExact(c, key, c.services[key], call.order);
    FailureKeepsChildren(c, key, Conflict(c, key, call.order), call.now);
  }

  /** Once nobody mounts the claim, the next reconcile of the least service that passes its other checks
      succeeds, and every other service with that claim still fails after it. */
  lemma HandoverCompletes(c: Cluster, key: Key, call: Call, other: Key, otherCall: Call)
    requires key in c.services && Lists(call.order, c, key.ns)
    requires Renders(c, key) && Least(c, key) && !MountedElsewhere(c, key)
    requires !DeploymentTaken(c, key, c.services[key].uid) && !ServiceTaken(c, key, c.services[key].uid)
    requires other in c.services && other.ns == key.ns && other != key
        && c.services[other].Claim() == c.services[key].Claim()
    requires Lists(otherCall.order, Reconciled(c, key, call), key.ns)
    ensures var after := Reconciled(c, key, call);
            && Holds(after.services[key].status.conditions, Configured)
            && key in after.deployments && ControlledBy(after.deployments[key], c.services[key])
            && MountsClaim(after.deployments[key].template.spec, c.services[key].Claim())
            && Ending(after, other, otherCall).Refused?
  {
    WinnerApplies(c, key, call);
    var after := Reconciled(c, key, call);
    ReconcileTouchesOnly(c, key, Conflict(c, key, call.order), call.now);
    LeastBeats(c, key, other);
    HoldersUnchangedHere(c, after, key, other);
    assert HoldsClaim(OlderSibling, after, other, after.services[other], key);
    hide Reconciled, WritesOf, HoldsClaim, RenderFor;
    GuardIsExact(after, other, after.services[other], otherCall.order);
  }

  lemma HoldersUnchangedHere(c: Cluster, after: Cluster, key: Key, other: Key)
    requires SameButStatus(c, after) && other in c.services
    requires HoldsClaim(OlderSibling, c, other, c.services[other], key)
    ensures HoldsClaim(OlderSibling, after, other, after.services[other], key)
  {
  }

  lemma WinnerApplies(c: Cluster, key: Key, call: Call)
    requires key in c.services && Lists(call.order, c, key.ns)
    requires Renders(c, key) && Least(c, key) && !MountedElsewhere(c, key)
    requires !DeploymentTaken(c, key, c.services[key].uid) && !ServiceTaken(c, key, c.services[key].uid)
    ensures var after := Reconciled(c, key, call);
            && key in after.services && Holds(after.services[key].status.conditions, Configured)
            && key in after.deployments && ControlledBy(after.deployments[key], c.services[key])
            && MountsClaim(after.deployments[key].template.spec, c.services[key].Claim())
  {
    hide FailedConditions, AppliedConditions, EndpointURL;
    SucceedsExactly(c, key, call);
    var isvc := c.services[key];
    var checks := Checks(c, key, isvc);
    RenderedMountsExactly(key.name, isvc.spec, isvc.spec.modelRef, checks.model, TenantConfig(checks.tenant),
        isvc.Claim());
    hide MountsClaim, MountedElsewhere, Least;
  }

  /** The least service of a claim holds it against every other one. */
  lemma LeastBeats(c: Cluster, key: Key, other: Key)
    requires key in c.services && other in c.services && other != key && other.ns == key.ns
    requires c.services[other].Claim() == c.services[key].Claim()
    requires Least(c, key)
    ensures HoldsClaim(OlderSibling, c, other, c.services[other], key)
  {
    assert !HoldsClaim(OlderSibling, c, key, c.services[key], other);
    PrecedesIsStrictTotal(key.name, c.services[key], other.name, c.services[other], key.name, c.services[key]);
  }
}
