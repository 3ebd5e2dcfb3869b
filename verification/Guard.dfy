/** The trusted-store guard: who holds a claim against a service, and the three scans that find out. */
module Guard {
  import opened Types
  import opened Order
  import opened Render

  predicate ControlledBy(d: Deployment, isvc: InferenceService) {
    d.controller == Some(ByService(isvc.uid))
  }

  /** The object stored under k, of the given sort, holds the claim of `isvc` (stored under `key`) against it. */
  predicate HoldsClaim(holder: Holder, c: Cluster, key: Key, isvc: InferenceService, k: Key) {
    && k.ns == key.ns
    && match holder
       case OlderSibling =>
         && k in c.services
         && k.name != key.name
         && c.services[k].Claim() == isvc.Claim()
         && Precedes(k.name, c.services[k], key.name, isvc)
       case OtherDeployment =>
         && k in c.deployments
         && !ControlledBy(c.deployments[k], isvc)
         && MountsClaim(c.deployments[k].template.spec, isvc.Claim())
       case StandalonePod =>
         && k in c.pods
         && c.pods[k].ownerReferences == []
         && MountsClaim(c.pods[k].spec, isvc.Claim())
  }

  /** The guard's declarative meaning. */
  ghost predicate Conflicted(c: Cluster, key: Key, isvc: InferenceService) {
    exists holder, k :: HoldsClaim(holder, c, key, isvc, k)
  }

  /** One scan with early exit. */
  function FirstHolder(holder: Holder, c: Cluster, key: Key, isvc: InferenceService, order: seq<Key>): Option<Message> {
    if order == [] then None
    else if HoldsClaim(holder, c, key, isvc, order[0]) then Some(HeldBy(holder, order[0].name, isvc.Claim()))
    else FirstHolder(holder, c, key, isvc, order[1..])
  }

  /** The three scans one after the other. */
  function GuardMessage(c: Cluster, key: Key, isvc: InferenceService, order: Listing): Option<Message> {
    var sibling := FirstHolder(OlderSibling, c, key, isvc, order.siblings);
    if sibling.Some? then sibling
    else
      var deployment := FirstHolder(OtherDeployment, c, key, isvc, order.deployments);
      if deployment.Some? then deployment
      else FirstHolder(StandalonePod, c, key, isvc, order.pods)
  }

  lemma {:induction false} FirstHolderExact(holder: Holder, c: Cluster, key: Key, isvc: InferenceService,
                                            order: seq<Key>)
    ensures var first := FirstHolder(holder, c, key, isvc, order);
            && (first.Some? <==> exists k <- order :: HoldsClaim(holder, c, key, isvc, k))
            && (first.Some? ==>
                  exists k <- order ::
                    HoldsClaim(holder, c, key, isvc, k) && first.value == HeldBy(holder, k.name, isvc.Claim()))
  {
    if order != [] {
      FirstHolderExact(holder, c, key, isvc, order[1..]);
      assert order == [order[0]] + order[1..];
    }
  }

  /** The scans report a conflict exactly when someone holds the claim, and what they name does hold it. */
  lemma GuardIsExact(c: Cluster, key: Key, isvc: InferenceService, order: Listing)
    requires Lists(order, c, key.ns)
    ensures GuardMessage(c, key, isvc, order).Some? <==> Conflicted(c, key, isvc)
    ensures GuardMessage(c, key, isvc, order).Some? ==>
              exists holder, k ::
                && HoldsClaim(holder, c, key, isvc, k)
                && GuardMessage(c, key, isvc, order).value == HeldBy(holder, k.name, isvc.Claim())
  {
    FirstHolderExact(OlderSibling, c, key, isvc, order.siblings);
    FirstHolderExact(OtherDeployment, c, key, isvc, order.deployments);
    FirstHolderExact(StandalonePod, c, key, isvc, order.pods);
    forall holder, k | HoldsClaim(holder, c, key, isvc, k)
      ensures GuardMessage(c, key, isvc, order).Some?
    {
      match holder {
        case OlderSibling => assert k in order.siblings;
        case OtherDeployment => assert k in order.deployments;
        case StandalonePod => assert k in order.pods;
      }
    }
  }

  /** The verdict does not depend on the order in which the three lists come back. */
  lemma VerdictIgnoresOrder(c: Cluster, key: Key, isvc: InferenceService, order: Listing, other: Listing)
    requires Lists(order, c, key.ns) && Lists(other, c, key.ns)
    ensures GuardMessage(c, key, isvc, order).Some? <==> GuardMessage(c, key, isvc, other).Some?
  {
    GuardIsExact(c, key, isvc, order);
    GuardIsExact(c, key, isvc, other);
  }
}
