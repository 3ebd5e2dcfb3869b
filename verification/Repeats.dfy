/** When a reconcile is idempotent whatever the lists return first, read off the cluster alone. */
module Repeats {
  import opened Types
  import opened Guard
  import opened Reconcile
  import opened Frame

  /** The order in which the guard looks for holders. */
  function Rank(holder: Holder): nat {
    match holder
    case OlderSibling => 0
    case OtherDeployment => 1
    case StandalonePod => 2
  }

  /** The object under k holds the claim, and nothing of a sort that is looked at earlier does. */
  ghost predicate OfFirstSort(c: Cluster, key: Key, isvc: InferenceService, holder: Holder, k: Key) {
    && HoldsClaim(holder, c, key, isvc, k)
    && forall h, j :: HoldsClaim(h, c, key, isvc, j) ==> Rank(holder) <= Rank(h)
  }

  /** Exactly one object of the first sort that has any holds the claim. */
  ghost predicate SoleHolder(c: Cluster, key: Key, isvc: InferenceService) {
    exists holder, k ::
      && OfFirstSort(c, key, isvc, holder, k)
      && forall j :: HoldsClaim(holder, c, key, isvc, j) ==> j == k
  }

  /** Some object of the first sort holds the claim, if any does. */
  lemma FirstSort(c: Cluster, key: Key, isvc: InferenceService) returns (holder: Holder, k: Key)
    requires Conflicted(c, key, isvc)
    ensures OfFirstSort(c, key, isvc, holder, k)
  {
    holder, k :| HoldsClaim(holder, c, key, isvc, k);
    if h1, k1 :| HoldsClaim(h1, c, key, isvc, k1) && Rank(h1) < Rank(holder) {
      holder, k := h1, k1;
      if h2, k2 :| HoldsClaim(h2, c, key, isvc, k2) && Rank(h2) < Rank(holder) {
        holder, k := h2, k2;
      }
    }
  }

  function ListOf(order: Listing, holder: Holder): seq<Key> {
    match holder
    case OlderSibling => order.siblings
    case OtherDeployment => order.deployments
    case StandalonePod => order.pods
  }

  /** The message names the first holder in the list of the first sort. */
  lemma MessageFromFirstSort(c: Cluster, key: Key, isvc: InferenceService, order: Listing, holder: Holder, k: Key)
    requires Lists(order, c, key.ns) && OfFirstSort(c, key, isvc, holder, k)
    ensures GuardMessage(c, key, isvc, order) == FirstHolder(holder, c, key, isvc, ListOf(order, holder))
    ensures GuardMessage(c, key, isvc, order).Some?
  {
    FirstHolderExact(OlderSibling, c, key, isvc, order.siblings);
    FirstHolderExact(OtherDeployment, c, key, isvc, order.deployments);
    FirstHolderExact(StandalonePod, c, key, isvc, order.pods);
    assert k in ListOf(order, holder);
  }

  lemma SoleHolderIsNamed(c: Cluster, key: Key, isvc: InferenceService, order: Listing, other: Listing)
    requires SoleHolder(c, key, isvc)
    requires Lists(order, c, key.ns) && Lists(other, c, key.ns)
    ensures GuardMessage(c, key, isvc, order) == GuardMessage(c, key, isvc, other)
  {
    var holder, k :| OfFirstSort(c, key, isvc, holder, k) && forall j :: HoldsClaim(holder, c, key, isvc, j) ==> j == k;
    MessageFromFirstSort(c, key, isvc, order, holder, k);
    MessageFromFirstSort(c, key, isvc, other, holder, k);
    FirstHolderExact(holder, c, key, isvc, ListOf(order, holder));
    FirstHolderExact(holder, c, key, isvc, ListOf(other, holder));
  }

  // ---------- every holder can come first ----------

  lemma {:induction false} InSomeOrder(keys: set<Key>) returns (order: seq<Key>)
    ensures (forall k :: k in order <==> k in keys) && Distinct(order)
  {
    if keys == {} {
      order := [];
    } else {
      var k :| k in keys;
      var rest := InSomeOrder(keys - {k});
      order := [k] + rest;
    }
  }

  lemma StartingWith(keys: set<Key>, ns: string, first: Key) returns (order: seq<Key>)
    ensures Enumerates(order, keys, ns)
    ensures first in keys && first.ns == ns ==> order != [] && order[0] == first
  {
    var here := set k | k in keys && k.ns == ns;
    var rest := InSomeOrder(here - {first});
    order := if first in here then [first] + rest else rest;
  }

  lemma ListingStartingWith(c: Cluster, ns: string, first: Key) returns (order: Listing)
    ensures Lists(order, c, ns)
    ensures forall holder, key: Key, isvc ::
              key.ns == ns && HoldsClaim(holder, c, key, isvc, first) ==>
                  ListOf(order, holder) != [] && ListOf(order, holder)[0] == first
  {
    var siblings := StartingWith(c.services.Keys, ns, first);
    var deployments := StartingWith(c.deployments.Keys, ns, first);
    var pods := StartingWith(c.pods.Keys, ns, first);
    order := Listing(siblings, deployments, pods);
  }

  lemma NamedInSomeListing(c: Cluster, key: Key, isvc: InferenceService, holder: Holder,
                           k: Key) returns (order: Listing)
    requires OfFirstSort(c, key, isvc, holder, k)
    ensures Lists(order, c, key.ns)
    ensures GuardMessage(c, key, isvc, order) == Some(HeldBy(holder, k.name, isvc.Claim()))
  {
    order := ListingStartingWith(c, key.ns, k);
    MessageFromFirstSort(c, key, isvc, order, holder, k);
  }

  // ---------- the theorem ----------

  ghost predicate AlwaysRepeats(c: Cluster, key: Key) {
    forall call: Call, again: Call ::
      Lists(call.order, c, key.ns) && Lists(again.order, Reconciled(c, key, call), key.ns) ==>
        Reconciled(Reconciled(c, key, call), key, again) == Reconciled(c, key, call)
  }

  /** A reconcile is idempotent for every pair of listings and times exactly when the service is gone, its own
      checks refuse it, nobody holds its claim, or exactly one object of the first sort does. */
  lemma RepeatsExactly(c: Cluster, key: Key)
    ensures AlwaysRepeats(c, key)
       <==> (key in c.services ==>
               || Checks(c, key, c.services[key]).Refuse?
               || !Conflicted(c, key, c.services[key])
               || SoleHolder(c, key, c.services[key]))
  {
    if key in c.services && Checks(c, key, c.services[key]).Go? && Conflicted(c, key, c.services[key]) {
      if SoleHolder(c, key, c.services[key]) {
        forall call: Call, again: Call | Lists(call.order, c, key.ns)
            && Lists(again.order, Reconciled(c, key, call), key.ns)
          ensures Reconciled(Reconciled(c, key, call), key, again) == Reconciled(c, key, call)
        {
          RepeatsWithOneHolder(c, key, call, again);
        }
      } else {
        SomeListingsDiffer(c, key);
      }
    } else {
      forall call: Call, again: Call | Lists(call.order, c, key.ns)
          && Lists(again.order, Reconciled(c, key, call), key.ns)
        ensures Reconciled(Reconciled(c, key, call), key, again) == Reconciled(c, key, call)
      {
        NotRefusedByGuard(c, key, call);
        Idempotent(c, key, call, again);
      }
    }
  }

  lemma NotRefusedByGuard(c: Cluster, key: Key, call: Call)
    requires Lists(call.order, c, key.ns)
    requires key in c.services ==> Checks(c, key, c.services[key]).Refuse? || !Conflicted(c, key, c.services[key])
    ensures !RefusedByGuard(c, key, call)
  {
    if key in c.services {
      GuardIsExact(c, key, c.services[key], call.order);
    }
  }

  lemma RefusalKeepsLists(c: Cluster, key: Key, call: Call, order: Listing)
    requires key in c.services && Lists(call.order, c, key.ns) && Ending(c, key, call).Refused?
    ensures Lists(order, c, key.ns) <==> Lists(order, Reconciled(c, key, call), key.ns)
  {
    FailureKeepsChildren(c, key, Conflict(c, key, call.order), call.now);
    ReconcileTouchesOnly(c, key, Conflict(c, key, call.order), call.now);
  }

  lemma RepeatsWithOneHolder(c: Cluster, key: Key, call: Call, again: Call)
    requires key in c.services && Checks(c, key, c.services[key]).Go? && Conflicted(c, key, c.services[key])
    requires SoleHolder(c, key, c.services[key])
    requires Lists(call.order, c, key.ns) && Lists(again.order, Reconciled(c, key, call), key.ns)
    ensures Reconciled(Reconciled(c, key, call), key, again) == Reconciled(c, key, call)
  {
    GuardIsExact(c, key, c.services[key], call.order);
    RefusalKeepsLists(c, key, call, again.order);
    SoleHolderIsNamed(c, key, c.services[key], call.order, again.order);
    Idempotent(c, key, call, again);
  }

  /** Two holders of the first sort can each be named first, and then the second reconcile rewrites the text. */
  lemma SomeListingsDiffer(c: Cluster, key: Key)
    requires key in c.services && Checks(c, key, c.services[key]).Go? && Conflicted(c, key, c.services[key])
    requires !SoleHolder(c, key, c.services[key])
    ensures !AlwaysRepeats(c, key)
  {
    var isvc := c.services[key];
    var holder, k := FirstSort(c, key, isvc);
    var j :| HoldsClaim(holder, c, key, isvc, j) && j != k;
    var one := NamedInSomeListing(c, key, isvc, holder, k);
    var two := NamedInSomeListing(c, key, isvc, holder, j);
    var call, again := Call(EPOCH, one), Call(EPOCH, two);
    assert k.ns == j.ns == key.ns;
    RefusalKeepsLists(c, key, call, two);
    Idempotent(c, key, call, again);
  }
}
