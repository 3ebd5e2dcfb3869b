/** Namespaces do not see each other. */
module Isolation {
  import opened Types
  import opened Conditions
  import opened Render
  import opened Guard
  import opened Reconcile

  function InNamespace<T>(m: map<Key, T>, ns: string): map<Key, T> {
    map k | k in m && k.ns == ns :: m[k]
  }

  /** The cluster as one namespace sees it. */
  function View(c: Cluster, ns: string): Cluster {
    Cluster(InNamespace(c.services, ns), InNamespace(c.models, ns), c.tenant, InNamespace(c.deployments, ns),
            InNamespace(c.kubeServices, ns), InNamespace(c.configMaps, ns), InNamespace(c.pods, ns))
  }

  lemma ViewTwice(c: Cluster, ns: string)
    ensures View(View(c, ns), ns) == View(c, ns)
  {
  }

  lemma PutInNamespace<T>(m: map<Key, T>, key: Key, value: Option<T>, ns: string)
    ensures InNamespace(Put(m, key, value), ns) ==
            if key.ns == ns then Put(InNamespace(m, ns), key, value) else InNamespace(m, ns)
  {
  }

  lemma WriteInNamespace(c: Cluster, key: Key, w: Writes, ns: string)
    ensures View(Write(c, key, w), ns) == if key.ns == ns then Write(View(c, ns), key, w) else View(c, ns)
  {
    PutInNamespace(c.services, key, w.isvc, ns);
    PutInNamespace(c.deployments, key, w.deployment, ns);
    PutInNamespace(c.kubeServices, ServiceKey(key), w.service, ns);
    PutInNamespace(c.configMaps, GaiKey(key.ns), if w.configMap then Some(GaiConfigMap()) else None, ns);
  }

  /** A reconcile reads and writes its own namespace and reads the tenant, nothing else. */
  lemma ReconcileIsLocal(c: Cluster, key: Key, conflict: Option<Message>, now: Clock, ns: string)
    ensures View(Resolved(c, key, conflict, now), ns)
         == if key.ns == ns then Resolved(View(c, ns), key, conflict, now) else View(c, ns)
  {
    hide OutcomeOf, WritesOf, Write;
    if key in c.services {
      var outcome := OutcomeOf(c, key, conflict);
      WriteInNamespace(c, key, WritesOf(c, key, outcome, now), ns);
      if key.ns == ns {
        SameDecision(c, key, conflict, now);
      }
    }
  }

  lemma SameDecision(c: Cluster, key: Key, conflict: Option<Message>, now: Clock)
    requires key in c.services
    ensures var view := View(c, key.ns);
            && key in view.services
            && OutcomeOf(view, key, conflict) == OutcomeOf(c, key, conflict)
            && WritesOf(view, key, OutcomeOf(c, key, conflict), now)
                == WritesOf(c, key, OutcomeOf(c, key, conflict), now)
  {
    hide FailedConditions, AppliedConditions, RenderDeployment, EndpointURL, OwnChecks;
    var view := View(c, key.ns);
    assert view.services[key] == c.services[key];
    assert Lookup(view.models, ModelKey(key, c.services[key])) == Lookup(c.models, ModelKey(key, c.services[key]));
  }

  /** A cluster is its views. */
  lemma ViewsDetermine(c1: Cluster, c2: Cluster)
    requires forall ns :: View(c1, ns) == View(c2, ns)
    ensures c1 == c2
  {
    assert View(c1, "") == View(c2, "");
    forall k: Key
      ensures Lookup(c1.services, k) == Lookup(c2.services, k)
      ensures Lookup(c1.models, k) == Lookup(c2.models, k)
      ensures Lookup(c1.deployments, k) == Lookup(c2.deployments, k)
      ensures Lookup(c1.kubeServices, k) == Lookup(c2.kubeServices, k)
      ensures Lookup(c1.configMaps, k) == Lookup(c2.configMaps, k)
      ensures Lookup(c1.pods, k) == Lookup(c2.pods, k)
    {
      assert View(c1, k.ns) == View(c2, k.ns);
      SameAt(c1.services, c2.services, k);
      SameAt(c1.models, c2.models, k);
      SameAt(c1.deployments, c2.deployments, k);
      SameAt(c1.kubeServices, c2.kubeServices, k);
      SameAt(c1.configMaps, c2.configMaps, k);
      SameAt(c1.pods, c2.pods, k);
    }
    SameMap(c1.services, c2.services);
    SameMap(c1.models, c2.models);
    SameMap(c1.deployments, c2.deployments);
    SameMap(c1.kubeServices, c2.kubeServices);
    SameMap(c1.configMaps, c2.configMaps);
    SameMap(c1.pods, c2.pods);
  }

  lemma SameMap<T>(m1: map<Key, T>, m2: map<Key, T>)
    requires forall k :: Lookup(m1, k) == Lookup(m2, k)
    ensures m1 == m2
  {
    forall k
      ensures k in m1 <==> k in m2
      ensures k in m1 ==> m1[k] == m2[k]
    {
      assert Lookup(m1, k) == Lookup(m2, k);
    }
  }

  /** The guard sees only its own namespace. */
  lemma GuardIsLocal(c1: Cluster, c2: Cluster, key: Key, order: Listing)
    requires View(c1, key.ns) == View(c2, key.ns)
    requires Lists(order, c1, key.ns)
    ensures Lists(order, c2, key.ns) && Conflict(c1, key, order) == Conflict(c2, key, order)
  {
    SameKeys(c1.services, c2.services, key.ns);
    SameKeys(c1.deployments, c2.deployments, key.ns);
    SameKeys(c1.pods, c2.pods, key.ns);
    if key in c1.services {
      var isvc := c1.services[key];
      assert c2.services[key] == isvc by { SameAt(c1.services, c2.services, key); }
      ScanIsLocal(c1, c2, key, isvc, OlderSibling, order.siblings);
      ScanIsLocal(c1, c2, key, isvc, OtherDeployment, order.deployments);
      ScanIsLocal(c1, c2, key, isvc, StandalonePod, order.pods);
    }
  }

  lemma SameAt<T>(m1: map<Key, T>, m2: map<Key, T>, k: Key)
    requires InNamespace(m1, k.ns) == InNamespace(m2, k.ns)
    ensures Lookup(m1, k) == Lookup(m2, k)
  {
    assert k in m1 <==> k in InNamespace(m1, k.ns);
    assert k in m2 <==> k in InNamespace(m2, k.ns);
  }

  lemma SameKeys<T>(m1: map<Key, T>, m2: map<Key, T>, ns: string)
    requires InNamespace(m1, ns) == InNamespace(m2, ns)
    ensures forall k: Key :: k.ns == ns ==> (k in m1 <==> k in m2)
  {
    forall k: Key | k.ns == ns ensures k in m1 <==> k in m2 {
      SameAt(m1, m2, k);
    }
  }

  lemma {:induction false} ScanIsLocal(c1: Cluster, c2: Cluster, key: Key, isvc: InferenceService, holder: Holder,
                                       order: seq<Key>)
    requires View(c1, key.ns) == View(c2, key.ns)
    ensures FirstHolder(holder, c1, key, isvc, order) == FirstHolder(holder, c2, key, isvc, order)
  {
    if order != [] {
      var k := order[0];
      if k.ns == key.ns {
        SameAt(c1.services, c2.services, k);
        SameAt(c1.deployments, c2.deployments, k);
        SameAt(c1.pods, c2.pods, k);
      }
      ScanIsLocal(c1, c2, key, isvc, holder, order[1..]);
    }
  }

  /** Reconciles in different namespaces commute, on every cluster. */
  lemma NamespacesCommute(c: Cluster, key: Key, call: Call, other: Key, otherCall: Call)
    requires key.ns != other.ns
    requires Lists(call.order, c, key.ns) && Lists(otherCall.order, c, other.ns)
    ensures Lists(call.order, Reconciled(c, other, otherCall), key.ns)
    ensures Lists(otherCall.order, Reconciled(c, key, call), other.ns)
    ensures Reconciled(Reconciled(c, key, call), other, otherCall)
        == Reconciled(Reconciled(c, other, otherCall), key, call)
  {
    var first, second := Reconciled(c, key, call), Reconciled(c, other, otherCall);
    var conflict, otherConflict := Conflict(c, key, call.order), Conflict(c, other, otherCall.order);
    ReconcileIsLocal(c, key, conflict, call.now, other.ns);
    ReconcileIsLocal(c, other, otherConflict, otherCall.now, key.ns);
    GuardIsLocal(c, second, key, call.order);
    GuardIsLocal(c, first, other, otherCall.order);
    var left, right := Reconciled(first, other, otherCall), Reconciled(second, key, call);
    forall ns ensures View(left, ns) == View(right, ns) {
      ReconcileIsLocal(first, other, otherConflict, otherCall.now, ns);
      ReconcileIsLocal(second, key, conflict, call.now, ns);
      ReconcileIsLocal(c, key, conflict, call.now, ns);
      ReconcileIsLocal(c, other, otherConflict, otherCall.now, ns);
    }
    ViewsDetermine(left, right);
  }
}
