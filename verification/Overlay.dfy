/** A namespace in which some reconciles have finished and others have done part of their writes. */
module Overlay {
  import opened Types
  import opened Render
  import opened Reconcile
  import opened Frame
  import opened Isolation
  import opened Confluence

  /** What each service's reconcile writes in all. */
  type Plan = map<Key, Writes>

  /** The services that have made one of their writes: their Deployment, their Service, the ConfigMap. */
  datatype Made = Made(deployments: set<Key>, services: set<Key>, configMaps: set<Key>)

  function DeploymentNow(plan: Plan, base: Cluster, made: Made, k: Key): Option<Deployment> {
    if k in made.deployments && k in plan && plan[k].deployment.Some? then plan[k].deployment
    else Lookup(base.deployments, k)
  }

  function KubeServiceNow(plan: Plan, base: Cluster, made: Made, k: Key): Option<Service> {
    if k in made.services && k in plan && plan[k].service.Some? then plan[k].service
    else Lookup(base.kubeServices, ServiceKey(k))
  }

  predicate Maps(plan: Plan, made: Made, k: Key) {
    k in made.configMaps && k in plan && plan[k].configMap
  }

  ghost function ConfigMapNow(plan: Plan, base: Cluster, made: Made, ns: string): Option<map<string, string>> {
    if exists k :: Maps(plan, made, k) then Some(GaiConfigMap()) else Lookup(base.configMaps, GaiKey(ns))
  }

  function ErasedAt(services: map<Key, InferenceService>, k: Key): Option<InferenceService> {
    if k in services then Some(EraseService(services[k])) else None
  }

  /** In namespace `ns`, c is `base` and the writes made so far of the reconciles that have not finished. */
  ghost predicate Overlays(plan: Plan, base: Cluster, c: Cluster, ns: string, made: Made) {
    && InputsOverlay(base, c, ns)
    && DeploymentsOverlay(plan, base, c, ns, made)
    && KubeServicesOverlay(plan, base, c, ns, made)
    && ConfigMapsOverlay(plan, base, c, ns, made)
  }

  ghost predicate InputsOverlay(base: Cluster, c: Cluster, ns: string) {
    && c.tenant == base.tenant
    && (forall k: Key {:trigger Lookup(c.models, k)} :: k.ns == ns ==> Lookup(c.models, k) == Lookup(base.models, k))
    && (forall k: Key {:trigger Lookup(c.pods, k)} :: k.ns == ns ==> Lookup(c.pods, k) == Lookup(base.pods, k))
    && (forall k: Key {:trigger ErasedAt(c.services, k)} {:trigger Lookup(base.services, k)} ::
          k.ns == ns ==> ErasedAt(c.services, k) == Lookup(base.services, k))
  }

  ghost predicate DeploymentsOverlay(plan: Plan, base: Cluster, c: Cluster, ns: string, made: Made) {
    forall k: Key {:trigger Lookup(c.deployments, k)} ::
      k.ns == ns ==> Lookup(c.deployments, k) == DeploymentNow(plan, base, made, k)
  }

  ghost predicate KubeServicesOverlay(plan: Plan, base: Cluster, c: Cluster, ns: string, made: Made) {
    && (forall k: Key {:trigger ServiceKey(k)} ::
          k.ns == ns ==> Lookup(c.kubeServices, ServiceKey(k)) == KubeServiceNow(plan, base, made, k))
    && (forall m: Key {:trigger Lookup(c.kubeServices, m)} :: m.ns == ns && (forall k: Key :: ServiceKey(k) != m) ==>
          Lookup(c.kubeServices, m) == Lookup(base.kubeServices, m))
  }

  ghost predicate ConfigMapsOverlay(plan: Plan, base: Cluster, c: Cluster, ns: string, made: Made) {
    && Lookup(c.configMaps, GaiKey(ns)) == ConfigMapNow(plan, base, made, ns)
    && (forall m: Key {:trigger Lookup(c.configMaps, m)} :: m.ns == ns && m != GaiKey(ns) ==>
        Lookup(c.configMaps, m) == Lookup(base.configMaps, m))
  }

  const NOTHING := Made({}, {}, {})

  // ---------- at the start and at the end ----------

  lemma LookupWithin<T>(m: map<Key, T>, ns: string)
    ensures forall k: Key {:trigger Lookup(InNamespace(m, ns), k)} {:trigger Lookup(m, k)} ::
              k.ns == ns ==> Lookup(InNamespace(m, ns), k) == Lookup(m, k)
  {
  }

  lemma NothingMade(plan: Plan, c: Cluster, ns: string)
    ensures Overlays(plan, Seen(c, ns), c, ns, NOTHING)
  {
    LookupWithin(c.models, ns);
    LookupWithin(c.pods, ns);
    LookupWithin(c.deployments, ns);
    LookupWithin(c.kubeServices, ns);
    LookupWithin(c.configMaps, ns);
    forall k: Key {:trigger ErasedAt(c.services, k)} {:trigger Lookup(Seen(c, ns).services, k)} | k.ns == ns
      ensures ErasedAt(c.services, k) == Lookup(Seen(c, ns).services, k)
    {
    }
    hide InNamespace, Lookup, EraseService, ServiceKey, ErasedAt;
  }

  lemma SameWithin<T>(m1: map<Key, T>, m2: map<Key, T>, ns: string)
    requires forall k: Key {:trigger Lookup(m1, k)} :: k.ns == ns ==> Lookup(m1, k) == Lookup(m2, k)
    ensures InNamespace(m1, ns) == InNamespace(m2, ns)
  {
    forall k: Key | k.ns == ns ensures k in m1 <==> k in m2 {
      assert Lookup(m1, k) == Lookup(m2, k);
    }
    forall k | k in InNamespace(m1, ns) ensures m1[k] == m2[k] {
      assert Lookup(m1, k) == Lookup(m2, k);
    }
  }

  lemma KubeServicesMade(plan: Plan, base: Cluster, c: Cluster, ns: string)
    requires KubeServicesOverlay(plan, base, c, ns, NOTHING)
    ensures InNamespace(c.kubeServices, ns) == InNamespace(base.kubeServices, ns)
  {
    forall m: Key | m.ns == ns ensures Lookup(c.kubeServices, m) == Lookup(base.kubeServices, m) {
      if k: Key :| ServiceKey(k) == m {
        assert Lookup(c.kubeServices, ServiceKey(k)) == KubeServiceNow(plan, base, NOTHING, k);
      }
    }
    SameWithin(c.kubeServices, base.kubeServices, ns);
  }

  lemma ConfigMapsMade(plan: Plan, base: Cluster, c: Cluster, ns: string)
    requires ConfigMapsOverlay(plan, base, c, ns, NOTHING)
    ensures InNamespace(c.configMaps, ns) == InNamespace(base.configMaps, ns)
  {
    forall m: Key | m.ns == ns ensures Lookup(c.configMaps, m) == Lookup(base.configMaps, m) {
    }
    SameWithin(c.configMaps, base.configMaps, ns);
  }

  lemma DeploymentsMade(plan: Plan, base: Cluster, c: Cluster, ns: string)
    requires DeploymentsOverlay(plan, base, c, ns, NOTHING)
    ensures InNamespace(c.deployments, ns) == InNamespace(base.deployments, ns)
  {
    forall k: Key | k.ns == ns ensures Lookup(c.deployments, k) == Lookup(base.deployments, k) {
      assert Lookup(c.deployments, k) == DeploymentNow(plan, base, NOTHING, k);
    }
    SameWithin(c.deployments, base.deployments, ns);
  }

  lemma SeenServices(base: Cluster, c: Cluster, ns: string)
    requires InputsOverlay(base, c, ns)
    ensures Seen(c, ns).services == InNamespace(base.services, ns)
  {
    var seen := Seen(c, ns).services;
    forall k: Key | k.ns == ns ensures Lookup(seen, k) == Lookup(base.services, k) {
      assert ErasedAt(c.services, k) == Lookup(base.services, k);
    }
    SameWithin(seen, base.services, ns);
    assert InNamespace(seen, ns) == seen;
  }

  /** With nothing half made, the namespace is the base. */
  lemma AllMade(plan: Plan, base: Cluster, c: Cluster, ns: string)
    requires Overlays(plan, base, c, ns, NOTHING)
    requires base == View(base, ns)
    ensures Seen(c, ns) == base
  {
    KubeServicesMade(plan, base, c, ns);
    ConfigMapsMade(plan, base, c, ns);
    DeploymentsMade(plan, base, c, ns);
    SeenServices(base, c, ns);
    SameWithin(c.models, base.models, ns);
    SameWithin(c.pods, base.pods, ns);
    hide InNamespace, Overlays;
  }

  // ---------- one more write ----------

  lemma LookupPut<T>(m: map<Key, T>, key: Key, value: T)
    ensures forall k {:trigger Lookup(m[key := value], k)} ::
              Lookup(m[key := value], k) == if k == key then Some(value) else Lookup(m, k)
  {
  }

  /** Services that have nothing to write of a sort may count as having written it. */
  lemma SameMade(plan: Plan, base: Cluster, c: Cluster, ns: string, made: Made, other: Made)
    requires Overlays(plan, base, c, ns, made)
    requires forall k <- plan ::
               && (plan[k].deployment.Some? ==> (k in made.deployments <==> k in other.deployments))
               && (plan[k].service.Some? ==> (k in made.services <==> k in other.services))
               && (plan[k].configMap ==> (k in made.configMaps <==> k in other.configMaps))
    ensures Overlays(plan, base, c, ns, other)
  {
    hide InputsOverlay, Lookup, ServiceKey, GaiKey;
    assert forall k :: Maps(plan, made, k) <==> Maps(plan, other, k);
    assert forall k: Key :: DeploymentNow(plan, base, made, k) == DeploymentNow(plan, base, other, k);
    assert forall k: Key :: KubeServiceNow(plan, base, made, k) == KubeServiceNow(plan, base, other, k);
  }

  lemma ConfigMapMade(plan: Plan, base: Cluster, c: Cluster, ns: string, made: Made, key: Key)
    requires Overlays(plan, base, c, ns, made) && key in plan && plan[key].configMap
    ensures Overlays(plan, base, PutConfigMap(c, ns), ns, made.(configMaps := made.configMaps + {key}))
  {
    var other := made.(configMaps := made.configMaps + {key});
    assert Maps(plan, other, key);
    assert forall k: Key :: DeploymentNow(plan, base, made, k) == DeploymentNow(plan, base, other, k);
    assert forall k: Key :: KubeServiceNow(plan, base, made, k) == KubeServiceNow(plan, base, other, k);
    LookupPut(c.configMaps, GaiKey(ns), GaiConfigMap());
    hide Maps, DeploymentNow, KubeServiceNow, ServiceKey, Lookup;
  }

  lemma DeploymentMade(plan: Plan, base: Cluster, c: Cluster, ns: string, made: Made, key: Key, uid: nat,
                       template: PodTemplate)
    requires Overlays(plan, base, c, ns, made)
    requires key in plan && plan[key].deployment == Some(RenderedDeployment(c, key, uid, template))
    ensures Overlays(plan, base, PutDeployment(c, key, uid, template), ns,
        made.(deployments := made.deployments + {key}))
  {
    hide RenderedDeployment, ServiceKey, GaiKey;
    var other := made.(deployments := made.deployments + {key});
    var after := PutDeployment(c, key, uid, template);
    forall k: Key | k.ns == ns ensures Lookup(after.deployments, k) == DeploymentNow(plan, base, other, k) {
      assert Lookup(c.deployments, k) == DeploymentNow(plan, base, made, k);
    }
    assert forall k :: Maps(plan, made, k) <==> Maps(plan, other, k);
    assert forall k: Key :: KubeServiceNow(plan, base, made, k) == KubeServiceNow(plan, base, other, k);
    hide Maps, KubeServiceNow, DeploymentNow;
  }

  lemma ServiceMade(plan: Plan, base: Cluster, c: Cluster, ns: string, made: Made, key: Key, uid: nat)
    requires Overlays(plan, base, c, ns, made)
    requires key in plan && plan[key].service == Some(Service(Some(ByService(uid)), key.name))
    ensures Overlays(plan, base, PutService(c, key, uid), ns, made.(services := made.services + {key}))
  {
    var other := made.(services := made.services + {key});
    var after := PutService(c, key, uid);
    forall k: Key {:trigger ServiceKey(k)} | k.ns == ns ensures Lookup(after.kubeServices, ServiceKey(k))
        == KubeServiceNow(plan, base, other, k)
    {
      assert Lookup(c.kubeServices, ServiceKey(k)) == KubeServiceNow(plan, base, made, k);
      if ServiceKey(k) == ServiceKey(key) {
        ServiceKeyInjective(k, key);
      }
    }
    assert forall k :: Maps(plan, made, k) <==> Maps(plan, other, k);
    assert forall k: Key :: DeploymentNow(plan, base, made, k) == DeploymentNow(plan, base, other, k);
    LookupPut(c.kubeServices, ServiceKey(key), Service(Some(ByService(uid)), key.name));
    hide Maps, DeploymentNow, KubeServiceNow, Lookup;
  }

  function Without(made: Made, key: Key): Made {
    Made(made.deployments - {key}, made.services - {key}, made.configMaps - {key})
  }

  /** A reconcile that has made all its writes finishes: they become part of the base. */
  lemma Finishes(plan: Plan, base: Cluster, c: Cluster, after: Cluster, ns: string, made: Made, key: Key)
    requires Overlays(plan, base, c, ns, made) && key.ns == ns && key in plan
    requires key in made.deployments && key in made.services && key in made.configMaps
    requires after == c.(services := after.services)
    requires forall k: Key {:trigger Lookup(after.services, k)} :: k.ns == ns && k != key ==>
        Lookup(after.services, k) == Lookup(c.services, k)
    requires ErasedAt(after.services, key) ==
             if plan[key].isvc.Some? then plan[key].isvc else Lookup(base.services, key)
    ensures Overlays(plan, Write(base, key, plan[key]), after, ns, Without(made, key))
  {
    hide ServiceKey, GaiKey;
    var next, other := Write(base, key, plan[key]), Without(made, key);
    FinishesKubeService(plan, base, c, ns, made, key);
    FinishesConfigMap(plan, base, c, ns, made, key);
    forall k: Key | k.ns == ns ensures ErasedAt(after.services, k) == Lookup(next.services, k) {
      assert ErasedAt(c.services, k) == Lookup(base.services, k);
      assert k != key ==> Lookup(after.services, k) == Lookup(c.services, k);
    }
    forall k: Key | k.ns == ns ensures Lookup(after.deployments, k) == DeploymentNow(plan, next, other, k) {
      assert Lookup(c.deployments, k) == DeploymentNow(plan, base, made, k);
    }
    hide DeploymentNow, KubeServiceNow, ConfigMapNow;
    assert KubeServicesOverlay(plan, next, after, ns, other) && ConfigMapsOverlay(plan, next, after, ns, other);
  }

  lemma FinishesKubeService(plan: Plan, base: Cluster, c: Cluster, ns: string, made: Made, key: Key)
    requires KubeServicesOverlay(plan, base, c, ns, made) && key.ns == ns
    requires key in plan && key in made.services
    ensures KubeServicesOverlay(plan, Write(base, key, plan[key]), c, ns, Without(made, key))
  {
    var next := Write(base, key, plan[key]);
    forall k: Key {:trigger ServiceKey(k)} | k.ns == ns
      ensures Lookup(c.kubeServices, ServiceKey(k)) == KubeServiceNow(plan, next, Without(made, key), k)
    {
      assert Lookup(c.kubeServices, ServiceKey(k)) == KubeServiceNow(plan, base, made, k);
      if ServiceKey(k) == ServiceKey(key) {
        ServiceKeyInjective(k, key);
      }
    }
  }

  lemma FinishesConfigMap(plan: Plan, base: Cluster, c: Cluster, ns: string, made: Made, key: Key)
    requires ConfigMapsOverlay(plan, base, c, ns, made) && key.ns == ns
    requires key in plan && key in made.configMaps
    ensures ConfigMapsOverlay(plan, Write(base, key, plan[key]), c, ns, Without(made, key))
  {
    var other := Without(made, key);
    assert forall k :: k != key ==> (Maps(plan, made, k) <==> Maps(plan, other, k));
    assert Maps(plan, made, key) <==> plan[key].configMap;
    assert !Maps(plan, other, key);
  }

  /** Writes in other namespaces are not seen. */
  lemma ElsewhereUnseen(plan: Plan, base: Cluster, c: Cluster, after: Cluster, ns: string, made: Made, key: Key)
    requires Overlays(plan, base, c, ns, made)
    requires OnlyTouches(c, after, key) && key.ns != ns
    ensures Overlays(plan, base, after, ns, made)
  {
    SameElsewhere(c, after, ns, key);
    hide OnlyTouches, DeploymentNow, KubeServiceNow, ConfigMapNow;
  }

  lemma SameElsewhere(c: Cluster, after: Cluster, ns: string, key: Key)
    requires OnlyTouches(c, after, key) && key.ns != ns
    ensures after.tenant == c.tenant && after.models == c.models && after.pods == c.pods
    ensures forall k: Key {:trigger ErasedAt(after.services, k)} :: k.ns == ns ==>
        ErasedAt(after.services, k) == ErasedAt(c.services, k)
    ensures forall k: Key {:trigger Lookup(after.deployments, k)} :: k.ns == ns ==>
        Lookup(after.deployments, k) == Lookup(c.deployments, k)
    ensures forall k: Key {:trigger Lookup(after.kubeServices, k)} :: k.ns == ns ==>
        Lookup(after.kubeServices, k) == Lookup(c.kubeServices, k)
    ensures forall k: Key {:trigger Lookup(after.configMaps, k)} :: k.ns == ns ==>
        Lookup(after.configMaps, k) == Lookup(c.configMaps, k)
  {
  }
}
