/** The objects that the concrete examples are made of. */
module Examples {
  import opened Types
  import opened Order
  import opened Render
  import opened Reconcile

  const OLDER := Key("default", "a")
  const NEWER := Key("default", "b")

  function ExampleSpec(claim: string, amount: Quantity): Spec {
    Spec("m", EngineSpec("", 256, 90),
         WorkloadResources(1, ResourcePair(amount, None), ResourcePair(amount, None)),
         Storage(TrustedStore(claim, None), None), None)
  }

  const MODEL := BrukModel(Some(HuggingFace("org/model", "", None)), "", 256)
  const TENANT := BrukTenant(1, "image", "blob", TenantStatus(0, [], ""))

  function ExampleTemplate(key: Key, isvc: InferenceService, tenant: BrukTenant): PodTemplate {
    Template(key.name, isvc.spec, "m", MODEL.source.value, MODEL, TenantConfig(tenant), tenant.defaultImage)
  }

  lemma ExampleKeys()
    ensures OLDER != NEWER && LexLess("a", "b") && !LexLess("b", "a")
  {
    assert OLDER.name[0] != NEWER.name[0];
  }

  lemma ExampleModels(c: Cluster, key: Key, isvc: InferenceService, tenant: BrukTenant, amount: Quantity, claim: string)
    requires key.ns == "default" && isvc.spec == ExampleSpec(claim, amount)
    requires c.tenant == Some(tenant) && tenant.defaultImage != "" && tenant.initDataB64 != ""
    requires c.models == map[Key("default", "m") := MODEL]
    ensures Checks(c, key, isvc) == Go(tenant, MODEL)
    ensures RenderFor(key, isvc, tenant, MODEL) == Success(ExampleTemplate(key, isvc, tenant))
  {
  }
}
