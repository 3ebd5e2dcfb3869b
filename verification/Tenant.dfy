/** What one reconcile of the BrukTenant does to the cluster. */
module Tenant {
  import opened Types
  import opened Conditions
  import opened Render
  import opened InitData

  function TenantCondition(tenant: BrukTenant, now: nat): Condition {
    match ValidateInitData(tenant.initDataB64)
    case None => Condition(Ready, True, Valid, ContractValid, tenant.generation, now)
    case Some(error) => Condition(Ready, False, InvalidConfig, error, tenant.generation, now)
  }

  function TenantReconciled(c: Cluster, now: nat): Cluster {
    match c.tenant
    case None => c
    case Some(tenant) =>
      c.(tenant := Some(tenant.(status := TenantStatus(
           tenant.generation,
           Upsert(tenant.status.conditions, TenantCondition(tenant, now)),
           InitDataHash(tenant.initDataB64)))))
  }

  /** After a reconcile the tenant is Ready exactly when its blob is a gzip payload in base64, whatever its
      status said before, and reconciling again changes nothing. */
  lemma TenantReadyExactly(c: Cluster, now: nat, later: nat)
    requires c.tenant.Some?
    ensures var after := TenantReconciled(c, now);
            && (Holds(after.tenant.value.status.conditions, Ready) <==>
                  var raw := Decode(c.tenant.value.initDataB64);
                  raw.Some? && |raw.value| >= 2 && raw.value[..2] == [0x1f, 0x8b])
            && TenantReconciled(after, later) == after
  {
    var tenant := c.tenant.value;
    var after := TenantReconciled(c, now);
    UpsertFind(tenant.status.conditions, TenantCondition(tenant, now), Ready);
    UpsertSettled(after.tenant.value.status.conditions, TenantCondition(tenant, later));
  }
}
