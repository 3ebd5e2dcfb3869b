/** Which services a model change can affect. */
module Watches {
  import opened Types
  import opened Conditions
  import opened Render
  import opened Reconcile
  import opened Frame

  /** A model created, replaced or (None) deleted. */
  function WithModel(c: Cluster, changed: Key, model: Option<BrukModel>): Cluster {
    c.(models := if model.Some? then c.models[changed := model.value] else c.models - {changed})
  }

  /** A service that does not reference the changed model, and so is not re-queued, ends the same way with the
      same writes before and after the change. */
  lemma UnqueuedServicesAreUnaffected(c: Cluster, changed: Key, model: Option<BrukModel>, key: Key, call: Call)
    requires key in c.services ==> ModelKey(key, c.services[key]) != changed
    ensures Ending(WithModel(c, changed, model), key, call) == Ending(c, key, call)
    ensures Reconciled(WithModel(c, changed, model), key, call) == WithModel(Reconciled(c, key, call), changed, model)
  {
    var after := WithModel(c, changed, model);
    GuardIgnoresStatus(c, after, key, call.order);
    if key in c.services {
      assert Checks(after, key, after.services[key]) == Checks(c, key, c.services[key]);
      assert WritesOf(after, key, Ending(c, key, call), call.now) == WritesOf(c, key, Ending(c, key, call), call.now);
    }
  }

  /** A model's revision is never deployed: pinning another one changes nothing that any reconcile writes. */
  lemma RevisionIsNotDeployed(c: Cluster, changed: Key, revision: string, key: Key, call: Call)
    requires changed in c.models && c.models[changed].source.Some?
    ensures var model := c.models[changed];
            var repinned := Some(model.(source := Some(model.source.value.(revision := revision))));
            Reconciled(WithModel(c, changed, repinned), key, call)
                == WithModel(Reconciled(c, key, call), changed, repinned)
  {
    var model := c.models[changed];
    var repinned := Some(model.(source := Some(model.source.value.(revision := revision))));
    var after := WithModel(c, changed, repinned);
    GuardIgnoresStatus(c, after, key, call.order);
    if key in c.services {
      var isvc := c.services[key];
      if ModelKey(key, isvc) == changed {
        SameButRevision(c, after, key, call);
      } else {
        UnqueuedServicesAreUnaffected(c, changed, repinned, key, call);
      }
    }
  }

  lemma SameButRevision(c: Cluster, after: Cluster, key: Key, call: Call)
    requires key in c.services && ModelKey(key, c.services[key]) in c.models
    requires c.models[ModelKey(key, c.services[key])].source.Some?
    requires var changed := ModelKey(key, c.services[key]);
             var model := c.models[changed];
             exists revision ::
               after == c.(models :=
                 c.models[changed := model.(source := Some(model.source.value.(revision := revision)))])
    requires Conflict(after, key, call.order) == Conflict(c, key, call.order)
    ensures WritesOf(after, key, Ending(after, key, call), call.now) == WritesOf(c, key, Ending(c, key, call), call.now)
  {
    hide AppliedConditions, FailedConditions, EngineArgs, Volumes, VolumeMounts;
    var isvc := c.services[key];
    var before, now := Checks(c, key, isvc), Checks(after, key, isvc);
    if before.Go? {
      assert now == Go(before.tenant, after.models[ModelKey(key, isvc)]);
      assert RenderFor(key, isvc, before.tenant, now.model) == RenderFor(key, isvc, before.tenant, before.model);
    } else {
      assert now == before;
    }
  }
}
