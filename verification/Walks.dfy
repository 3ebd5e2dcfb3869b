/** Building runs step by step, for the concrete examples. */
module Walks {
  import opened Types
  import opened Guard
  import opened Reconcile
  import opened Protocol

  lemma {:induction false} RunOn(s: System, first: seq<Action>, second: seq<Action>, rule: (System, Action) -> bool)
    requires Runs(s, first, rule) && Runs(Exec(s, first, rule), second, rule)
    ensures Runs(s, first + second, rule) && Exec(s, first + second, rule) == Exec(Exec(s, first, rule), second, rule)
    decreases |first|
  {
    if first == [] {
      assert first + second == second;
    } else {
      RunOn(Step(s, first[0]), first[1..], second, rule);
      assert (first + second)[1..] == first[1..] + second;
    }
  }

  lemma RunOne(s: System, a: Action, rule: (System, Action) -> bool)
    requires Enabled(s, a) && rule(s, a)
    ensures Runs(s, [a], rule) && Exec(s, [a], rule) == Step(s, a)
  {
    assert [a][1..] == [];
  }

  lemma OneMore(s0: System, actions: seq<Action>, s: System, a: Action, rule: (System, Action) -> bool)
    requires Runs(s0, actions, rule) && Exec(s0, actions, rule) == s
    requires Enabled(s, a) && rule(s, a)
    ensures Runs(s0, actions + [a], rule) && Exec(s0, actions + [a], rule) == Step(s, a)
  {
    RunOne(s, a, rule);
    RunOn(s0, actions, [a], rule);
  }

  predicate AboutToPatch(s: System, worker: nat, job: Job, template: PodTemplate) {
    worker in s.workers && s.workers[worker] == PatchDeployment(job, template)
  }

  function At(s: System, worker: nat, p: Phase): System {
    s.(workers := s.workers[worker := p])
  }

  /** A call that changes nothing takes a worker from one phase to the next. */
  lemma Advance(s0: System, actions: seq<Action>, s: System, worker: nat, p: Phase, next: Phase, call: Call,
                rule: (System, Action) -> bool)
    requires Runs(s0, actions, rule) && Exec(s0, actions, rule) == At(s, worker, p)
    requires FaithfulRead(s.world.cluster, p, call.order)
    requires Resume(s.world.cluster, p, call) == Progress(s.world.cluster, Some(next))
    requires rule(At(s, worker, p), Continue(worker, call))
    ensures var all := actions + [Continue(worker, call)];
            Runs(s0, all, rule) && Exec(s0, all, rule) == At(s, worker, next)
  {
    OneMore(s0, actions, At(s, worker, p), Continue(worker, call), rule);
    assert At(At(s, worker, p), worker, next) == At(s, worker, next);
  }

  /** What an idle worker needs to get as far as the apply. */
  ghost predicate Passes(c: Cluster, job: Job, template: PodTemplate, call: Call) {
    && job.key in c.services && c.services[job.key] == job.isvc
    && Checks(c, job.key, job.isvc) == Go(job.tenant, job.model)
    && Lists(call.order, c, job.key.ns)
    && !Conflicted(c, job.key, job.isvc)
    && job.isvc.spec.storage.weightsCache.None?
    && RenderFor(job.key, job.isvc, job.tenant, job.model) == Success(template)
  }

  lemma ReadsPass(c: Cluster, job: Job, template: PodTemplate, call: Call)
    requires Passes(c, job, template, call)
    ensures GetService(c, job.key) == Some(GetTenant(job.key, job.isvc))
    ensures Resume(c, GetTenant(job.key, job.isvc), call) == Progress(c, Some(GetModel(job.key, job.isvc, job.tenant)))
    ensures Resume(c, GetModel(job.key, job.isvc, job.tenant), call) == Progress(c, Some(ListSiblings(job)))
  {
  }

  lemma ListsPass(c: Cluster, job: Job, template: PodTemplate, call: Call)
    requires Passes(c, job, template, call)
    ensures Resume(c, ListSiblings(job), call) == Progress(c, Some(ListDeployments(job)))
    ensures Resume(c, ListDeployments(job), call) == Progress(c, Some(ListPods(job)))
    ensures Resume(c, ListPods(job), call) == Progress(c, Some(PatchDeployment(job, template)))
  {
    GuardIsExact(c, job.key, job.isvc, call.order);
  }

  /** An idle worker that passes every check gets there without changing the cluster. */
  lemma ReachesPatch(s0: System, actions: seq<Action>, s: System, worker: nat, job: Job, template: PodTemplate,
                     call: Call,
                     rule: (System, Action) -> bool)
    returns (all: seq<Action>)
    requires Runs(s0, actions, rule) && Exec(s0, actions, rule) == s
    requires worker !in s.workers && rule(s, Start(worker, job.key))
    requires forall p :: rule(At(s, worker, p), Continue(worker, call))
    requires Passes(s.world.cluster, job, template, call)
    ensures Runs(s0, all, rule) && Exec(s0, all, rule) == At(s, worker, PatchDeployment(job, template))
  {
    var c := s.world.cluster;
    var go := [Continue(worker, call)];
    ReadsPass(c, job, template, call);
    ListsPass(c, job, template, call);
    OneMore(s0, actions, s, Start(worker, job.key), rule);
    all := actions + [Start(worker, job.key)];
    assert Exec(s0, all, rule) == At(s, worker, GetTenant(job.key, job.isvc));
    Advance(s0, all, s, worker, GetTenant(job.key, job.isvc), GetModel(job.key, job.isvc, job.tenant), call, rule);
    all := all + go;
    Advance(s0, all, s, worker, GetModel(job.key, job.isvc, job.tenant), ListSiblings(job), call, rule);
    all := all + go;
    Advance(s0, all, s, worker, ListSiblings(job), ListDeployments(job), call, rule);
    all := all + go;
    Advance(s0, all, s, worker, ListDeployments(job), ListPods(job), call, rule);
    all := all + go;
    Advance(s0, all, s, worker, ListPods(job), PatchDeployment(job, template), call, rule);
    all := all + go;
  }
}
