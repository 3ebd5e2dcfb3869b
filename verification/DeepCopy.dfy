/** The generated deep-copy methods over a heap: a struct is a value whose pointer fields are references, a
    pointer is a cell (or null), a slice is an array (or null when the slice is nil). */
module DeepCopy {
  import opened Types

  class Cell<V> {
    var v: V

    constructor (v: V)
      ensures this.v == v
    {
      this.v := v;
    }
  }

  // ---------- structs ----------

  datatype ResourcePairStruct = ResourcePairStruct(limit: Quantity, request: Cell?<Quantity>)

  datatype WorkloadResourcesStruct = WorkloadResourcesStruct(gpus: int, memory: ResourcePairStruct,
      cpu: ResourcePairStruct)

  datatype TrustedStoreStruct = TrustedStoreStruct(existingClaim: string, localVolume: Cell?<LocalVolume>)

  datatype WeightsCacheStruct = WeightsCacheStruct(sizeLimit: Cell?<Quantity>)

  datatype StorageStruct = StorageStruct(trustedStore: TrustedStoreStruct, weightsCache: Cell?<WeightsCacheStruct>)

  datatype ProbesStruct = ProbesStruct(readinessFailureThreshold: Cell?<int>)

  datatype SpecStruct = SpecStruct(
    modelRef: string,
    engine: EngineSpec,
    resources: WorkloadResourcesStruct,
    storage: StorageStruct,
    probes: Cell?<ProbesStruct>)

  datatype StatusStruct = StatusStruct(
    observedGeneration: nat,
    conditions: array?<Condition>,
    endpoint: Cell?<string>,
    servedModelName: string,
    resolvedImage: string,
    appliedInitDataHash: string)

  datatype ServiceStruct = ServiceStruct(key: Key, uid: nat, created: nat, generation: nat, spec: SpecStruct,
      status: StatusStruct)

  // ---------- what a struct denotes: the value behind its pointers ----------

  datatype StatusValue = StatusValue(
    observedGeneration: nat,
    conditions: Option<seq<Condition>>,
    endpoint: Option<string>,
    servedModelName: string,
    resolvedImage: string,
    appliedInitDataHash: string)

  datatype ServiceValue = ServiceValue(key: Key, uid: nat, created: nat, generation: nat, spec: Spec,
      status: StatusValue)

  function At<V>(p: Cell?<V>): set<object> {
    if p == null then {} else {p}
  }

  function Deref<V>(p: Cell?<V>): Option<V>
    reads p
  {
    if p == null then None else Some(p.v)
  }

  function PairValue(x: ResourcePairStruct): ResourcePair
    reads x.request
  {
    ResourcePair(x.limit, Deref(x.request))
  }

  function StorageRefs(x: StorageStruct): set<object>
    reads x.weightsCache
  {
    At(x.trustedStore.localVolume) + At(x.weightsCache)
    + (if x.weightsCache == null then {} else At(x.weightsCache.v.sizeLimit))
  }

  function StorageValue(x: StorageStruct): Storage
    reads x.weightsCache, StorageRefs(x)
  {
    Storage(TrustedStore(x.trustedStore.existingClaim, Deref(x.trustedStore.localVolume)),
            if x.weightsCache == null then None else Some(WeightsCache(Deref(x.weightsCache.v.sizeLimit))))
  }

  function ProbesRefs(p: Cell?<ProbesStruct>): set<object>
    reads p
  {
    At(p) + (if p == null then {} else At(p.v.readinessFailureThreshold))
  }

  function ProbesValue(p: Cell?<ProbesStruct>): Option<Probes>
    reads p, ProbesRefs(p)
  {
    if p == null then None else Some(Probes(Deref(p.v.readinessFailureThreshold)))
  }

  function SpecRefs(x: SpecStruct): set<object>
    reads x.storage.weightsCache, x.probes
  {
    At(x.resources.memory.request) + At(x.resources.cpu.request) + StorageRefs(x.storage) + ProbesRefs(x.probes)
  }

  function SpecValue(x: SpecStruct): Spec
    reads x.storage.weightsCache, x.probes, SpecRefs(x)
  {
    Spec(x.modelRef, x.engine,
         WorkloadResources(x.resources.gpus, PairValue(x.resources.memory), PairValue(x.resources.cpu)),
         StorageValue(x.storage), ProbesValue(x.probes))
  }

  function Slice<V>(a: array?<V>): Option<seq<V>>
    reads a
  {
    if a == null then None else Some(a[..])
  }

  function StatusRefs(x: StatusStruct): set<object> {
    (if x.conditions == null then {} else {x.conditions}) + At(x.endpoint)
  }

  function ValueOfStatus(x: StatusStruct): StatusValue
    reads x.conditions, x.endpoint
  {
    StatusValue(x.observedGeneration, Slice(x.conditions), Deref(x.endpoint), x.servedModelName, x.resolvedImage,
        x.appliedInitDataHash)
  }

  function ServiceRefs(x: ServiceStruct): set<object>
    reads x.spec.storage.weightsCache, x.spec.probes
  {
    SpecRefs(x.spec) + StatusRefs(x.status)
  }

  function ValueOfService(x: ServiceStruct): ServiceValue
    reads x.spec.storage.weightsCache, x.spec.probes, ServiceRefs(x)
  {
    ServiceValue(x.key, x.uid, x.created, x.generation, SpecValue(x.spec), ValueOfStatus(x.status))
  }

  // ---------- copying one object ----------

  method CopyCell<V>(p: Cell?<V>) returns (q: Cell?<V>)
    ensures fresh(At(q)) && Deref(q) == Deref(p)
  {
    q := null;
    if p != null {
      q := new Cell(p.v);
    }
  }

  method CopyPair(x: ResourcePairStruct) returns (out: ResourcePairStruct)
    ensures fresh(At(out.request)) && PairValue(out) == PairValue(x)
  {
    out := x;
    if x.request != null {
      var request := CopyCell(x.request);
      out := out.(request := request);
    }
  }

  method CopyStorage(x: StorageStruct) returns (out: StorageStruct)
    ensures fresh(StorageRefs(out)) && StorageValue(out) == StorageValue(x)
  {
    out := x;
    var localVolume := CopyCell(x.trustedStore.localVolume);
    out := out.(trustedStore := out.trustedStore.(localVolume := localVolume));
    if x.weightsCache != null {
      var sizeLimit := CopyCell(x.weightsCache.v.sizeLimit);
      var cache := new Cell(WeightsCacheStruct(sizeLimit));
      out := out.(weightsCache := cache);
    }
  }

  method CopyProbes(p: Cell?<ProbesStruct>) returns (q: Cell?<ProbesStruct>)
    ensures fresh(ProbesRefs(q)) && ProbesValue(q) == ProbesValue(p)
  {
    q := null;
    if p != null {
      var threshold := CopyCell(p.v.readinessFailureThreshold);
      q := new Cell(ProbesStruct(threshold));
    }
  }

  method CopySpec(x: SpecStruct) returns (out: SpecStruct)
    ensures fresh(SpecRefs(out)) && SpecValue(out) == SpecValue(x)
  {
    var memory := CopyPair(x.resources.memory);
    var cpu := CopyPair(x.resources.cpu);
    var storage := CopyStorage(x.storage);
    var probes := CopyProbes(x.probes);
    out := x.(resources := WorkloadResourcesStruct(x.resources.gpus, memory, cpu), storage := storage,
        probes := probes);
  }

  method CopyStatus(x: StatusStruct) returns (out: StatusStruct)
    ensures fresh(StatusRefs(out)) && ValueOfStatus(out) == ValueOfStatus(x)
  {
    out := x;
    if x.conditions != null {
      var n := x.conditions.Length;
      var conditions := new Condition[n](_ => Condition(Ready, Unknown, Valid, Silent, 0, 0));
      for i := 0 to n
        invariant conditions[..i] == x.conditions[..i]
      {
        conditions[i] := x.conditions[i];
      }
      assert conditions[..] == conditions[..n] == x.conditions[..n] == x.conditions[..];
      out := out.(conditions := conditions);
    }
    var endpoint := CopyCell(x.endpoint);
    out := out.(endpoint := endpoint);
  }

  method CopyService(x: ServiceStruct) returns (out: ServiceStruct)
    ensures fresh(ServiceRefs(out)) && ValueOfService(out) == ValueOfService(x)
  {
    var spec := CopySpec(x.spec);
    var status := CopyStatus(x.status);
    out := x.(spec := spec, status := status);
  }

  // ---------- copying a list ----------

  /** The first-level cells that lead to further cells. */
  function Inner(x: ServiceStruct): set<object> {
    At(x.spec.storage.weightsCache) + At(x.spec.probes)
  }

  function InnerAll(items: seq<ServiceStruct>): set<object> {
    if items == [] then {} else InnerAll(items[..|items| - 1]) + Inner(items[|items| - 1])
  }

  function RefsAll(items: seq<ServiceStruct>): set<object>
    reads InnerAll(items)
  {
    if items == [] then {} else RefsAll(items[..|items| - 1]) + ServiceRefs(items[|items| - 1])
  }

  function ValueAll(items: seq<ServiceStruct>): seq<ServiceValue>
    reads InnerAll(items), RefsAll(items)
  {
    if items == [] then [] else ValueAll(items[..|items| - 1]) + [ValueOfService(items[|items| - 1])]
  }

  function ListRefs(items: array?<ServiceStruct>): set<object>
    reads items, if items == null then {} else InnerAll(items[..])
  {
    if items == null then {} else {items} + RefsAll(items[..])
  }

  function ListValue(items: array?<ServiceStruct>): Option<seq<ServiceValue>>
    reads items, (if items == null then {} else InnerAll(items[..])), ListRefs(items)
  {
    if items == null then None else Some(ValueAll(items[..]))
  }

  lemma {:induction false} ValueAllAt(items: seq<ServiceStruct>)
    ensures |ValueAll(items)| == |items|
    ensures forall i :: 0 <= i < |items| ==> ValueAll(items)[i] == ValueOfService(items[i])
  {
    if items != [] {
      ValueAllAt(items[..|items| - 1]);
    }
  }

  lemma AppendCopy(done: seq<ServiceStruct>, copy: ServiceStruct)
    ensures InnerAll(done + [copy]) == InnerAll(done) + Inner(copy)
    ensures RefsAll(done + [copy]) == RefsAll(done) + ServiceRefs(copy)
    ensures ValueAll(done + [copy]) == ValueAll(done) + [ValueOfService(copy)]
  {
    assert (done + [copy])[..|done|] == done;
  }

  twostate predicate Kept(o: object)
    reads o
  {
    unchanged(o)
  }

  /** Writing an array of structs changes no struct's meaning: meanings live in cells and condition slices. */
  twostate lemma ServiceSteady(x: ServiceStruct, new written: array?<ServiceStruct>)
    requires forall o: object :: old(allocated(o)) && o != written ==> Kept(o)
    ensures ServiceRefs(x) == old(ServiceRefs(x))
    ensures ValueOfService(x) == old(ValueOfService(x))
  {
    var spec := x.spec;
    assert forall o <- Inner(x) :: Kept(o);
    assert forall o <- old(ServiceRefs(x)) :: Kept(o);
  }

  twostate lemma {:induction false} Steady(items: seq<ServiceStruct>, new written: array?<ServiceStruct>)
    requires forall o: object :: old(allocated(o)) && o != written ==> Kept(o)
    ensures RefsAll(items) == old(RefsAll(items))
    ensures ValueAll(items) == old(ValueAll(items))
  {
    if items != [] {
      Steady(items[..|items| - 1], written);
      ServiceSteady(items[|items| - 1], written);
    }
  }

  /** Copies one element into its slot, next to the ones that are there. */
  method CopyIntoSlot(x: ServiceStruct, out: array<ServiceStruct>, i: nat, ghost done: seq<ServiceStruct>)
    returns (ghost copy: ServiceStruct)
    requires i < out.Length && out[..i] == done
    modifies out
    ensures out[..i + 1] == done + [copy]
    ensures fresh(ServiceRefs(copy)) && ValueOfService(copy) == old(ValueOfService(x))
    ensures RefsAll(done + [copy]) == old(RefsAll(done)) + ServiceRefs(copy)
    ensures ValueAll(done + [copy]) == old(ValueAll(done)) + [ValueOfService(copy)]
  {
    hide SpecRefs, SpecValue, StatusRefs, ValueOfStatus, ServiceRefs, ValueOfService;
    var made := CopyService(x);
    copy := made;
    ServiceSteady(x, null);
    label copied:
    out[i] := made;
    ServiceSteady@copied(made, out);
    Steady(done, out);
    AppendCopy(done, made);
  }

  /** The copy denotes the same list, a nil slice staying nil and an empty one empty, and everything reachable
      from it is new. */
  method CopyList(items: array?<ServiceStruct>) returns (out: array?<ServiceStruct>)
    ensures fresh(ListRefs(out))
    ensures ListValue(out) == old(ListValue(items))
  {
    hide SpecRefs, SpecValue, StatusRefs, ValueOfStatus, ServiceRefs, ValueOfService;
    out := items;
    if items != null {
      var n := items.Length;
      ghost var source := items[..];
      ghost var want := ValueAll(source);
      ValueAllAt(source);
      out := new ServiceStruct[n](i requires 0 <= i < n reads items => items[i]);
      ghost var done: seq<ServiceStruct> := [];
      for i := 0 to n
        invariant fresh(out) && items[..] == source
        invariant out[..i] == done
        invariant fresh(RefsAll(done))
        invariant ValueAll(done) == want[..i]
      {
        ServiceSteady(items[i], out);
        ghost var copy := CopyIntoSlot(items[i], out, i, done);
        done := done + [copy];
      }
      assert out[..n] == out[..] && want[..n] == want;
    }
  }

  /** Any caller that may write these objects, in any way. */
  method WriteAnywhere(objects: set<object>)
    modifies objects
  {
  }

  /** No later write through the copy reaches the original. */
  method WritesThroughCopyStayThere(items: array?<ServiceStruct>) returns (out: array?<ServiceStruct>)
    ensures ListValue(items) == old(ListValue(items))
  {
    hide SpecRefs, SpecValue, StatusRefs, ValueOfStatus, ServiceRefs, ValueOfService;
    out := CopyList(items);
    WriteAnywhere(ListRefs(out));
    if items != null {
      Steady(items[..], null);
    }
  }
}
