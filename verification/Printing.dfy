/** The engine arguments and the endpoint URL can be read back. */
module Printing {
  import opened Types
  import opened Text
  import opened Render

  function StripPrefix(prefix: string, s: string): Option<string> {
    if prefix <= s then Some(s[|prefix|..]) else None
  }

  function StripSuffix(s: string, suffix: string): Option<string> {
    if |suffix| <= |s| && s[|s| - |suffix|..] == suffix then Some(s[..|s| - |suffix|]) else None
  }

  lemma StripAdded(prefix: string, s: string)
    ensures StripPrefix(prefix, prefix + s) == Some(s)
    ensures StripSuffix(s + prefix, prefix) == Some(s)
  {
    assert (prefix + s)[|prefix|..] == s;
    assert (s + prefix)[|s|..] == prefix;
    assert (s + prefix)[..|s|] == s;
  }

  // ---------- engine arguments ----------

  datatype EngineView = EngineView(repo: string, servedName: string, engine: EngineSpec)

  function ParseArgs(args: seq<string>): Option<EngineView> {
    if |args| != 6 && |args| != 7 then None
    else
      var quantized := |args| == 7;
      var at := if quantized then 3 else 2;
      match (StripPrefix("--model=", args[0]),
             StripPrefix("--served-model-name=", args[1]),
             if quantized then StripPrefix("--quantization=", args[2]) else Some(""),
             ParseArg("--max-model-len=", args[at]),
             ParseArg("--gpu-memory-utilization=0.", args[at + 1]))
      case (Some(repo), Some(name), Some(quantization), Some(length), Some(percent)) =>
        Some(EngineView(repo, name, EngineSpec(quantization, length, percent)))
      case _ => None
  }

  function ParseArg(prefix: string, arg: string): Option<int> {
    match StripPrefix(prefix, arg)
    case None => None
    case Some(digits) => ParseInt(digits)
  }

  /** For every engine spec, whatever its numbers, the arguments determine it. */
  lemma EngineArgsParse(engine: EngineSpec, repo: string, servedName: string)
    ensures ParseArgs(EngineArgs(engine, repo, servedName)) == Some(EngineView(repo, servedName, engine))
  {
    var args := EngineArgs(engine, repo, servedName);
    var at := if engine.quantization != "" then 3 else 2;
    StripAdded("--model=", repo);
    StripAdded("--served-model-name=", servedName);
    StripAdded("--quantization=", engine.quantization);
    StripAdded("--max-model-len=", Decimal(engine.maxModelLen));
    StripAdded("--gpu-memory-utilization=0.", DecimalTwo(engine.gpuMemoryUtilizationPercent));
    ParseDecimal(engine.maxModelLen);
    ParseDecimalTwo(engine.gpuMemoryUtilizationPercent);
    assert args[0] == "--model=" + repo && args[1] == "--served-model-name=" + servedName;
    assert args[at] == "--max-model-len=" + Decimal(engine.maxModelLen);
    assert args[at + 1] == "--gpu-memory-utilization=0." + DecimalTwo(engine.gpuMemoryUtilizationPercent);
    if engine.quantization != "" {
      assert args[2] == "--quantization=" + engine.quantization;
    }
  }

  /** So two services get the same arguments only if they agree on engine, repository and served name. The
      revision of a model is not among the arguments. */
  lemma EngineArgsInjective(e1: EngineSpec, repo1: string, name1: string, e2: EngineSpec, repo2: string, name2: string)
    requires EngineArgs(e1, repo1, name1) == EngineArgs(e2, repo2, name2)
    ensures e1 == e2 && repo1 == repo2 && name1 == name2
  {
    EngineArgsParse(e1, repo1, name1);
    EngineArgsParse(e2, repo2, name2);
  }

  /** The utilization argument is "0." and digits that denote percent/100, exactly for percentages 0 to 99. */
  lemma UtilizationDenotesPercent(engine: EngineSpec, repo: string, servedName: string)
    ensures var args := EngineArgs(engine, repo, servedName);
            var digits := StripPrefix("--gpu-memory-utilization=0.", args[|args| - 3]);
            var percent := engine.gpuMemoryUtilizationPercent;
            && digits.Some?
            && (FractionValue(digits.value) == Some(percent as real / 100.0) <==> 0 <= percent <= 99)
  {
    StripAdded("--gpu-memory-utilization=0.", DecimalTwo(engine.gpuMemoryUtilizationPercent));
    HundredthsExact(engine.gpuMemoryUtilizationPercent);
  }

  // ---------- the whole template ----------

  lemma SameEnv(a: HuggingFace, b: HuggingFace)
    ensures EngineEnv(a) == EngineEnv(b) <==> a.tokenSecretRef == b.tokenSecretRef
  {
    if EngineEnv(a) == EngineEnv(b) {
      assert |EngineEnv(a)| == |EngineEnv(b)|;
      assert EngineEnv(a)[0] == EngineEnv(b)[0];
    }
  }

  lemma SameVolumes(a: Storage, b: Storage)
    ensures Volumes(a) == Volumes(b)
       <==> a.weightsCache == b.weightsCache && a.trustedStore.existingClaim == b.trustedStore.existingClaim
  {
    if Volumes(a) == Volumes(b) {
      assert |Volumes(a)| == |Volumes(b)|;
      assert Volumes(a)[0] == Volumes(b)[0];
      assert Volumes(a)[|Volumes(a)| - 1] == Volumes(b)[|Volumes(b)| - 1];
    }
  }

  /** What the reconciler reads of a service, its model and the tenant config, as far as the template goes. */
  datatype Inputs = Inputs(name: string, spec: Spec, modelName: string, model: BrukModel, cfg: Config)
  {
    function Render(): Result<PodTemplate, Message> {
      RenderDeployment(name, spec, modelName, model, cfg)
    }

    /** The name the model is served under. */
    function DeclaredName(): string {
      if |model.servedName| > 0 then model.servedName else modelName
    }

    function MemoryRequest(): Quantity {
      if spec.resources.memory.request.None? then spec.resources.memory.limit else spec.resources.memory.request.value
    }

    function CpuRequest(): Quantity {
      if spec.resources.cpu.request.None? then spec.resources.cpu.limit else spec.resources.cpu.request.value
    }

    function Threshold(): int {
      match (spec.probes, spec.storage.weightsCache)
      case (Some(Probes(Some(threshold))), _) => threshold
      case (_, Some(_)) => 240
      case _ => 120
    }
  }

  /** A pod template changes exactly when one of these changes. An absent request counts as one equal to the
      limit, and a model's revision does not count at all. */
  lemma TemplateChangesExactly(a: Inputs, b: Inputs)
    requires a.Render().Success? && b.Render().Success?
    ensures a.Render() == b.Render()
       <==> && a.name == b.name && a.cfg == b.cfg
            && a.spec.engine == b.spec.engine
            && a.spec.resources.gpus == b.spec.resources.gpus
            && a.spec.resources.memory.limit == b.spec.resources.memory.limit
            && a.spec.resources.cpu.limit == b.spec.resources.cpu.limit
            && a.MemoryRequest() == b.MemoryRequest()
            && a.CpuRequest() == b.CpuRequest()
            && a.spec.storage.weightsCache == b.spec.storage.weightsCache
            && a.spec.storage.trustedStore.existingClaim == b.spec.storage.trustedStore.existingClaim
            && a.model.source.value.repo == b.model.source.value.repo
            && a.model.source.value.tokenSecretRef == b.model.source.value.tokenSecretRef
            && a.DeclaredName() == b.DeclaredName()
            && a.Threshold() == b.Threshold()
  {
    var s1, s2 := a.model.source.value, b.model.source.value;
    var n1, n2 := ServedModelName(a.modelName, a.model), ServedModelName(b.modelName, b.model);
    SameEnv(s1, s2);
    SameVolumes(a.spec.storage, b.spec.storage);
    if a.Render() == b.Render() {
      var c1, c2 := a.Render().value.spec.containers[0], b.Render().value.spec.containers[0];
      assert c1 == c2;
      assert a.Render().value.annotations[INIT_DATA_ANNOTATION] == b.Render().value.annotations[INIT_DATA_ANNOTATION];
      EngineArgsInjective(a.spec.engine, s1.repo, n1, b.spec.engine, s2.repo, n2);
    }
  }

  // ---------- endpoint URL ----------

  function LastDot(s: string): Option<nat> {
    if s == [] then None
    else if s[|s| - 1] == '.' then Some(|s| - 1)
    else LastDot(s[..|s| - 1])
  }

  lemma LastDotBounds(s: string)
    ensures LastDot(s).Some? ==> LastDot(s).value < |s|
  {
  }

  lemma {:induction false} LastDotBeforeNamespace(host: string, ns: string)
    requires '.' !in ns
    ensures LastDot(host + "." + ns) == Some(|host|)
    decreases |ns|
  {
    var s := host + "." + ns;
    if ns != [] {
      LastDotBeforeNamespace(host, ns[..|ns| - 1]);
      assert s[..|s| - 1] == host + "." + ns[..|ns| - 1];
    }
  }

  function ParseURL(url: string): Option<Key> {
    match StripPrefix("http://", url)
    case None => None
    case Some(rest) =>
      match StripSuffix(rest, ".svc.cluster.local:8000/v1")
      case None => None
      case Some(host) =>
        LastDotBounds(host);
        match LastDot(host)
        case None => None
        case Some(dot) =>
          match StripSuffix(host[..dot], "-svc")
          case None => None
          case Some(name) => Some(Key(host[dot + 1..], name))
  }

  /** The URL gives back the namespace and the name, whatever the name, for every dot-free namespace. */
  lemma EndpointURLParses(key: Key)
    requires '.' !in key.ns
    ensures ParseURL(EndpointURL(key)) == Some(key)
  {
    var host := ServiceName(key.name) + "." + key.ns;
    var tail := ".svc.cluster.local:8000/v1";
    URLText(key);
    StripAdded("http://", host + tail);
    StripAdded(tail, host);
    LastDotBeforeNamespace(ServiceName(key.name), key.ns);
    var dot := |ServiceName(key.name)|;
    assert host[..dot] == ServiceName(key.name);
    assert host[dot + 1..] == key.ns;
    StripAdded("-svc", key.name);
  }

  lemma URLText(key: Key)
    ensures EndpointURL(key) == "http://" + (ServiceName(key.name) + "." + key.ns + ".svc.cluster.local:8000/v1")
  {
    PortText();
    hide DecimalNat, Decimal;
    assert ".svc.cluster.local:" + "8000" + "/v1" == ".svc.cluster.local:8000/v1";
  }

  lemma PortText()
    ensures Decimal(SERVING_PORT) == "8000"
  {
    assert DecimalNat(8) == "8";
    assert DecimalNat(80) == "80";
    assert DecimalNat(800) == "800";
    assert DecimalNat(8000) == "8000";
  }

  /** With a dot in the namespace two different services would share a URL. */
  lemma DottedNamespacesCollide()
    ensures EndpointURL(Key("b-svc.c", "a")) == EndpointURL(Key("c", "a-svc.b"))
  {
    hide Decimal;
    SameHost("a", "b-svc.c", "a-svc.b", "c");
  }

  lemma SameHost(name: string, ns: string, otherName: string, otherNs: string)
    requires ServiceName(name) + "." + ns == ServiceName(otherName) + "." + otherNs
    ensures EndpointURL(Key(ns, name)) == EndpointURL(Key(otherNs, otherName))
  {
    URLText(Key(ns, name));
    URLText(Key(otherNs, otherName));
    var tail := ".svc.cluster.local:8000/v1";
    assert ServiceName(name) + "." + ns + tail == ServiceName(otherName) + "." + otherNs + tail;
  }
}
