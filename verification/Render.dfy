/** The renderer: custom resources in, workload objects out. Pure functions. */
module Render {
  import opened Types
  import opened Text

  const INIT_DATA_ANNOTATION := "io.katacontainers.config.hypervisor.cc_init_data"
  const TRUSTED_STORE_DEVICE_PATH := "/dev/trusted_store"
  const WEIGHTS_CACHE_MOUNT_PATH := "/root/.cache/huggingface"
  const GAI_CONFIG_MAP_NAME := "gai-ipv4-first"
  const DEFAULT_FAILURE_THRESHOLD := 120
  const WEIGHTS_CACHE_FAILURE_THRESHOLD := 240
  const SERVING_PORT := 8000

  /** The short hash of the initdata blob: any function of the blob. */
  const InitDataHash: string -> string

  /** The inputs that come from the tenant. */
  datatype Config = Config(initDataB64: string, defaultImage: string)

  function ServiceName(name: string): string {
    name + "-svc"
  }

  function ServiceKey(key: Key): Key {
    Key(key.ns, ServiceName(key.name))
  }

  lemma ServiceKeyInjective(a: Key, b: Key)
    requires ServiceKey(a) == ServiceKey(b)
    ensures a == b
  {
    assert a.name == ServiceName(a.name)[..|a.name|];
    assert b.name == ServiceName(b.name)[..|b.name|];
  }

  function GaiKey(ns: string): Key {
    Key(ns, GAI_CONFIG_MAP_NAME)
  }

  function GaiConfigMap(): map<string, string> {
    map["gai.conf" := "precedence ::ffff:0:0/96 100\n"]
  }

  function ServedModelName(modelName: string, model: BrukModel): string {
    if model.servedName != "" then model.servedName else modelName
  }

  function ResolveImage(cfg: Config): Result<string, Message> {
    if cfg.defaultImage != "" then Success(cfg.defaultImage) else Failure(RenderNoImage)
  }

  function EngineArgs(engine: EngineSpec, repo: string, servedName: string): seq<string> {
    ["--model=" + repo, "--served-model-name=" + servedName]
    + (if engine.quantization != "" then ["--quantization=" + engine.quantization] else [])
    + ["--max-model-len=" + Decimal(engine.maxModelLen),
       "--gpu-memory-utilization=0." + DecimalTwo(engine.gpuMemoryUtilizationPercent),
       "--host=0.0.0.0",
       "--port=" + Decimal(SERVING_PORT)]
  }

  function EngineEnv(source: HuggingFace): seq<EnvVar> {
    (match source.tokenSecretRef
     case None => []
     case Some(ref) => [FromSecret("HF_TOKEN", ref.name, ref.key)])
    + [Literal("VLLM_ATTENTION_BACKEND", "FLASH_ATTN")]
  }

  function VolumeMounts(hasWeightsCache: bool): seq<VolumeMount> {
    (if hasWeightsCache then [VolumeMount("models", WEIGHTS_CACHE_MOUNT_PATH, "")] else [])
    + [VolumeMount("dshm", "/dev/shm", "")]
    + (if hasWeightsCache then [VolumeMount("gai", "/etc/gai.conf", "gai.conf")] else [])
  }

  function Volumes(storage: Storage): seq<Volume> {
    (match storage.weightsCache
     case None => []
     case Some(cache) => [Volume("models", EmptyDir("", cache.sizeLimit))])
    + [Volume("dshm", MemoryDir)]
    + (if storage.weightsCache.Some? then [Volume("gai", ConfigMapVolume(GAI_CONFIG_MAP_NAME))] else [])
    + [Volume("trusted-image", PersistentVolumeClaim(storage.trustedStore.existingClaim))]
  }

  function RequestOrLimit(pair: ResourcePair): Quantity {
    match pair.request
    case None => pair.limit
    case Some(request) => request
  }

  function ResourcesOf(r: WorkloadResources): ContainerResources {
    ContainerResources(r.gpus, r.memory.limit, r.cpu.limit, RequestOrLimit(r.memory), RequestOrLimit(r.cpu))
  }

  function FailureThreshold(spec: Spec): int {
    if spec.probes.Some? && spec.probes.value.readinessFailureThreshold.Some? then
      spec.probes.value.readinessFailureThreshold.value
    else if spec.storage.weightsCache.Some? then WEIGHTS_CACHE_FAILURE_THRESHOLD
    else DEFAULT_FAILURE_THRESHOLD
  }

  function Template(name: string, spec: Spec, modelName: string, source: HuggingFace, model: BrukModel, cfg: Config,
                    image: string): PodTemplate
  {
    var container := Container(
      "vllm",
      image,
      EngineArgs(spec.engine, source.repo, ServedModelName(modelName, model)),
      EngineEnv(source),
      ResourcesOf(spec.resources),
      VolumeMounts(spec.storage.weightsCache.Some?),
      [VolumeDevice("trusted-image", TRUSTED_STORE_DEVICE_PATH)],
      FailureThreshold(spec));
    PodTemplate(name, map[INIT_DATA_ANNOTATION := cfg.initDataB64], PodSpec([container], Volumes(spec.storage)))
  }

  /** The pod template of the Deployment for a service named `name`. */
  function RenderDeployment(name: string, spec: Spec, modelName: string, model: BrukModel,
                            cfg: Config): Result<PodTemplate, Message>
  {
    if model.source.None? then Failure(RenderNoSource(modelName))
    else match ResolveImage(cfg)
      case Failure(e) => Failure(e)
      case Success(image) =>
        if cfg.initDataB64 == "" then Failure(RenderNoInitData)
        else Success(Template(name, spec, modelName, model.source.value, model, cfg, image))
  }

  function EndpointURL(key: Key): string {
    "http://" + ServiceName(key.name) + "." + key.ns + ".svc.cluster.local:" + Decimal(SERVING_PORT) + "/v1"
  }

  // ---------- what the guard sees in a rendered pod ----------

  /** A scan for a volume that mounts the claim. */
  predicate MountsClaim(spec: PodSpec, claim: string) {
    exists i :: 0 <= i < |spec.volumes| && spec.volumes[i].source == PersistentVolumeClaim(claim)
  }

  /** A rendered pod mounts its own claim and no other. */
  lemma RenderedMountsExactly(name: string, spec: Spec, modelName: string, model: BrukModel, cfg: Config, claim: string)
    requires RenderDeployment(name, spec, modelName, model, cfg).Success?
    ensures MountsClaim(RenderDeployment(name, spec, modelName, model, cfg).value.spec, claim)
       <==> claim == spec.storage.trustedStore.existingClaim
  {
    var volumes := RenderDeployment(name, spec, modelName, model, cfg).value.spec.volumes;
    var last := |volumes| - 1;
    assert volumes[last].source == PersistentVolumeClaim(spec.storage.trustedStore.existingClaim);
    assert forall i :: 0 <= i < last ==> !volumes[i].source.PersistentVolumeClaim?;
  }

  /** Every mount and device names a declared volume, every volume is used, and no name repeats. */
  lemma RenderedVolumesAreWired(name: string, spec: Spec, modelName: string, model: BrukModel, cfg: Config)
    requires RenderDeployment(name, spec, modelName, model, cfg).Success?
    ensures var pod := RenderDeployment(name, spec, modelName, model, cfg).value.spec;
            var names := seq(|pod.volumes|, i requires 0 <= i < |pod.volumes| => pod.volumes[i].name);
            && Distinct(names)
            && |pod.containers| == 1
            && (forall v :: v in names <==>
                 || (exists m <- pod.containers[0].volumeMounts :: m.name == v)
                 || (exists d <- pod.containers[0].volumeDevices :: d.name == v))
  {
    var pod := RenderDeployment(name, spec, modelName, model, cfg).value.spec;
    var names := seq(|pod.volumes|, i requires 0 <= i < |pod.volumes| => pod.volumes[i].name);
    var mounts := pod.containers[0].volumeMounts;
    if spec.storage.weightsCache.Some? {
      assert names == ["models", "dshm", "gai", "trusted-image"];
      assert mounts[0].name == "models" && mounts[1].name == "dshm" && mounts[2].name == "gai";
      assert "models"[0] == 'm' && "dshm"[0] == 'd' && "gai"[0] == 'g' && "trusted-image"[0] == 't';
    } else {
      assert names == ["dshm", "trusted-image"];
      assert mounts[0].name == "dshm";
      assert "dshm"[0] == 'd' && "trusted-image"[0] == 't';
    }
    assert pod.containers[0].volumeDevices[0].name == "trusted-image";
  }
}
