/** The API objects the operator reads and writes, as values, and the cluster that stores them.
    An object's namespace and name are the key it is stored under. */
module Types {
  datatype Option<+T> = None | Some(value: T)

  datatype Result<+T, +E> = Success(value: T) | Failure(error: E)

  datatype Key = Key(ns: string, name: string)

  /** A resource amount. Its arithmetic is not modelled. */
  type Quantity(==, !new)

  /** The controller owner reference of an object. The uids of InferenceServices and the uids of all
      other kinds are kept apart by construction, since uids are unique across a cluster. */
  datatype Owner = ByService(uid: nat) | ByOther(uid: nat)

  // ---------- conditions and status ----------

  datatype ConditionType = Configured | WorkloadAvailable | Ready | Progressing

  datatype ConditionStatus = True | False | Unknown

  datatype Reason =
    | WorkloadReady | WorkloadPending | ConfiguredReason | Deploying
    | ModelNotFound | TenantConfigMissing | TrustedStoreConflict | InvalidConfig | NotImplemented
    | Valid

  /** What holds a trusted-store claim against a service. */
  datatype Holder = OlderSibling | OtherDeployment | StandalonePod

  /** The message texts, one constructor per format string. Silent is the erased text. */
  datatype Message =
    | Silent
    | NoTenant
    | NoModel(model: string, ns: string)
    | LocalVolumeReserved
    | NoSource(model: string)
    | TooLong(asked: int, native: int)
    | HeldBy(holder: Holder, name: string, claim: string)
    | RenderNoSource(model: string) | RenderNoImage | RenderNoInitData
    | WorkloadApplied | DeploymentIsAvailable | WorkloadServing | RolloutComplete | NotYetAvailable
    | ContractValid | BlobNotBase64 | BlobNotGzip

  datatype Condition = Condition(
    kind: ConditionType,
    status: ConditionStatus,
    reason: Reason,
    message: Message,
    observedGeneration: nat,
    since: nat)

  /** The clock as a reconcile reads it, once for each condition it writes. */
  datatype Clock = Clock(configured: nat, workloadAvailable: nat, ready: nat, progressing: nat)

  const EPOCH := Clock(0, 0, 0, 0)

  datatype Status = Status(
    observedGeneration: nat,
    conditions: seq<Condition>,
    endpoint: Option<string>,
    servedModelName: string,
    resolvedImage: string,
    appliedInitDataHash: string)

  const EMPTY_STATUS := Status(0, [], None, "", "", "")

  // ---------- custom resources ----------

  datatype EngineSpec = EngineSpec(quantization: string, maxModelLen: int, gpuMemoryUtilizationPercent: int)

  datatype ResourcePair = ResourcePair(limit: Quantity, request: Option<Quantity>)

  datatype WorkloadResources = WorkloadResources(gpus: int, memory: ResourcePair, cpu: ResourcePair)

  datatype LocalVolume = LocalVolume(lvName: string, size: Quantity)

  datatype TrustedStore = TrustedStore(existingClaim: string, localVolume: Option<LocalVolume>)

  datatype WeightsCache = WeightsCache(sizeLimit: Option<Quantity>)

  datatype Storage = Storage(trustedStore: TrustedStore, weightsCache: Option<WeightsCache>)

  datatype Probes = Probes(readinessFailureThreshold: Option<int>)

  datatype Spec = Spec(
    modelRef: string,
    engine: EngineSpec,
    resources: WorkloadResources,
    storage: Storage,
    probes: Option<Probes>)

  datatype InferenceService = InferenceService(uid: nat, created: nat, generation: nat, spec: Spec, status: Status)
  {
    function Claim(): string {
      spec.storage.trustedStore.existingClaim
    }
  }

  datatype SecretKeyRef = SecretKeyRef(name: string, key: string)

  datatype HuggingFace = HuggingFace(repo: string, revision: string, tokenSecretRef: Option<SecretKeyRef>)

  datatype BrukModel = BrukModel(source: Option<HuggingFace>, servedName: string, contextLength: int)

  datatype TenantStatus = TenantStatus(observedGeneration: nat, conditions: seq<Condition>, appliedInitDataHash: string)

  datatype BrukTenant = BrukTenant(generation: nat, defaultImage: string, initDataB64: string, status: TenantStatus)

  // ---------- workload objects ----------

  datatype VolumeSource =
    | EmptyDir(medium: string, sizeLimit: Option<Quantity>)
    | MemoryDir
    | ConfigMapVolume(name: string)
    | PersistentVolumeClaim(claimName: string)
    | OtherSource

  datatype Volume = Volume(name: string, source: VolumeSource)

  datatype VolumeMount = VolumeMount(name: string, mountPath: string, subPath: string)

  datatype VolumeDevice = VolumeDevice(name: string, devicePath: string)

  datatype EnvVar = Literal(name: string, value: string) | FromSecret(name: string, secret: string, key: string)

  datatype ContainerResources = ContainerResources(
    gpus: int,
    memoryLimit: Quantity,
    cpuLimit: Quantity,
    memoryRequest: Quantity,
    cpuRequest: Quantity)

  datatype Container = Container(
    name: string,
    image: string,
    args: seq<string>,
    env: seq<EnvVar>,
    resources: ContainerResources,
    volumeMounts: seq<VolumeMount>,
    volumeDevices: seq<VolumeDevice>,
    failureThreshold: int)

  datatype PodSpec = PodSpec(containers: seq<Container>, volumes: seq<Volume>)

  datatype PodTemplate = PodTemplate(app: string, annotations: map<string, string>, spec: PodSpec)

  datatype DeploymentCondition = DeploymentCondition(kind: string, status: ConditionStatus)

  datatype Deployment = Deployment(
    controller: Option<Owner>,
    template: PodTemplate,
    conditions: seq<DeploymentCondition>)

  datatype Service = Service(controller: Option<Owner>, selectorApp: string)

  datatype Pod = Pod(ownerReferences: seq<Owner>, spec: PodSpec)

  // ---------- the cluster ----------

  datatype Cluster = Cluster(
    services: map<Key, InferenceService>,
    models: map<Key, BrukModel>,
    tenant: Option<BrukTenant>,
    deployments: map<Key, Deployment>,
    kubeServices: map<Key, Service>,
    configMaps: map<Key, map<string, string>>,
    pods: map<Key, Pod>)

  function Lookup<T>(m: map<Key, T>, key: Key): Option<T> {
    if key in m then Some(m[key]) else None
  }

  /** One listing of a namespace: every key of `keys` in `ns` exactly once, in any order. */
  ghost predicate Enumerates(order: seq<Key>, keys: set<Key>, ns: string) {
    && (forall k :: k in order <==> k in keys && k.ns == ns)
    && Distinct(order)
  }

  ghost predicate Distinct<T>(s: seq<T>) {
    forall i, j :: 0 <= i < j < |s| ==> s[i] != s[j]
  }

  /** The orders in which the three lists of a conflict check come back. */
  datatype Listing = Listing(siblings: seq<Key>, deployments: seq<Key>, pods: seq<Key>)

  ghost predicate Lists(order: Listing, c: Cluster, ns: string) {
    && Enumerates(order.siblings, c.services.Keys, ns)
    && Enumerates(order.deployments, c.deployments.Keys, ns)
    && Enumerates(order.pods, c.pods.Keys, ns)
  }
}
