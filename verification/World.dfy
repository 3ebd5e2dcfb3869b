/** Everything that happens around the operator: users, other controllers, garbage collection. */
module World {
  import opened Types
  import opened Render

  /** The cluster, with the key each service uid was ever given to. Uids are never given twice. */
  datatype World = World(cluster: Cluster, issued: map<nat, Key>)

  datatype EnvAction =
    | CreateService(key: Key, uid: nat, created: nat, spec: Spec)
    | EditSpec(key: Key, spec: Spec)
    | DeleteService(key: Key)
    | CollectDeployment(key: Key)
    | CollectKubeService(key: Key)
    | PutForeignDeployment(key: Key, deployment: Deployment)
    | RemoveDeployment(key: Key)
    | DriftDeployment(key: Key, template: PodTemplate)
    | ReportDeployment(key: Key, conditions: seq<DeploymentCondition>)
    | PutForeignKubeService(key: Key, service: Service)
    | RemoveKubeService(key: Key)
    | PutPod(key: Key, pod: Pod)
    | RemovePod(key: Key)
    | SetModel(key: Key, model: Option<BrukModel>)
    | SetTenant(tenant: Option<BrukTenant>)

  predicate OwnedByService(controller: Option<Owner>) {
    controller.Some? && controller.value.ByService?
  }

  /** The Deployment under k was applied by the operator. */
  predicate Applied(c: Cluster, k: Key) {
    k in c.deployments && OwnedByService(c.deployments[k].controller)
  }

  predicate OwnerGone(c: Cluster, controller: Option<Owner>) {
    OwnedByService(controller) && forall k <- c.services :: controller != Some(ByService(c.services[k].uid))
  }

  /** A change to an applied Deployment from outside, such as an injected volume, mounts no new claim. */
  ghost predicate AddsNoClaim(before: PodSpec, after: PodSpec) {
    forall claim :: MountsClaim(after, claim) ==> MountsClaim(before, claim)
  }

  ghost predicate Possible(w: World, a: EnvAction) {
    var c := w.cluster;
    match a
    case CreateService(key, uid, created, spec) => key !in c.services && uid !in w.issued
    case EditSpec(key, spec) => key in c.services && spec.modelRef == c.services[key].spec.modelRef
    case DeleteService(key) => key in c.services
    case CollectDeployment(key) => key in c.deployments && OwnerGone(c, c.deployments[key].controller)
    case CollectKubeService(key) => key in c.kubeServices && OwnerGone(c, c.kubeServices[key].controller)
    case PutForeignDeployment(key, deployment) => !Applied(c, key) && !OwnedByService(deployment.controller)
    case RemoveDeployment(key) => true
    case DriftDeployment(key, template) =>
      Applied(c, key) && AddsNoClaim(c.deployments[key].template.spec, template.spec)
    case ReportDeployment(key, conditions) => key in c.deployments
    case PutForeignKubeService(key, service) =>
      !OwnedByService(service.controller) && (key in c.kubeServices ==> !OwnedByService(c.kubeServices[key].controller))
    case RemoveKubeService(key) => true
    case PutPod(key, pod) => true
    case RemovePod(key) => true
    case SetModel(key, model) => true
    case SetTenant(tenant) => true
  }

  function Act(w: World, a: EnvAction): World
    requires Possible(w, a)
  {
    var c := w.cluster;
    match a
    case CreateService(key, uid, created, spec) =>
      World(c.(services := c.services[key := InferenceService(uid, created, 1, spec, EMPTY_STATUS)]),
          w.issued[uid := key])
    case EditSpec(key, spec) =>
      var isvc := c.services[key];
      w.(cluster := c.(services := c.services[key := isvc.(spec := spec, generation := isvc.generation + 1)]))
    case DeleteService(key) => w.(cluster := c.(services := c.services - {key}))
    case CollectDeployment(key) => w.(cluster := c.(deployments := c.deployments - {key}))
    case CollectKubeService(key) => w.(cluster := c.(kubeServices := c.kubeServices - {key}))
    case PutForeignDeployment(key, deployment) => w.(cluster := c.(deployments := c.deployments[key := deployment]))
    case RemoveDeployment(key) => w.(cluster := c.(deployments := c.deployments - {key}))
    case DriftDeployment(key, template) =>
      w.(cluster := c.(deployments := c.deployments[key := c.deployments[key].(template := template)]))
    case ReportDeployment(key, conditions) =>
      w.(cluster := c.(deployments := c.deployments[key := c.deployments[key].(conditions := conditions)]))
    case PutForeignKubeService(key, service) => w.(cluster := c.(kubeServices := c.kubeServices[key := service]))
    case RemoveKubeService(key) => w.(cluster := c.(kubeServices := c.kubeServices - {key}))
    case PutPod(key, pod) => w.(cluster := c.(pods := c.pods[key := pod]))
    case RemovePod(key) => w.(cluster := c.(pods := c.pods - {key}))
    case SetModel(key, model) =>
      w.(cluster := c.(models := if model.Some? then c.models[key := model.value] else c.models - {key}))
    case SetTenant(tenant) => w.(cluster := c.(tenant := tenant))
  }

  /** Uids and keys agree: every service, and every applied Deployment, sits under the key its uid was given to. */
  ghost predicate Registered(w: World) {
    && (forall k <- w.cluster.services ::
          w.cluster.services[k].uid in w.issued && w.issued[w.cluster.services[k].uid] == k)
    && (forall k <- w.cluster.deployments :: Applied(w.cluster, k) ==>
          var uid := w.cluster.deployments[k].controller.value.uid;
          uid in w.issued && w.issued[uid] == k)
  }

  /** The environment adds no applied Deployment and no claim to one. */
  lemma EnvironmentAddsNoMounter(w: World, a: EnvAction, k: Key)
    requires Possible(w, a)
    ensures Applied(Act(w, a).cluster, k) ==>
              && Applied(w.cluster, k)
              && Act(w, a).cluster.deployments[k].controller == w.cluster.deployments[k].controller
              && AddsNoClaim(w.cluster.deployments[k].template.spec, Act(w, a).cluster.deployments[k].template.spec)
  {
  }

  lemma EnvironmentKeepsRegistered(w: World, a: EnvAction)
    requires Possible(w, a) && Registered(w)
    ensures Registered(Act(w, a))
    ensures forall uid <- w.issued :: uid in Act(w, a).issued && Act(w, a).issued[uid] == w.issued[uid]
  {
    forall k { EnvironmentAddsNoMounter(w, a, k); }
  }
}
