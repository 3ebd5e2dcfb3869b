# The Airon Operator, modelled in Dafny

The Airon Operator turns `InferenceService` objects into confidential vLLM workloads. Its one hard duty is to keep
two workloads off the same trusted-store claim: a second consumer would format the store again. This project models
the operator's reconcilers, its renderer, its generated deep copy and its file-editing test helper, and proves what
they are for.

## How the model is built

`Types` holds the API objects as values and the cluster that stores them; an object's namespace and name are its key.
`Render` and `Text` are the renderer, a set of pure functions. `Conditions` is the status upsert. `Guard` is the
trusted-store check, as a declarative predicate and as the three early-exit scans. `Reconcile` is what one whole
reconcile does to the cluster, as a function of the clock and of the orders in which the three lists come back.

`Controller` has the controllers in their own form: classes whose methods read an API server object, mutate the
`InferenceService` copy they read and write back step by step. Each method is proved equal to the functions of
`Reconcile` and `Tenant`, and every theorem about those functions is therefore a theorem about the methods.

`Protocol` cuts the same reconcile at its API calls. `World` adds everything that happens around it: services
created, edited and deleted, owned objects garbage-collected, foreign Deployments, Services and Pods coming and
going, drift, models and the tenant changing. `Protocol.AloneIsWhole` shows that the cut form, left alone, is the
whole one.

`Promises` says what a reconcile does with the fields of the objects alone, for every case there is: when it goes
through, each refusal with its reason and message, and the whole cluster afterwards. Its results name none of the guard,
renderer and status functions that the other modules are built from, so they hold each of these to what it is for.

The main results:

- `Promises.GoesThroughExactly`, `GoesThrough`, `RefusedForItself`, `RefusedForTheClaim`, `RefusedByRendering` and
  `StopsAtForeign`: the complete account of one reconcile.
- `Exclusion.OneWorkerExcludes`: with one worker, no two applied Deployments of a namespace mount the same claim, in
  any reachable state, with the environment acting between any two API calls. `Collision.TwoWorkersCollide` shows
  that two workers and one claim edit are enough to break this, so the single worker is needed.
- `Workers.ManyWorkersApplyOnlyLeast`: any number of workers are safe while claims stay fixed and services only come
  in above the ones that are there; the sibling rule alone then decides.
- `Confluence.SchedulesAgree` and `ConfiguredAtTheEnd`: from a namespace with no Deployments and Pods, every schedule
  of reconciles reaches one state, up to message text and times, and that state is characterised.
  `Interleaving.InterleavedIsSequential`: so do reconciles cut at their API calls and interleaved in any way.
- `Repeats.RepeatsExactly` and `Isolation.NamespacesCommute`: when running again changes nothing, read off the
  cluster; namespaces do not interact.
- `Mirroring.StatusIsTrueExactly`: between any two API calls of any number of workers, whatever was cut off, a
  service's status tells the truth about its running Deployment exactly when its latest apply was of what the status
  shows. `StatusReportsWhatRuns` draws the consequence, and `CutOff.CutOffApplyIsUnreported` is a run that needs it.
- `Convergence.SweepConvergesAfterAnyHistory`: the two controllers come to agree on the initdata hash.
- `Claims.NoSecondMounter`, `HandoverCompletes` and `Waiting.WaitsWhileMounted`: one reconcile never adds a second
  mounter, and a claim passes on only when it is free, over whole runs too.
- `InitData.AcceptedExactly`, `Printing.EngineArgsParse` and `EndpointURLParses`,
  `Uncomment.UncommentUndoesCommenting` and `DeepCopy.CopyList`: round trips and exact characterisations of the
  smaller parts.

## What is assumed

- Reads are up to date: every list and get sees the cluster as it is at that call.
- The single-worker theorem assumes one reconcile at a time, the controller runtime's default, which
  `SetupWithManager` leaves in place.
- Server-side apply replaces the template and the controller reference, keeps the Deployment's status, and is
  rejected when another controller owns the object.
- The environment may change an applied Deployment in any way that mounts no further claim in it. The theorems about
  status and hashes assume more: nobody but the operator and the garbage collector changes or removes an applied
  Deployment or Service. Each theorem names the rule it needs (`Possible`, `NoDrift`).
- Uids are unique and never given twice. `Owner` keeps the uids of InferenceServices apart from all others, and only
  the operator writes Deployments and Services whose controller is an InferenceService.
- A condition is upserted by type and its transition time moves only when its status changes. A status write leaves
  the generation alone, and it is rejected when the object has changed since it was read.
- A reconcile reads the clock once for each condition it writes.
- The initdata hash is an arbitrary function of the blob; resource amounts are opaque; a message is a constructor
  with the values its text is formatted from.
- Names are ASCII, so comparing characters is comparing bytes.

## Where the code and its comments differ

- A model's `revision` is said to pin its weights (`operator/api/v1alpha1/brukmodel_types.go:60-62`). The renderer
  never emits it, so pinning another revision changes nothing that is deployed (`Watches.RevisionIsNotDeployed`).
- A failed reconcile is said not to touch children
  (`operator/internal/controller/inferenceservice_controller.go:62-65`). The ConfigMap is applied before rendering, so
  a failed rendering can leave one behind. `Frame.FailureKeepsChildren` and `RenderFailsExactly` say when, and
  `Counterexamples.FailedRenderLeavesConfigMap` is such a cluster. It takes a tenant without an image or a blob, which
  the tenant's schema does not admit (`operator/api/v1alpha1/bruktenant_types.go:60-61` and `:73-74`): only a tenant
  stored without that validation gets there.
- A rejected apply of the Service leaves the new Deployment in place and the status as it was (`Reconcile.Outcome`). A
  service that was already Configured then stays Configured, so "matches when converged"
  (`operator/api/v1alpha1/inferenceservice_types.go:229-233`) needs a proviso. `Convergence.TurnConvergesExactly` gives
  it, `Counterexamples.StaleBlockedStays` is a cluster that needs it, and `Convergence.SweepConvergesAfterAnyHistory`
  shows that it holds unless somebody tampers with the operator's own objects.
- The winner of a claim is Configured in the end, except when its Service name belongs to another controller
  (`Confluence.ConfiguredAtTheEnd`; such a namespace: `Counterexamples.WinnerStaysUnconfigured`).
- Reconciling again is not quite idempotent: when several objects hold the claim, the message names whichever the lists
  return first. `Repeats.RepeatsExactly` states for which clusters nothing changes, and
  `Counterexamples.RefusalTextChanges` is a cluster where the text does.
- The reconcile is said to keep status honest (`operator/internal/controller/inferenceservice_controller.go:62-63`).
  When it is cut off between applying the Deployment and updating the status, the status can stay behind the Deployment
  until the next success. `Mirroring.StatusIsTrueExactly` says exactly when it does, and
  `CutOff.CutOffApplyIsUnreported` is a run in which it does.
- The blob check accepts base64 text whose unused padding bits are set, so one payload can have several accepted texts,
  each hashed as text (`InitData.AcceptedTextIsNotCanonical`). `InitData.EncodeDecode` and `CanonicalTextIsUnique` say
  exactly which texts are canonical.
- `UncommentCode` drops the final line break of a target that ends in one, and a carriage return at a line end
  (`Uncomment.BreaksAreLost`; exactly when, in `UncommentNothing` and `UncommentKeepsTheRest`).

## Model

| member | source | states |
|---|---|---|
| Promises.GoesThroughExactly | operator/internal/controller/inferenceservice_controller.go:66-150 | A reconcile goes all the way iff the tenant exists, the model is under the service's namespace and modelRef, no local volume is asked for, the model has a source and a context at least as long as asked, the tenant has an image and a blob, no earlier service, foreign Deployment or bare Pod holds the claim, and neither object belongs to somebody else; an apply is rejected iff all but the last holds |
| Promises.GoesThrough | operator/internal/controller/inferenceservice_controller.go:117-149 | It then leaves the whole cluster as asked: template, Service, ConfigMap and status field by field, each condition with its reason, text, generation and time, and nothing else changed |
| Promises.RefusedForItself | operator/internal/controller/inferenceservice_controller.go:74-104 | For each check before the guard, the first that fails gives its own reason and message, in the status only |
| Promises.RefusedForTheClaim | operator/internal/controller/inferenceservice_controller.go:106-110 | A service that passes those checks and whose claim is held fails with the message that names an object of the first sort of holder there is |
| Promises.RefusedByRendering | operator/internal/controller/inferenceservice_controller.go:112-130 | A tenant without an image, or else without a blob, gives the failure of that name, after the ConfigMap |
| Promises.StopsAtForeign | operator/internal/controller/inferenceservice_controller.go:135-146 | At a Deployment or Service that belongs to somebody else the reconcile stops: what came before is written, the status is not |
| Promises.GoneDoesNothing | operator/internal/controller/inferenceservice_controller.go:69-72 | A service that is gone changes nothing |
| Promises.OwnPodsDoNotRefuse | operator/internal/controller/inferenceservice_controller.go:181-204 | When every Deployment that mounts the claim is the service's own and every Pod that mounts it has an owner, an otherwise sound service succeeds |
| Promises.LaterServiceIsRefused | operator/internal/controller/inferenceservice_controller.go:208-215 | Of two services of a namespace on one claim, the one created later, or in the same second with the greater name, does not succeed and applies nothing |
| Promises.EarliestServiceIsNotRefusedForSiblings | operator/internal/controller/inferenceservice_controller.go:166-174 | A service that no other comes before is not refused for a sibling |
| Promises.AvailabilityIsReported | operator/internal/controller/inferenceservice_controller.go:242-258 | After a success Ready and WorkloadAvailable are true iff the Deployment, as it was, has a condition Available with status True, and Progressing is true iff it has not |
| Promises.DeclaredNameIsServed | operator/api/v1alpha1/brukmodel_types.go:205-211 | After a success the engine's second argument and the status give the name the model declares, or the model's own if it declares none |
| Promises.RenderedAsAsked | operator/internal/render/render.go:96-167 | Rendering succeeds iff there are an image and a blob, and gives every field of the template from the service, the model and the tenant |
| Promises.TenantSays | operator/internal/controller/bruktenant_controller.go:48-75 | A reconcile of the tenant leaves the blob's hash, its generation and Ready with the reason and message for an undecodable, a non-gzip and a good blob, and nothing else changed |
| Promises.HoldersMean | operator/internal/controller/inferenceservice_controller.go:159-206 | What holds a claim, spelled out: an earlier service, a Deployment controlled by anybody else, or a Pod without owners that has it among its volumes |
| Promises.LexLessMeans | operator/internal/controller/inferenceservice_controller.go:214 | The name order is: at the first difference the smaller character, or the end |
| Exclusion.OneWorkerExcludes | operator/internal/controller/inferenceservice_controller.go:106-137 | In every reachable state of the single-worker system, with the environment acting freely between any two API calls short of mounting a further claim in an applied Deployment, no two applied Deployments of a namespace mount the same claim, and a Deployment controlled by a service carries its name |
| Collision.TwoWorkersCollide | operator/internal/controller/inferenceservice_controller.go:294-303 | A concrete run of two workers, with one edit of a claim in between, that ends with two applied Deployments on one claim: the single worker is needed |
| Workers.ManyWorkersApplyOnlyLeast | operator/internal/controller/inferenceservice_controller.go:162-174 | With any number of interleaved workers, fixed claims and services that only come in above the others, every applied Deployment belongs to the least service of its claim, so no two share a claim |
| Protocol.AloneIsWhole | operator/internal/controller/inferenceservice_controller.go:66-150 | The reconcile cut at its API calls, run without interruption, ends with what the whole reconcile does after at most nine calls beyond the first read, on every cluster |
| Honesty.StatusStaysHonest | operator/api/v1alpha1/inferenceservice_types.go:25-33 | In every reachable state, with any number of workers and any environment: Ready iff Configured and WorkloadAvailable, Progressing iff Configured and not WorkloadAvailable, each type at most once, no observed generation above the generation |
| Guard.GuardIsExact | operator/internal/controller/inferenceservice_controller.go:159-206 | The three scans return a message exactly when some object holds the claim against the service, and the object they name does hold it, for lists in any order |
| Guard.VerdictIgnoresOrder | operator/internal/controller/inferenceservice_controller.go:159-206 | The verdict is the same under every order of the three lists |
| Order.PrecedesIsStrictTotal | operator/internal/controller/inferenceservice_controller.go:208-215 | On distinct names the claim order is irreflexive, total and transitive, so a claim has one winner |
| Render.RenderedMountsExactly | operator/internal/render/render.go:292-299 | A rendered pod mounts its own claim and no other: what the renderer writes is what the guard looks for |
| Render.RenderedVolumesAreWired | operator/internal/render/render.go:246-301 | Volume names do not repeat, every mount and device names a volume, and every volume is used |
| Claims.SucceedsExactly | operator/internal/controller/inferenceservice_controller.go:66-150 | A reconcile succeeds iff its own checks and rendering pass, no older service has its claim, nobody else mounts it and neither object belongs to another controller; and exactly when Configured holds afterwards |
| Claims.NoSecondMounter | operator/internal/controller/inferenceservice_controller.go:176-205 | A reconcile never raises the number of mounters (Deployments and ownerless Pods) of any claim in any namespace above one |
| Claims.ReconcileKeepsOwnersNamed | operator/internal/controller/inferenceservice_controller.go:132-137 | That a Deployment controlled by a service carries its name is kept by every reconcile |
| Claims.LeastBeats | operator/internal/controller/inferenceservice_controller.go:162-174 | The least service of a claim holds it against every other service with that claim |
| Claims.HandoverWaits | operator/internal/controller/inferenceservice_controller.go:176-188 | While a Deployment that is not its own mounts the claim, a service writes no Deployment or Service and does not report Configured |
| Waiting.WaitsWhileMounted | operator/internal/controller/inferenceservice_controller.go:176-188 | Over every run, with any number of workers and any environment, as long as some Deployment that is not its own mounts the claim a service asks for at the time, the service does not come to be reported Configured |
| Claims.HandoverCompletes | operator/internal/controller/inferenceservice_controller.go:152-206 | Once the claim is free the least service gets its Deployment and is Configured, and every other service with the claim is still refused |
| Confluence.ReconcileSettles | operator/internal/controller/inferenceservice_controller.go:66-150 | Up to text and times, a reconcile is a function of the state alone: the clock and the list orders do not matter |
| Confluence.TurnsAreIndependent | operator/internal/controller/inferenceservice_controller.go:159-206 | In a namespace that started without workloads, what a reconcile writes does not depend on which services were reconciled before it |
| Confluence.SchedulesAgree | operator/internal/controller/inferenceservice_controller.go:66-150 | Two schedules that give every service of such a namespace a turn, in any order and number and mixed with turns elsewhere, end in the same state up to text and times |
| Confluence.ConfiguredAtTheEnd | operator/internal/controller/inferenceservice_controller.go:210-215 | In that state a service has a Deployment iff its checks pass and it is least for its claim, and it is Configured iff so, except that one whose Service name is taken keeps its old condition |
| Counterexamples.WinnerStaysUnconfigured | operator/internal/controller/inferenceservice_controller.go:139-146 | A namespace without workloads whose only service wins its claim, gets its Deployment and is not Configured, because its Service name is taken |
| Interleaving.InterleavedIsSequential | operator/internal/controller/inferenceservice_controller.go:66-150 | From such a namespace left quiet, any run that cuts and interleaves reconciles at their API calls, over any number of workers on distinct services, and brings each service to an end, reaches the state that whole reconciles reach one after the other, up to text and times |
| Interleaving.InterleavingsAgree | operator/internal/controller/inferenceservice_controller.go:66-150 | Two such runs reach the same state up to text and times |
| Frame.ReconcileTouchesOnly | operator/internal/controller/inferenceservice_controller.go:117-149 | A reconcile changes at most the service's status, its Deployment, its Service and the namespace's ConfigMap |
| Frame.FailureKeepsChildren | operator/internal/controller/inferenceservice_controller.go:226-234 | A failing reconcile changes no Deployment and no Service, keeps every status field but conditions and observed generation, leaves Configured not true, and leaves the ConfigMaps as they were iff rendering did not fail, or the service has no cache, or the ConfigMap was already there as rendered |
| Frame.RenderFailsExactly | operator/internal/controller/inferenceservice_controller.go:112-130 | Rendering fails iff the service's checks and the guard pass and the tenant lacks an image or a blob |
| Counterexamples.FailedRenderLeavesConfigMap | operator/internal/controller/inferenceservice_controller.go:117-130 | A cluster, with a tenant outside its schema, where a failed reconcile leaves a new ConfigMap |
| Frame.Idempotent | operator/internal/controller/inferenceservice_controller.go:66-150 | A second reconcile, at any later time and with lists in any order, leaves the whole cluster as it is, transition times included, iff it does not name another holder in a refusal by the guard |
| Repeats.RepeatsExactly | operator/internal/controller/inferenceservice_controller.go:66-150 | A reconcile is idempotent for every pair of listings and times iff the service is gone, its own checks refuse it, nobody holds its claim, or exactly one object of the first sort that has a holder does |
| Counterexamples.RefusalTextChanges | operator/internal/controller/inferenceservice_controller.go:194-204 | A cluster with two bare Pods on the claim and two listings of them where the second reconcile rewrites the status |
| Frame.NoNewConflict | operator/internal/controller/inferenceservice_controller.go:176-188 | What a reconcile writes never turns into a conflict of that service with itself |
| Isolation.ReconcileIsLocal | operator/internal/controller/inferenceservice_controller.go:66-150 | What a namespace looks like after a reconcile depends only on how it looked before, and does not change when the service lives in another namespace |
| Isolation.GuardIsLocal | operator/internal/controller/inferenceservice_controller.go:162-193 | The guard's answer depends only on its own namespace |
| Isolation.NamespacesCommute | operator/internal/render/render.go:82-84 | Reconciles of services in different namespaces commute on every cluster |
| Watches.UnqueuedServicesAreUnaffected | operator/internal/controller/inferenceservice_controller.go:83-104 | After a model is created, changed or deleted, a service that does not reference it ends its reconcile the same way, with the same writes |
| Watches.RevisionIsNotDeployed | operator/api/v1alpha1/brukmodel_types.go:60-62 | Changing only the revision of a model changes nothing that any reconcile writes |
| Controller.InferenceServiceReconciler.ServicesForModel | operator/internal/controller/inferenceservice_controller.go:305-320 | Returns exactly the services that reference the model, each once |
| Controller.InferenceServiceReconciler.AllServices | operator/internal/controller/inferenceservice_controller.go:322-336 | Returns every service exactly once |
| Controller.PodSpecMountsClaim | operator/internal/controller/inferenceservice_controller.go:217-224 | Found iff some volume mounts the claim |
| Controller.DeploymentAvailable | operator/internal/controller/inferenceservice_controller.go:284-291 | Found iff some condition of type Available is true |
| Controller.InferenceServiceReconciler.TrustedStoreConflict | operator/internal/controller/inferenceservice_controller.go:159-206 | The three loops return the message of the first holder in list order, and one at all iff somebody holds the claim |
| Controller.InferenceServiceReconciler.SetCondition | operator/internal/controller/inferenceservice_controller.go:273-282 | Upserts one condition by type, stamped with the generation that was read |
| Controller.InferenceServiceReconciler.FailConfigured | operator/internal/controller/inferenceservice_controller.go:226-234 | Writes the three failed conditions and the observed generation of this object, and nothing else |
| Controller.InferenceServiceReconciler.UpdateReadyStatus | operator/internal/controller/inferenceservice_controller.go:236-271 | Writes endpoint, served name, image, hash, observed generation and the four conditions, which are those of an available workload iff the Deployment has a condition Available with status True, and nothing else |
| Controller.InferenceServiceReconciler.ApplyWorkload | operator/internal/controller/inferenceservice_controller.go:127-149 | Applies Deployment, Service and status in turn and stops at the first rejection; the cluster is the one write of that outcome |
| Controller.InferenceServiceReconciler.Reconcile | operator/internal/controller/inferenceservice_controller.go:66-150 | Step by step over the API server, ends in exactly the cluster that the specification function gives, and returns an error iff an apply was rejected |
| Controller.BrukTenantReconciler.Reconcile | operator/internal/controller/bruktenant_controller.go:48-75 | Step by step, ends in exactly the cluster that the tenant specification gives |
| Tenant.TenantReadyExactly | operator/internal/controller/bruktenant_controller.go:48-75 | Afterwards Ready is true iff the blob decodes to a gzip header, whatever was there before, and a second reconcile changes nothing |
| Conditions.UpsertFind | operator/internal/controller/inferenceservice_controller.go:273-282 | An upsert replaces the condition of its type, keeping the transition time iff the status is the same, and keeps every other type |
| Promises.UpsertInPlace | operator/internal/controller/inferenceservice_controller.go:273-282 | An upsert changes the first condition of its type in place, or appends, and touches nothing else |
| Promises.FindIsFirst | operator/internal/controller/inferenceservice_controller.go:273-282 | Looking a condition up finds the first of its type |
| Conditions.WritersCohere | operator/internal/controller/inferenceservice_controller.go:226-258 | The failure and the success writer both establish the Ready and Progressing equations from any conditions at all, stale ones included |
| Conditions.AppliedTwice | operator/internal/controller/inferenceservice_controller.go:236-258 | Writing the same success again, at any later time, changes no condition and no transition time |
| Conditions.FailedTwice | operator/internal/controller/inferenceservice_controller.go:226-234 | Writing the same failure again, at any later time, changes no condition and no transition time |
| Convergence.StatusMirrorsWorkload | operator/internal/controller/inferenceservice_controller.go:260-270 | Over every history of whole reconciles, successes and failures, without outside drift, a service that ever succeeded controls its Deployment and Service, and its image, hash and served name in status are those the Deployment runs |
| Mirroring.StatusIsTrueExactly | operator/internal/controller/inferenceservice_controller.go:127-149 | In every state of every run cut at the API calls, with any number of workers on distinct services, reconciles abandoned anywhere and no outside drift, a service that ever succeeded controls its Deployment and Service, its Deployment runs what its latest apply was of, and its status shows what runs iff that apply was of the image, served name and hash in the status |
| Mirroring.StatusReportsWhatRuns | operator/internal/controller/inferenceservice_controller.go:127-149 | So its status is true when no worker has it between apply and status and its latest apply was not cut off there |
| CutOff.CutOffApplyIsUnreported | operator/internal/controller/inferenceservice_controller.go:135-149 | A run from a cluster where every status is true: the tenant's image changes, the apply is cut off before its status, and the service that succeeded shows the old image with nobody at work |
| Convergence.TurnConvergesExactly | operator/internal/controller/inferenceservice_controller.go:260-270 | After its turn a service that reports Configured shows the tenant's hash, unless and only unless it was out of date, wins its claim, passes its checks and cannot apply because an object of its belongs to somebody else |
| Convergence.SweepConverges | operator/api/v1alpha1/inferenceservice_types.go:229-233 | From any cluster without a stale service that cannot apply, turns in any order that reach the tenant and every service make all hashes agree |
| Convergence.SweepConvergesAfterAnyHistory | operator/internal/controller/inferenceservice_controller.go:322-336 | After any history without outside drift, such a sweep always makes the tenant's and every Configured service's hash agree |
| Counterexamples.StaleBlockedStays | operator/internal/controller/inferenceservice_controller.go:135-146 | A cluster where such a service stays Configured with the old hash, for any two blobs with different hashes |
| Text.ParseDecimal | operator/internal/render/render.go:221 | Decimal printing is inverted for every integer |
| Text.DecimalIsPlain | operator/internal/render/render.go:221 | Printed numbers are digits without a leading zero |
| Text.HundredthsExact | operator/internal/render/render.go:222 | A two-digit fraction denotes n/100 iff n is between 0 and 99 |
| Printing.EngineArgsParse | operator/internal/render/render.go:212-227 | Repository, served name, quantization, model length and percentage are read back from the arguments, for all values |
| Printing.EngineArgsInjective | operator/internal/render/render.go:212-227 | Equal arguments come from equal engine, repository and served name |
| Printing.UtilizationDenotesPercent | operator/api/v1alpha1/inferenceservice_types.go:70-76 | The utilization argument denotes percent/100 iff the percentage is between 0 and 99, which covers the schema's range |
| Printing.TemplateChangesExactly | operator/internal/render/render.go:96-167 | Two renderings give the same pod template iff name, tenant config, engine, GPUs, limits, requests defaulted to the limits, cache, claim, repository, token secret, served name and failure threshold agree |
| Printing.EndpointURLParses | operator/internal/render/render.go:199-202 | Name and namespace are read back from the URL for every dot-free namespace |
| Printing.DottedNamespacesCollide | operator/internal/render/render.go:199-202 | With a dot in the namespace two services would share a URL |
| InitData.DecodesIffWellFormed | operator/internal/controller/bruktenant_controller.go:81-84 | The decoder accepts exactly whole groups of alphabet characters with at most two paddings at the very end |
| InitData.AcceptedExactly | operator/internal/controller/bruktenant_controller.go:77-89 | Within the schema's alphabet a blob is accepted iff it is well-formed padded base64 starting H4 and one of s, t, u, v |
| InitData.DecodeEncode | operator/internal/controller/bruktenant_controller.go:81 | Decoding inverts standard base64 encoding for every byte string |
| InitData.AlphabetIsStandard | operator/internal/controller/bruktenant_controller.go:81 | The alphabet is A to Z, a to z, 0 to 9, + and /, in that order |
| InitData.BreakIsIgnored | operator/internal/controller/bruktenant_controller.go:81 | A carriage return or line feed anywhere in the text makes no difference to decoding |
| InitData.EncodingAccepted | operator/internal/controller/bruktenant_controller.go:85-88 | The encoding of a byte string is accepted iff the bytes start 1f 8b |
| InitData.AcceptedTextIsNotCanonical | operator/internal/controller/bruktenant_controller.go:81-88 | Two different accepted texts with the same bytes |
| InitData.EncodeDecode | operator/internal/controller/bruktenant_controller.go:81 | Encoding the decoded bytes gives a well-formed text back iff the unused bits of its last group are zero |
| InitData.CanonicalTextIsUnique | operator/internal/controller/bruktenant_controller.go:77-89 | An accepted text is the encoding of its payload iff it is canonical, and two canonical accepted texts have the same payload iff they are the same text |
| DeepCopy.CopyPair | operator/api/v1alpha1/zz_generated.deepcopy.go:551-560 | An equal pair whose request cell is new, nil staying nil |
| DeepCopy.CopyStorage | operator/api/v1alpha1/zz_generated.deepcopy.go:587-596 | An equal storage spec whose every cell is new |
| DeepCopy.CopySpec | operator/api/v1alpha1/zz_generated.deepcopy.go:399-411 | An equal spec whose every cell is new |
| DeepCopy.CopyStatus | operator/api/v1alpha1/zz_generated.deepcopy.go:423-438 | An equal status whose condition slice and endpoint cell are new, nil and empty slices kept apart |
| DeepCopy.CopyService | operator/api/v1alpha1/zz_generated.deepcopy.go:340-347 | An equal service whose every cell and slice is new |
| DeepCopy.CopyList | operator/api/v1alpha1/zz_generated.deepcopy.go:367-379 | A list of any length, nil and empty kept apart, is copied to an equal one in which everything reachable is new |
| DeepCopy.WritesThroughCopyStayThere | operator/api/v1alpha1/zz_generated.deepcopy.go:367-379 | After any writes whatever to what is reachable from the copy, the original denotes what it did |
| Uncomment.IndexIsFirst | operator/test/utils/utils.go:187-190 | The search finds the first occurrence, and finds one iff there is one |
| Uncomment.LineScanner.Scan | operator/test/utils/utils.go:198-213 | Each call delivers the next line and leaves the lines after it |
| Uncomment.ScanIsSplit | operator/test/utils/utils.go:198-213 | The lines delivered are the parts between line breaks, each less one carriage return at its end, without a last empty part |
| Uncomment.SplitJoins | operator/test/utils/utils.go:156 | Joining the parts with line breaks gives the text back |
| Uncomment.UncommentCode | operator/test/utils/utils.go:178-226 | The scanner loop writes the specified file content; it fails iff the target occurs nowhere, and leaves the content alone for an empty target |
| Uncomment.UncommentUndoesCommenting | operator/test/utils/utils.go:176-213 | Uncommenting a block whose lines were all prefixed gives back the original text iff the last prefixed line is not empty or it is the only one |
| Uncomment.UncommentKeepsTheRest | operator/test/utils/utils.go:192-217 | Everything around the first occurrence stays; the block is the scanned lines of the target, each less the prefix it may start with; the number of lines stays iff the target does not end in a line break |
| Uncomment.UncommentNothing | operator/test/utils/utils.go:198-213 | With an empty prefix the text stays the same iff the target has no carriage return at a line end and no final line break |
| Uncomment.BreaksAreLost | operator/test/utils/utils.go:198-213 | A target that loses its final line break and one that loses its carriage return |
| Uncomment.GetNonEmptyLines | operator/test/utils/utils.go:152-164 | Returns the non-empty parts between line breaks: each is such a part, as many as there are, and together the input without its line breaks |

## Left out

- Liveness: nothing re-queues a waiting service when a sibling or a foreign Deployment goes away, so handover is stated for the next reconcile, whenever it comes.
- Pods with any owner reference: the guard skips them, so a StatefulSet, a Job or the terminating pods of a deleted Deployment can still mount a claim; nothing is stated about them.
- Stale informer reads, leader election and network errors, beyond a call that fails and changes nothing.
- SHA-256, gzip inflation, resource arithmetic, object metadata and the schema's CEL rules.
- The labels and selector, the probe's fixed delays, replicas, strategy, runtime class and ports of the rendered Deployment, and the fixed size of the shared-memory volume.
- Merging by server-side apply: an apply replaces the whole template, also what another field manager added to it. The API server's refusal to change a selector is not part of this model.
- The BrukModel reconciler, the manager's start-up code, the kubectl and cert-manager helpers, the manifests and the benchmarks.
- Reading and writing the file around `UncommentCode`, and the scanner's maximum line length.
- The deep-copy methods of the other generated types, which repeat the same three shapes.
- DeepCopy.CopyService: returns the copied struct where the source writes through a pointer to it, and the struct's metadata is reduced to key, uid, creation time and generation.
- DeepCopy.CopyList: a new slice starts as a shallow copy of the original's elements where the source starts with zero values; every element is overwritten before the copy is returned.
