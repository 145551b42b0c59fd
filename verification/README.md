# ModelService platform: a verified model

The repository serves machine-learning models on Kubernetes. A `ModelService`
object says what to run; a REST API creates, replaces, patches and deletes such
objects; an operator reconciles each of them into a Deployment with its Service,
storage claim, disruption budget, network policy and route, or into a KServe
InferenceService, and publishes a status. Model artifacts carry a checksum file
that training writes and verification reads.

This project models that behaviour and proves properties of all runs of it.

| files | content |
|---|---|
| `Strings`, `ModelServices` | text helpers, resource types, schema defaults and cross-field rules |
| `Validation`, `Transforms`, `TransformLaws` | request validation, create/PUT/PATCH as spec transformations, their laws |
| `Clusters`, `Handlers`, `Replies` | the API server, the store and the mutation handlers, and what their replies mean |
| `Children`, `NetworkPolicies`, `Reconciler`, `ReconcilerLaws`, `Ownership`, `ExposedPath`, `DesiredState` | the operator: desired children, its step-by-step program, convergence, ownership, agreement, and what a successful reconcile delivers |
| `Conditions`, `Statuses`, `StatusMeaning` | the Available condition, the status of both backends, and what it says about the reports |
| `Protocol`, `Serializability`, `Histories`, `StatusHistories`, `Acceptance`, `ReconcileRuns` | handlers, reconciles and external writers interleaved, and what holds in every run |
| `Checksums` | the checksum file's writer and parser |

## How the pieces fit

- **The API server** is one value: ModelServices by key, children by kind and
  key, and a revision counter that every write increments. `Clusters.ApiServer`
  is the same thing as an object; the store, the handlers and the reconciler are
  classes that change it, and each method is proved to have the effect of a
  function on the value (`UpdateModel`, `Finish`, `Step`, `RunChildren`,
  `Reconciled`). The protocol's actions use the same functions, and where it
  spells out an effect of its own, `ReconcileRuns` proves the two equal: a
  reconcile, interrupted anywhere, is a run of its actions.
- **A run** (`Protocol.Run`) is any sequence of actions: the read of a request,
  its write, a create, arbitrary external creates, updates and deletes, the
  read, child steps and status write of any number of concurrent reconciles,
  workload reports and garbage collection. Reads may return any version that
  ever existed; a write may be lost before or after it takes effect.
- **Writes from Go.** Both the API and the operator write through Go types whose
  fields are tagged `omitempty`, and the schema then fills in its defaults.
  `ModelServices.Stored` is that composition. The backend's allowed values and
  the cross-field rules are modelled; whether the checks of the other fields
  accept a write, of the API or of an external writer, is an arbitrary input
  (`schemaOk`).
- **Library functions** (quantity parsing, DNS label and subdomain checks, IP
  parsing, int-or-string parsing, lower-casing, integer printing) are the fields
  of one `Library` value: uninterpreted, the same everywhere.
- `SetControllerReference` refuses an object whose controller has another group,
  kind or name; `IsControlledBy` compares uids. The model keeps both.

## Findings

- A field that the operator's types drop when zero and the schema defaults to
  something else does not survive a PUT or PATCH that never mentions it: an
  explicitly disabled disruption budget is switched on again by an unrelated
  PATCH (`DisabledBudgetIsLost`). `UntouchableSections` gives the exact
  condition under which the unmentioned sections survive.
- Two PATCHes of the exposure equal the merged PATCH on the candidate except
  when the first fills in a path prefix and the second switches the exposure
  off (`PatchComposition`, with the input in `ExposeThenHide`); on stored
  objects the exception disappears (`StoredPatchComposition`).
- The validator accepts an object path that begins with a line feed; the schema
  pattern does not (`SchemaPatternAgreement`, with the input in
  `LineFeedLocation`).
- The normalized backend of an object can change after all, in exactly one way:
  the object names no backend and an external writer asks for KServe
  (`ExternalBackendChange`, with the input in `UnnamedBackendBecomesKServe`).
  Without such a write it never changes (`NormalizedBackendImmutable`), and no
  run from an empty server contains one (`NamedBackendsNeverChange`).
- Printing what the checksum parser returned and parsing it again does not
  always give the same mapping. A parsed name is empty exactly when only stars
  follow the digest (`EmptyNameOnlyStars`, input in `EmptyNameParses`), and
  begins with a star exactly when stars, white space and a star follow it
  (`StarredName`, input in `StarredNameParses`). Files without such lines, and
  only those, survive (`Reprint`).

## Model

| member | source | states |
|---|---|---|
| `Serializability.Serializable` | internal/api/handlers/patch_modelservice.go:138-349 | for every interleaving, the server ends exactly where the same requests end when each is one indivisible read-modify-write at the moment of its commit; commits on a stale read have no effect |
| `Serializability.CommitIsAtomic` | internal/api/handlers/update_modelservice.go:140-330 | a commit whose read is still current has the effect and the reply of deciding afresh on the current object; any other commit changes nothing, and conflicts exactly when another version is there (if none is, a DELETE is confirmed) |
| `Serializability.WholeIsAtomically` | internal/api/handlers/update_modelservice.go:140-330 | the indivisible request of the serial run is the handler's own read, decision and write |
| `Serializability.AnswerIsAtomic` | internal/api/handlers/patch_modelservice.go:138-329 | in every run, a request that is answered after its read, however stale the read, gets the answer that the indivisible request gives at some earlier moment, where it changes nothing |
| `Serializability.ReadWasCurrent` | internal/api/kubernetes/modelservices.go:49-67 | whatever a read returns, absence included, the server held it at some earlier moment of the run |
| `Serializability.NoInterveningWrite` | internal/api/kubernetes/modelservices.go:90-143 | if a request's read is current at its commit, the object was that very version at every moment in between: no update is lost |
| `Serializability.NeverReturns` | internal/api/kubernetes/modelservices.go:90-143 | a version once left never becomes current again, not even by deletion and recreation |
| `Serializability.DeleteRemovesInspected` | internal/api/kubernetes/modelservices.go:111-143 | whatever a commit removes is the exact object version a DELETE inspected, never a recreated namesake |
| `Serializability.StatusIsAtomic` | internal/controller/modelservice_controller.go:1262-1283 | a status write takes effect only on the version it was derived from |
| `Serializability.GitOpsGuard` | internal/api/handlers/modelservice_ownership.go:14-29 | at every API action of every run, an object that carries a tracking marker at that moment is neither changed nor deleted, and API actions never change labels or annotations |
| `Protocol.ConsistentRun` | internal/api/kubernetes/modelservices.go:49-143 | in every run a version identifies one object value, versions of an incarnation only grow, and every pending request holds the decision for a version that existed |
| `Protocol.PlatformIsHonest` | internal/api/handlers/patch_modelservice.go:188-349 | the handlers only edit the spec of the object they read, keep its backend, never write a tracked object, and a status observes the generation it was derived from |
| `Protocol.StatusEvolves` | internal/controller/modelservice_controller.go:1262-1283 | a status write changes nothing or replaces exactly its own snapshot and observes its generation |
| `Histories.StatusWriteIsCurrent` | internal/controller/modelservice_controller.go:1219-1283 | at the instant a status write commits, observedGeneration is the object's current generation |
| `Histories.GenerationsRun` | internal/controller/modelservice_kserve_controller.go:237-363 | in every run observedGeneration never exceeds the generation and, within an incarnation, both grow with the version |
| `Histories.ObservedGenerationMonotone` | internal/controller/modelservice_controller.go:1219-1283 | between any two moments of a run the observedGeneration of an incarnation does not decrease |
| `StatusHistories.ObservedStatusIsTruthful` | internal/controller/modelservice_controller.go:1204-1269 | in every run from the empty server, under any concurrency, phase is Ready if and only if Available is True, and a status that observes the current generation is Ready only with max(replicas, 1) ready replicas of the current spec |
| `StatusHistories.TruthfulRun` | internal/controller/modelservice_kserve_controller.go:244-363 | every action keeps that truth, for any program whose derived statuses are coherent |
| `StatusHistories.OthersKeepStatus` | internal/api/kubernetes/modelservices.go:90-109 | no action but a status write changes the status of an object |
| `Histories.BackendImmutable` | internal/api/handlers/update_modelservice.go:201-237 | along every run, external writers included, all versions of an incarnation name the same backend, provided all objects name one, as they do in every run from an empty server |
| `Histories.NormalizedBackendImmutable` | internal/api/handlers/patch_modelservice.go:192-225 | from any state, objects that name no backend included, the normalized backend of an incarnation never changes along a run without the external writes that `ExternalBackendChange` singles out |
| `Histories.NamedBackendsNeverChange` | api/v1alpha1/modelservice_types.go:277-283 | no run from the empty server contains such a write |
| `Histories.ApiKeepsBackend` | internal/api/handlers/patch_modelservice.go:192-225 | API actions keep the normalized backend even where the object names none |
| `Histories.ExternalBackendChange` | api/v1alpha1/modelservice_types.go:275-283 | an external update changes the normalized backend if and only if the object names none, the writer asks for KServe with a predictor, and the other fields pass the schema |
| `Histories.UnnamedBackendBecomesKServe` | api/v1alpha1/modelservice_types.go:275-283 | an object that names no backend becomes a KServe one by a concrete external update |
| `Histories.OneFamily` | internal/controller/modelservice_controller.go:145-152 | in every run from the empty server, one incarnation never controls both an InferenceService and a child of the Deployment backend |
| `Acceptance.ApiImpliesController` | internal/api/validation/modelservice.go:16-402 | in every run in which specs come from the API, every version of every object re-validates without findings, satisfies the cross-field rules and is rejected by no step of the controller |
| `Acceptance.ControllerAccepts` | internal/controller/modelservice_controller.go:642-647 | an API spec never triggers the controller's own errors: unparsable size, missing hostname, missing predictor |
| `Acceptance.DecidedSpec` | internal/api/handlers/patch_modelservice.go:227-349 | whatever object it starts from, a PUT or PATCH that goes on to write stores a spec that validates again |
| `ReconcilerLaws.RetryConvergence` | internal/controller/modelservice_controller.go:127-498 | after any number of reconciles cut short anywhere, an uninterrupted one ends with the same outcome, children and status (up to uids, versions and transition times) as one uninterrupted run from the original cluster |
| `ReconcilerLaws.ReconcileFixpoint` | internal/controller/modelservice_controller.go:127-498 | after a successful reconcile a second one, at any later time, leaves the whole cluster unchanged, revision included, for both backends |
| `ReconcilerLaws.StatusFixpoint` | internal/controller/modelservice_controller.go:1262-1267 | re-deriving the status from an unchanged workload issues no write |
| `DesiredState.DeploymentReconciled` | internal/controller/modelservice_controller.go:127-498 | a successful reconcile of a Deployment service, from any cluster, delivers workload, storage, identity, budget and network exactly as the fields of the spec ask, and the object's status says exactly what the Deployment reports |
| `DesiredState.KServeReconciled` | internal/controller/modelservice_kserve_controller.go:155-233 | a successful reconcile of a KServe service delivers the InferenceService that the spec describes, touches no other child, and the object's status says exactly what KServe reports |
| `DesiredState.ReconcileStorage` | internal/controller/modelservice_controller.go:590-695 | with storage on, the claim exists with the parsed size and the pods mount exactly that claim at exactly the path of the spec; with storage off there is neither |
| `DesiredState.ReconcileIdentity` | internal/controller/modelservice_controller.go:502-565 | the service account that the pods name exists, and both hand out a token if and only if the spec asks for it |
| `DesiredState.ReconcileBudget` | internal/controller/modelservice_controller.go:699-799 | a budget over exactly the templated pods exists unless its section disables it, with the value of the section or one |
| `DesiredState.GeneratedWorkload` | internal/controller/modelservice_controller.go:182-366 | image, replicas, resources, security, probes, rollout and shutdown of the pods follow the spec field by field, with the documented value where a field is absent |
| `DesiredState.GeneratedInference` | internal/controller/modelservice_kserve_controller.go:78-151 | replicas, model format, runtime, location, service account and resources of the InferenceService follow the spec |
| `DesiredState.EmptySectionsMeanAbsent` | internal/controller/modelservice_controller.go:1354-1651 | the schema's defaults and the controller's agree: an empty section resolves, once stored, to what an absent one resolves to |
| `ReconcileRuns.ReconcileIsRun` | internal/controller/modelservice_controller.go:127-498 | a reconcile that stops after any number of steps has the server effect of its begin, the child steps that ran and its status write as actions of a run |
| `ReconcileRuns.StatusIsPublished` | internal/controller/modelservice_controller.go:1197-1283 | the protocol's status write, given what the child reports, is the status step of a reconcile |
| `ReconcileRuns.CreateIsCreation` | internal/api/handlers/create_modelservice.go:161-251 | the protocol's create action is the create handler |
| `ReconcilerLaws.SettleIdempotent` | internal/controller/modelservice_controller.go:172-377 | settling a settled child changes nothing, and a failed settling fails again |
| `ReconcilerLaws.PrefixAbsorbed` | internal/controller/modelservice_controller.go:145-498 | running all steps after any prefix of them gives what running all steps gives |
| `ReconcilerLaws.RunSettles` | internal/controller/modelservice_controller.go:154-498 | a successful run leaves every child in a state that its own step no longer changes |
| `ReconcilerLaws.RunKeeps` | internal/controller/modelservice_controller.go:179-374 | a child that is there before and after a run keeps its uid, its reported status and every field that the operator does not manage |
| `ReconcilerLaws.RunStops` | internal/controller/modelservice_controller.go:160-483 | a run that fails stops at one step, which fails on the child as it was: earlier children are settled, later ones untouched |
| `ReconcilerLaws.FailureKeepsModels` | internal/controller/modelservice_controller.go:127-498 | a reconcile that fails changes no ModelService and no status |
| `Ownership.StepOwnership` | internal/controller/modelservice_controller.go:606-639 | a step deletes a child if and only if it is the step's own, unwanted and controlled by this uid; it reports a conflict if and only if another controller owns the child; a failed step writes nothing |
| `Ownership.ForeignUntouched` | internal/controller/modelservice_controller.go:368-372 | over any run of Deployment-backend steps, a child of a foreign controller is neither written nor deleted |
| `Ownership.DeletionsAreOwn` | internal/controller/modelservice_controller.go:716-750 | over any run, whatever disappears was controlled at that moment by the ModelService whose disabled feature removed it; a child without a controller is never deleted |
| `Ownership.NonInterference` | internal/controller/modelservice_controller.go:127-498 | under any interleaving of steps, the children of a ModelService end up as if only its own steps had run |
| `Ownership.InterleavingsAgree` | internal/controller/modelservice_controller.go:127-498 | any two interleavings of the same step sequences leave the same children |
| `Ownership.ReconcileLocal` | internal/controller/modelservice_controller.go:127-498 | a whole reconcile depends only on its own ModelService and the children under its key |
| `Ownership.ReconcilesCommute` | internal/controller/modelservice_controller.go:127-498 | reconciles of two ModelServices commute: outcomes, children and both objects agree up to uids and versions |
| `ExposedPath.ExposedPathAgrees` | internal/controller/modelservice_controller.go:1011-1071 | after a successful reconcile of an exposed service, from any cluster, the route has the host, prefix and gateway of the spec, the only path from it through the Service ends at the container port of the spec, the selectors are the template labels, and an isolated service's policy governs those pods |
| `ExposedPath.UnexposedIsClosed` | internal/controller/modelservice_controller.go:944-985 | without an enabled exposure section no controlled route remains and the policy of an isolated service admits nothing from another namespace, over any protocol and port |
| `ExposedPath.PolicyGoverns` | internal/controller/modelservice_controller.go:803-924 | after a successful reconcile, a service without a policy section or with it enabled has a policy over exactly its pods, which accept exactly TCP to the port of the spec from the own namespace unless the section forbids it and, if exposed, from the data-plane namespace that the spec names or the default one, and open exactly DNS unless forbidden; any other service has no policy of its own |
| `ExposedPath.RunEstablishes` | internal/controller/modelservice_controller.go:154-498 | a successful run leaves every wanted child with the wanted content, owner reference and labels, and no unwanted child under its control |
| `ExposedPath.GeneratedPath` | internal/controller/modelservice_controller.go:239-245 | route backend port, Service port, target port name and named container port form exactly one path |
| `ExposedPath.SelectorsNeverCross` | internal/controller/modelservice_controller.go:1655-1663 | no Deployment, Service, budget or policy selector of one ModelService matches pods of another |
| `Children.SelectorsSeparate` | internal/controller/modelservice_controller.go:1655-1663 | the labels of one name select the pods of another if and only if the names are equal |
| `NetworkPolicies.IngressMeaning` | internal/controller/modelservice_controller.go:1097-1149 | the ingress rules admit a connection if and only if it is TCP to the spec port from the own namespace when allowed or from the data-plane namespace when exposed |
| `NetworkPolicies.EgressMeaning` | internal/controller/modelservice_controller.go:1151-1193 | the egress rules admit exactly DNS over UDP and TCP to the cluster DNS pods, when allowed |
| `Conditions.TransitionHistory` | internal/controller/modelservice_controller.go:1286-1326 | after any history there is exactly one Available entry, other entries are untouched, and its transition time is that of the first update of the trailing block with equal status, reason and message |
| `Conditions.SetEstablishes` | internal/controller/modelservice_controller.go:1286-1326 | from any list with at most one Available entry, one update leaves exactly one with the update's status, and a later equal update changes nothing |
| `Conditions.OthersKept` | internal/controller/modelservice_controller.go:1301-1323 | other entries keep value and order in any list |
| `Conditions.StatusRecord.SetCondition` | internal/controller/modelservice_controller.go:1286-1326 | the loop replaces the first Available entry in place, keeping its transition time when nothing meaningful changes, or appends one |
| `Statuses.StatusAgreement` | internal/controller/modelservice_controller.go:1207-1260 | every status either backend publishes has phase Ready if and only if Available is True, Available False otherwise, and Ready implies max(replicas, 1) ready replicas |
| `Statuses.FailureDominates` | internal/controller/modelservice_kserve_controller.go:244-356 | the phase is Failed if and only if the model failed to load or KServe gives a failure reason, and Ready only if the model did not fail |
| `StatusMeaning.DeploymentStatusMeaning` | internal/controller/modelservice_controller.go:1197-1260 | phase Degraded, Ready and Provisioning each under exactly their condition on the reported deadline, ready and available replicas; replicas, endpoint, generation and the text of the condition as reported |
| `StatusMeaning.KServeStatusMeaning` | internal/controller/modelservice_kserve_controller.go:237-356 | phase Failed, Ready and Provisioning each under exactly their condition on the reported fields: either load-failure marker wins, then the first Ready entry; endpoint, replicas, generation and the text of the condition as reported |
| `StatusMeaning.ModelFailureIs` | internal/controller/modelservice_kserve_controller.go:368-432 | a load failure is found if and only if the target state or the transition status reports one, with the reason and the trimmed message of the last failure |
| `StatusMeaning.ReadyOfReports` | internal/controller/modelservice_kserve_controller.go:464-527 | the search returns exactly the texts of the first entry of type Ready |
| `StatusMeaning.KServeRefusal` | internal/controller/modelservice_kserve_controller.go:244-283 | a report is refused if and only if a field that is looked at has the wrong type |
| `StatusMeaning.FieldLeadsTo` | internal/controller/modelservice_kserve_controller.go:244-255 | a lookup finds a value if and only if the path leads to it through objects |
| `Statuses.PublishFixpoint` | internal/controller/modelservice_controller.go:1308-1319 | publishing the same reading at any later time yields the same status |
| `Statuses.PublishUntimed` | internal/controller/modelservice_controller.go:1286-1326 | the clock influences nothing but the transition time |
| `Statuses.DeploymentProgressDeadlineExceeded` | internal/controller/modelservice_controller.go:1330-1342 | the search finds the exceeded deadline if and only if such a condition is listed |
| `Statuses.DeriveFromDeployment` | internal/controller/modelservice_controller.go:1197-1260 | the field-by-field update publishes the reading of the Deployment over the previous status |
| `Statuses.InferenceServiceReadyCondition` | internal/controller/modelservice_kserve_controller.go:464-527 | the search returns the first Ready condition, none, or an error on a malformed report |
| `Statuses.DeriveFromInferenceService` | internal/controller/modelservice_kserve_controller.go:237-363 | the update publishes the reading of the InferenceService, or fails on a malformed report |
| `Reconciler.ModelServiceReconciler.Reconcile` | internal/controller/modelservice_controller.go:127-498 | the whole reconcile has the effect and outcome of `Reconciled` on the cluster |
| `Reconciler.ModelServiceReconciler.ReconcileWorkload` | internal/controller/modelservice_controller.go:154-437 | service account, Deployment and Service are settled in this order, stopping at the first failure |
| `Reconciler.ModelServiceReconciler.ReconcileFeatures` | internal/controller/modelservice_controller.go:438-483 | claim, budget, policy and route are settled in this order, stopping at the first failure |
| `Reconciler.ModelServiceReconciler.ReconcileServiceAccount` | internal/controller/modelservice_controller.go:502-551 | is the service-account step of the run |
| `Reconciler.ModelServiceReconciler.ReconcileDeployment` | internal/controller/modelservice_controller.go:172-377 | is the Deployment step of the run |
| `Reconciler.ModelServiceReconciler.ReconcileService` | internal/controller/modelservice_controller.go:390-429 | is the Service step of the run |
| `Reconciler.ModelServiceReconciler.ReconcilePersistentVolumeClaim` | internal/controller/modelservice_controller.go:590-695 | removes a controlled claim, rejects an unparsable size, or settles the claim |
| `Reconciler.ModelServiceReconciler.ReconcilePodDisruptionBudget` | internal/controller/modelservice_controller.go:699-799 | removes a controlled budget or settles it |
| `Reconciler.ModelServiceReconciler.ReconcileNetworkPolicy` | internal/controller/modelservice_controller.go:803-924 | removes a controlled policy or settles it |
| `Reconciler.ModelServiceReconciler.ReconcileHTTPRoute` | internal/controller/modelservice_controller.go:928-1095 | removes a controlled route, rejects a missing hostname, or settles the route |
| `Reconciler.ModelServiceReconciler.UpdateModelServiceStatus` | internal/controller/modelservice_controller.go:1197-1283 | publishes the Deployment's reading; an unchanged status is not written |
| `Reconciler.ModelServiceReconciler.UpdateStatusFromInferenceService` | internal/controller/modelservice_kserve_controller.go:237-363 | publishes the InferenceService's reading; a malformed report is an error without a write |
| `Reconciler.ModelServiceReconciler.WriteStatus` | internal/controller/modelservice_controller.go:1262-1271 | an unchanged status is not written, a changed one only over the version it was derived from |
| `Reconciler.ModelServiceReconciler.ReconcileKServe` | internal/controller/modelservice_kserve_controller.go:155-233 | applies the InferenceService and publishes its reading, and touches no other child |
| `Clusters.ApiServer.CreateOrUpdate` | internal/controller/modelservice_controller.go:172-377 | get, then create or update if changed; a controller conflict means no write; unmanaged fields are kept |
| `Clusters.ApiServer.DeleteIfControlled` | internal/controller/modelservice_controller.go:606-639 | deletes the child only if it is controlled by this uid |
| `Clusters.ApiServer.ApplyInferenceService` | internal/controller/modelservice_kserve_controller.go:166-198 | the forced apply settles the InferenceService of this ModelService |
| `Clusters.ApiServer.UpdateModelStatus` | internal/controller/modelservice_controller.go:1269-1271 | replaces only the status, only on the submitted version |
| `Handlers.ModelServiceStore.Get` | internal/api/kubernetes/modelservices.go:49-67 | the current object of that name in the store's namespace, or none |
| `Handlers.ModelServiceStore.Create` | internal/api/kubernetes/modelservices.go:69-88 | a new object with fresh uid and version, or nothing if the name is taken or the schema refuses |
| `Handlers.ModelServiceStore.Update` | internal/api/kubernetes/modelservices.go:90-109 | takes effect only on the submitted version; the generation counts spec changes and status is kept |
| `Handlers.ModelServiceStore.Delete` | internal/api/kubernetes/modelservices.go:111-143 | deletes only the exact uid and version that was inspected |
| `Handlers.MutationHandler.Load` | internal/api/handlers/update_modelservice.go:140-270 | reading, ownership guard, backend check and validation decide between an answer and a write |
| `Handlers.MutationHandler.PreparePut` | internal/api/handlers/update_modelservice.go:201-270 | the decision of a PUT, with the findings it is refused for |
| `Handlers.MutationHandler.PreparePatch` | internal/api/handlers/patch_modelservice.go:192-330 | the decision of a PATCH: the candidate is validated as the PUT body that describes it |
| `Handlers.MutationHandler.Commit` | internal/api/handlers/delete_modelservice.go:121-192 | the conditional write and its reply, conflict and not-found outcomes included |
| `Replies.RemovalReply` | internal/api/handlers/delete_modelservice.go:125-191 | a DELETE is confirmed if and only if the name is free afterwards, and conflicts if and only if an object is still there, unchanged |
| `Replies.WriteBackReply` | internal/api/handlers/update_modelservice.go:272-330 | a PUT or PATCH shows a response if and only if the server takes the write; the object then holds the stored candidate under its old identity and status, and the response describes it; it conflicts if and only if another version is there |
| `Replies.EarlyAnswers` | internal/api/handlers/patch_modelservice.go:122-190 | the exact conditions, in order, of the answers for a missing name, an empty PATCH, a missing object and a GitOps marker, and of going on to delete |
| `Replies.PutDecision` | internal/api/handlers/update_modelservice.go:201-270 | a PUT goes on to write if and only if it names no backend or the object's and is acceptable under it; otherwise it is refused with findings |
| `Replies.PatchDecision` | internal/api/handlers/patch_modelservice.go:192-329 | a PATCH goes on to write if and only if it keeps the backend, names no field that a KServe object lacks, and leaves an acceptable spec |
| `Replies.KServeRefusals` | internal/api/handlers/patch_modelservice.go:227-294 | a KServe object reports exactly those of image, port, exposure and storage that a PATCH names |
| `Replies.KServePatchStores` | internal/api/handlers/patch_modelservice.go:396-444 | an accepted PATCH of a KServe object stores the predictor and the replicas it names and leaves everything else as it was |
| `Replies.CreationReply` | internal/api/handlers/create_modelservice.go:161-251 | a create is shown if and only if the request is acceptable, the name free and the schema agrees; the exact conditions of the other replies; the new object is described by the response and carries no marker |
| `Replies.RequestReply` | internal/api/handlers/update_modelservice.go:140-330 | taken as a whole, a shown response describes the object as it then is, a confirmed DELETE leaves the name free, and every other reply means that nothing changed |
| `Handlers.ServeCreate` | internal/api/handlers/create_modelservice.go:161-251 | validates, builds and writes; findings, duplicates and refusals leave the server alone |
| `Handlers.FullPatchIsPut` | internal/api/handlers/patch_modelservice.go:396-599 | on an API-written Deployment object a PATCH naming every field is refused exactly like the PUT, with the same details, and otherwise stores the same public view |
| `TransformLaws.PatchIdempotent` | internal/api/handlers/patch_modelservice.go:396-532 | applying a PATCH twice is applying it once, on any object |
| `TransformLaws.PatchSetsNamedFields` | internal/api/handlers/patch_modelservice.go:396-532 | a PATCH gives every field it names the named value and leaves every other field as it was; only an exposed service without a prefix gets one, and gateway coordinates are filled in only where there were none |
| `TransformLaws.UntouchableSections` | internal/api/handlers/patch_modelservice.go:396-444 | PUT and PATCH leave resources, security, health, rollout, budget and policy of the candidate alone, and the stored object keeps their values if and only if no defaulted field in them is zero |
| `TransformLaws.DisabledBudgetIsLost` | api/v1alpha1/modelservice_types.go:162-176 | a disabled budget is enabled again by a PATCH of the replicas |
| `TransformLaws.DisjointPatchesCommute` | internal/api/handlers/patch_modelservice.go:396-444 | patches on disjoint top-level fields commute and equal the merged patch |
| `TransformLaws.PatchComposition` | internal/api/handlers/patch_modelservice.go:446-532 | two patches in sequence equal the merged patch if and only if no filled-in path prefix outlives the exposure |
| `TransformLaws.ExposeThenHide` | internal/api/handlers/patch_modelservice.go:479-482 | exposing and then hiding leaves a path prefix that the merged patch does not |
| `TransformLaws.StoredPatchComposition` | internal/api/handlers/patch_modelservice.go:446-532 | on stored objects two patches in sequence always equal the merged patch |
| `TransformLaws.CreateThenView` | internal/api/handlers/create_modelservice.go:276-355 | an acceptable create request is stored as a spec that validates, and the response shows exactly the normalized request |
| `TransformLaws.PutThenView` | internal/api/handlers/update_modelservice.go:333-395 | a PUT over any object shows what creating from the same request shows |
| `TransformLaws.GatewayCoordinates` | internal/api/handlers/create_modelservice.go:308-324 | an exposed service that is created or replaced is attached to the configured gateway, each coordinate at its own place |
| `TransformLaws.PatchThenView` | internal/api/handlers/patch_modelservice.go:534-599 | a PATCH whose candidate validates shows what creating from the candidate's projection shows |
| `TransformLaws.PutOwnProjection` | internal/api/handlers/patch_modelservice.go:534-599 | the projection of an API spec has no findings, and a PUT of it leaves the response and the projection unchanged |
| `Handlers.OwnProjectionIsWritten` | internal/api/handlers/update_modelservice.go:201-270 | a PUT of an object's own projection passes the backend check and the validator, goes on to write, and stores the same view |
| `Handlers.OwnProjectionRoundTrip` | internal/api/handlers/update_modelservice.go:140-330 | as a whole request on an untracked object it succeeds, and the response shows the view the object had |
| `TransformLaws.ApiSpecMeetsRules` | api/v1alpha1/modelservice_types.go:275-277 | every spec the API stores satisfies the cross-field rules |
| `Transforms.Candidate.ApplyUpdateRequest` | internal/api/handlers/update_modelservice.go:333-395 | the assignments of a PUT give the updated spec |
| `Transforms.Candidate.ApplyPatchRequest` | internal/api/handlers/patch_modelservice.go:396-444 | the assignments of a PATCH give the patched spec |
| `Transforms.Candidate.ApplyExposurePatch` | internal/api/handlers/patch_modelservice.go:446-503 | only the exposure changes, with prefix and gateway defaults filled in |
| `Transforms.Candidate.ApplyStoragePatch` | internal/api/handlers/patch_modelservice.go:505-532 | only the storage changes |
| `ModelServices.StoredFixpoint` | api/v1alpha1/modelservice_types.go:24-351 | a Go client writes a spec back unchanged if and only if no defaulted field is zero; storing is idempotent |
| `ModelServices.SchemaDefaults` | api/v1alpha1/modelservice_types.go:24-351 | the stored value of every field that a client leaves out of the sections it gives |
| `Validation.FindingsCorrect` | internal/api/validation/modelservice.go:16-402 | the validator reports nothing if and only if the request is acceptable |
| `Validation.ValidateRequest` | internal/api/validation/modelservice.go:16-87 | the appending sub-validators report exactly the findings, in order, and nothing exactly on acceptable requests |
| `Validation.ReportedFields` | internal/api/validation/modelservice.go:16-87 | the set of reported fields: the name and the replicas exactly when at fault, and those of the backend, or the backend itself when unknown |
| `Validation.DeploymentFields` | internal/api/validation/modelservice.go:107-153 | a Deployment request is reported under exactly the fields at fault |
| `Validation.ExposureFields` | internal/api/validation/modelservice.go:310-355 | hostname and path prefix are reported exactly when at fault, with the three tests of a hostname spelled out |
| `Validation.StorageFields` | internal/api/validation/modelservice.go:357-402 | size and mount path are reported exactly when at fault |
| `Validation.KServeFields` | internal/api/validation/modelservice.go:155-219 | a KServe request is reported under exactly the fields at fault |
| `Validation.PredictorFields` | internal/api/validation/modelservice.go:221-282 | each field of the predictor is reported exactly when at fault |
| `Validation.DetailList.ValidateName` | internal/api/validation/modelservice.go:404-431 | the loop appends one detail per label error, or one for a blank name, and keeps what was there |
| `Validation.DetailList.ValidateDeployment` | internal/api/validation/modelservice.go:107-153 | appends exactly the findings of a Deployment request |
| `Validation.DetailList.ValidateKServe` | internal/api/validation/modelservice.go:155-219 | appends exactly the findings of a KServe request |
| `Validation.DetailList.ValidatePredictor` | internal/api/validation/modelservice.go:221-282 | appends exactly the findings about the predictor |
| `Validation.DetailList.ValidateReplicas` | internal/api/validation/modelservice.go:89-105 | appends a finding exactly when the replicas are out of range |
| `Validation.DetailList.ValidateExposure` | internal/api/validation/modelservice.go:310-355 | appends exactly the findings about the exposure |
| `Validation.DetailList.ValidateStorage` | internal/api/validation/modelservice.go:357-402 | appends exactly the findings about the storage |
| `Validation.ValidS3StorageURI` | internal/api/validation/modelservice.go:284-308 | the splitter accepts exactly the locations of the form s3://bucket/object-path |
| `Validation.ValidS3Correct` | internal/api/validation/modelservice.go:284-308 | the splitter's test is the existence of a bucket without slash and a non-empty object path |
| `Validation.SchemaPatternAgreement` | api/v1alpha1/modelservice_types.go:266-266 | the schema pattern accepts what the validator accepts except paths that begin with a line feed |
| `Validation.LineFeedLocation` | api/v1alpha1/modelservice_types.go:266-266 | a concrete location that the validator accepts and the pattern does not |
| `Checksums.RoundTrip` | models/iris/train.py:213-216 | parsing the printed lines of any distinct, printable entries gives back exactly the mapping |
| `Checksums.ParseCorrect` | models/iris/verify.py:50-93 | the parser accepts a file if and only if all non-blank lines parse and no name repeats, and returns exactly the entries |
| `Checksums.AcceptedFile` | models/iris/verify.py:50-93 | an accepted file has only 64-digit lowercase hexadecimal digests, names without outer white space and no name twice |
| `Checksums.ReadChecksums` | models/iris/verify.py:50-93 | the loop with its early exits computes the parse |
| `Checksums.OnlyPrintableParses` | models/iris/train.py:213-216 | a printed line gives its entry back if and only if the name is non-empty, has no outer white space and no leading star |
| `Checksums.EmptyNameOnlyStars` | models/iris/verify.py:58-71 | a parsed name is empty if and only if only stars follow the digest |
| `Checksums.EmptyNameParses` | models/iris/verify.py:58-71 | a digest followed by a single star parses to an empty name |
| `Checksums.StarredName` | models/iris/verify.py:58-71 | a parsed name begins with a star if and only if stars, then white space, then a star follow the digest |
| `Checksums.StarredNameParses` | models/iris/verify.py:58-71 | a concrete line whose parsed name begins with a star |
| `Checksums.Reprint` | models/iris/verify.py:50-93 | the entries of an accepted file, printed and parsed again, give the same mapping if and only if no line has only stars, or stars, white space and a star, after its digest |
| `Checksums.VerifyChecksums` | models/iris/verify.py:120-146 | verification succeeds if and only if the file lists exactly the two required files with their actual digests |
| `Checksums.TrainThenVerify` | models/iris/train.py:213-216 | the file that training writes passes verification if and only if both files still have the digests they had then |

## Left out

- HTTP plumbing, JSON decoding, body limits, status codes, logging, authentication, metrics, configuration and mains.
- The list, status and read endpoints: they only read the store and use the response view that the laws are about.
- The library functions named above are uninterpreted; nothing is proved about what they accept.
- Full schema acceptance: the schema caps replicas and restricts the storage size more narrowly than the API's validator does, so `schemaOk` stays an input.
- Defaulting and immutable fields of the child resources on the API server, for example the Deployment selector and most of a claim's spec.
- ModelServices.StoredFixpoint: resource quantities are values, not text; a Go write prints them in canonical form and always emits the resources section, so the stored text, and with it the generation, can change where no value does.
- TransformLaws.UntouchableSections: about values of quantities as well, not about their text.
- Finalizers and deletion timestamps: a deletion removes the object at once.
- Clusters.ApiServer.ApplyInferenceService: an InferenceService with another controller is modelled as a refusal; what a forced server-side apply does there is decided by the API server, so no ownership theorem covers it.
- Ownership.StepOwnership: a Get-then-Delete of the operator is one step; the code's delete carries no precondition, so interleavings inside it are not covered.
- Ownership.ForeignUntouched: a controller with the same group, kind and name but another uid counts as the ModelService's own earlier incarnation, as controller-runtime decides.
- Owner references other than the controller reference.
- Acceptance.ApiImpliesController: external writers may delete objects and edit metadata there, but not write specs, since they bypass the validator.
- External writers that write the status of a ModelService or the content of its children while a run is under way; drift is covered as an arbitrary starting cluster.
- That the pre-stop delay stays below the grace period and that surge and unavailability are not both zero: the code enforces neither.
- Go's 32-bit integers are mathematical integers; the code does no arithmetic on them.
- Decoding and newline translation when the checksum file is read; SHA-256; the manifest checks; model training.
- The breast-cancer model's checksum code, a twin of the iris one.
