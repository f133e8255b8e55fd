# Verified model of the kube-state-metrics service provider

This project models, in Dafny, how the service provider behaves against an
environment in which any API call may fail, a failed write may have taken effect
all the same, users and other controllers act between any two calls, and the
process may die at any point. It has four parts.

**Deletion in the generic reconciler** (`DeletionProtocol`, `DeletionSafety`,
`DeletionLiveness`, `SPReconcilers`). A small-step machine has one step for every
API call of a pass and for every act of the environment. `SPReconciler` is the Go
code, method by method; its ghost `trace` and `events` are a run of that machine,
so that what is proved about runs is proved about the code. The centre is the invariant that
makes it safe for a restarted pass to read "the domain has been cleaned" off the
state of the AccessRequests. From it follow that domain objects never leak, that
access is never renewed during teardown, and that deletion terminates once faults
stop.

**The KubeStateMetrics controller** (`Mcp`, `McpHistory`, `KsmLog`, `KsmRuns`,
`KsmController`). The managed control plane is a map from (kind, namespace, name)
to objects. `Desired` says what fields each object should have; `Written` and
`Erased` say what the first n calls of a deploy or a cleanup make of the managed
objects, and `Replay` what a history of complete and partial passes makes of them.
The class `KubeStateMetricsReconciler` is the code; every act goes through
`Record`, which demands the rules of `KsmLog`, so that every log is lawful at
every entry and the lemmas about logs hold of every run. `KsmRuns` shows that every
point of such a run, crashes included, is the end of a history of passes, so that
the lemmas about histories hold there too.

**The configuration fingerprint** (`Text`, `Fingerprint`, `Detection`). The digest
is a parameter without any assumed property; the results are about the text that
is fed to it: the range loop's order does not show, a parser undoes the printing
of single-line values, every edit of a single key shows, and it is stated exactly
which data the text identifies.

**Status, snapshots and the provider config** (`StatusModel`, `ApiTypes`,
`ConfigPropagation`). The status helpers are proved on values and, in place, on the
heap of Go's pointers, slices and maps, where a deep copy shares no cell with its
original. The link from `PCReconciler` to the cached config is a queue whose
deliveries are proved to follow the reads of the stored config under every
interleaving, with the exact condition under which the cache is then right.

## What the environment is taken to do

- Passes for one object never overlap, and a read returns the stored state.
- AccessRequests are deleted only by `ReconcileDelete`, which ends without error
  and requeue only when they are gone. The domain service's `Delete` ends so only
  when no domain object is left. Nobody else removes the controller's finalizer,
  and none is added to an object that is being deleted.
- On the control plane only the controller writes the managed fields of its six
  kinds of objects, namespaces are not deleted, one KubeStateMetrics object deploys
  to a control plane, and deletes take effect at once.
- The controller is the only writer of the status. A status patch replaces field by
  field what differs from its base, as a merge patch does (section 2 of RFC 7396).
- Clocks, messages and the replica counts of the Deployment are arbitrary inputs.

## Where the code differs from its documentation

- The repository's README says that pods restart when the data of the ConfigMap
  changes. `SeveralEditsCanBeMissed` shows two ConfigMaps with the same keys and
  the same fingerprint. `EditRollsOut` proves the promise for edits of a single
  key, up to collisions of the digest, and `ExactDetection` says which data is told
  apart from all other data.

## What else the proofs show about the code

- When access to the control plane fails or has to be waited for, `handleDelete`
  skips the cleanup and removes the finalizer all the same. `KsmRuns.DropIsClean`
  says exactly when a dropped finalizer leaves nothing behind, and
  `KsmRuns.DropWithoutAccessLeaks` gives a log after which a complete deployment
  stays. The generic reconciler has no such gap (`DeletionSafety.NoLeak`).
- A ProviderConfig that could not be read, for whatever reason, clears the cached
  config as if it did not exist (`FailedReadClearsCache`); `CacheIsRight` says
  exactly when the cache is right.
- After a namespace change the objects in the old namespace stay, and no cleanup of
  another namespace removes them (`LeftoversAreExact`).

## Model

| member | source | states |
|---|---|---|
| DeletionSafety.StepKeeps | pkg/runtime/spreconciler.go:171-354 | every call, whatever its outcome, every outside act, config delivery and restart preserves the invariant that ties domain objects, AccessRequests, finalizer and the position of the running pass together |
| DeletionSafety.RunKeeps | pkg/runtime/spreconciler.go:171-354 | the invariant holds at every point of every run from a state without access and domain objects |
| DeletionSafety.NoLeak | pkg/runtime/spreconciler.go:222-266 | while a domain object exists, the finalizer is persisted and every required AccessRequest is present and not deleting |
| DeletionSafety.SkippingDomainDeleteIsSafe | pkg/runtime/spreconciler.go:227-249 | whenever a required AccessRequest is missing or deleting, or the pass has reached the withdrawal of access, the domain is empty, so that skipping the domain service's Delete loses nothing |
| DeletionSafety.FinalizerGoesLast | pkg/runtime/spreconciler.go:250-265 | the only step by which the finalizer goes is the last update of delete, with no domain object and no AccessRequest before or after it |
| DeletionSafety.TornDownStays | pkg/runtime/spreconciler.go:288-309 | no step leaves the teardown of a terminating object once one required AccessRequest is missing or deleting |
| DeletionSafety.AccessIsNotRenewed | pkg/runtime/spreconciler.go:227-241 | from then on no pass, restarted or not, reaches the calls of clusters again, also when only one of the two requests has gone |
| DeletionSafety.ForeignFinalizersStay | pkg/runtime/spreconciler.go:259-263 | no call of the reconciler adds or takes off a finalizer of somebody else, and the object goes away only when it is being deleted and nobody else holds it |
| DeletionSafety.DomainFills | pkg/runtime/spreconciler.go:270-286 | a run in which domain objects come about, so that the results about them speak of something |
| DeletionLiveness.StepDescends | pkg/runtime/spreconciler.go:222-266 | every step that is no fault lowers a lexicographic measure of stale pass, domain objects, access stages and remaining calls |
| DeletionLiveness.DeletionTerminates | pkg/runtime/spreconciler.go:171-266 | in every infinite run with finitely many faults and a config in the cache, the finalizer of an object being deleted is dropped at some later point, with nothing left behind |
| DeletionLiveness.CanProceed | pkg/runtime/spreconciler.go:222-266 | a teardown pass over the stored version always has a next call that is no fault, so the hypothesis of termination can be met |
| DeletionLiveness.FreshStays | pkg/runtime/spreconciler.go:222-266 | steps that are no fault keep the teardown pass on the stored version of the object, also after its status was patched |
| SPReconcilers.SPReconciler.constructor | pkg/runtime/spreconciler.go:128-132 | a fresh process starts a run of the protocol, without a cached config |
| SPReconcilers.SPReconciler.Call | pkg/runtime/spreconciler.go:171-354 | a call, with anything that happens before it, extends the run by the step and the event the protocol has for it |
| SPReconcilers.SPReconciler.Restart | pkg/runtime/spreconciler.go:171-208 | a restart forgets the pass and the cached config and leaves the stored state |
| SPReconcilers.SPReconciler.Reconcile | pkg/runtime/spreconciler.go:171-208 | without an object the API server had none; otherwise the pass has loaded the object and the cached config it reports; an error was reported by a call of this pass or there is no config; a call that asks to come back decides the result; a pass that none of its calls asks to come back returns the poll interval, and then it has dropped the finalizer with nothing left behind, or has read every cluster and secret and the domain service's CreateOrUpdate is done; a status is tried to publish |
| SPReconcilers.SPReconciler.UpdateStatus | pkg/runtime/spreconciler.go:210-218 | publishing the status never stops a pass; a successful patch refreshes the object the teardown goes on with |
| SPReconcilers.SPReconciler.Delete | pkg/runtime/spreconciler.go:222-266 | a delete that ends without error and requeue leaves no finalizer, no domain object and no AccessRequest; an error or a requeue is that of a call |
| SPReconcilers.SPReconciler.DeleteDomain | pkg/runtime/spreconciler.go:243-249 | the domain service's Delete is only called while every required AccessRequest is live |
| SPReconcilers.SPReconciler.RemoveFinalizer | pkg/runtime/spreconciler.go:259-265 | a successful removal finds neither domain objects nor AccessRequests |
| SPReconcilers.SPReconciler.CreateOrUpdate | pkg/runtime/spreconciler.go:270-286 | when it is done, access was renewed, every cluster and secret was read and the domain service's CreateOrUpdate was called and is done; otherwise the outcome is that of a call |
| SPReconcilers.SPReconciler.PersistFinalizer | pkg/runtime/spreconciler.go:270-276 | access is only asked for on behalf of an object that is stored with the finalizer |
| SPReconcilers.SPReconciler.AreAccessRequestsInDeletion | pkg/runtime/spreconciler.go:288-309 | true without error implies that the domain is empty; false implies that all required requests are live |
| SPReconcilers.SPReconciler.GetClusters | pkg/runtime/spreconciler.go:311-353 | done means that renewal, clusters and secrets are each done, in source order; any other outcome ends the pass or goes to the status |
| McpHistory.WrittenAt | internal/controller/kubestatemetrics_controller.go:256-474 | key by key: after n writes the first n objects of the creation order have their desired fields and every other managed object is as before |
| McpHistory.ErasedAt | internal/controller/kubestatemetrics_controller.go:491-513 | key by key: after n deletes exactly the first n objects of the deletion order are gone |
| McpHistory.SelfStabilising | internal/controller/kubestatemetrics_controller.go:241-489 | after any history, one complete deploy puts every managed object of the target namespace, and both cluster-scoped ones, at their desired fields and touches no other |
| McpHistory.PartialDeployLeavesNoTrace | internal/controller/kubestatemetrics_controller.go:256-474 | a complete deploy after one that failed anywhere, with any spec and configuration for the same namespace, ends as if that one had not been |
| McpHistory.RetryCompletesCleanup | internal/controller/kubestatemetrics_controller.go:506-510 | a complete cleanup after a partial one ends as if it had been the only one |
| McpHistory.CreationOrderIsSound | internal/controller/kubestatemetrics_controller.go:256-474 | whatever the next object in creation order refers to has been written before it |
| McpHistory.DeletionOrderIsSound | internal/controller/kubestatemetrics_controller.go:497-510 | whatever refers to the next object in deletion order has been deleted before it |
| McpHistory.HistoriesKeepReferences | internal/controller/kubestatemetrics_controller.go:241-513 | no history of complete or partial deploys and cleanups in any namespaces leaves a Service or budget without Deployment, a Deployment without ServiceAccount, or a binding without its role and subject |
| McpHistory.LeftoversAreExact | internal/controller/kubestatemetrics_controller.go:491-513 | after complete deploys into any namespaces and a complete cleanup of one, precisely the ServiceAccount, Deployment, Service and budget of every other namespace remain |
| McpHistory.LeftoversAreBounded | internal/controller/kubestatemetrics_controller.go:491-513 | with failed passes on the way, what remains lies in namespaces some deploy had reached, and nothing remains in the one cleaned last |
| McpHistory.CleanupUndoesDeploy | internal/controller/kubestatemetrics_controller.go:241-513 | with an unchanged namespace a cleanup restores the managed objects from before any complete or partial deploy |
| Mcp.BuildLabels | internal/controller/kubestatemetrics_controller.go:556-571 | the code's backward search and branches compute the labels of LabelsFor |
| Mcp.LabelsSay | internal/controller/kubestatemetrics_controller.go:556-571 | the version label is what follows the last colon of the image, or unknown; name and component are fixed |
| Mcp.BuildArgs | internal/controller/kubestatemetrics_controller.go:326-340 | the prepending branches compute derived flags before the user's untouched arguments |
| Mcp.FlagsSay | internal/controller/kubestatemetrics_controller.go:326-340 | the standard flag first if its key is present, else the only-flag if just the other key is, then the custom-resource flag |
| Mcp.BuildNodeSelector | internal/controller/kubestatemetrics_controller.go:384-396 | the range loop computes the selector in any iteration order |
| Mcp.NodeSelectorSays | internal/controller/kubestatemetrics_controller.go:384-396 | a user's entry wins over the default, the default stands otherwise, and there are no other entries |
| Mcp.BuildDeployment | internal/controller/kubestatemetrics_controller.go:315-439 | the mutate closure computes the desired Deployment of the spec and the configuration read |
| Mcp.DeploymentSays | internal/controller/kubestatemetrics_controller.go:315-439 | the image, arguments, resources, secrets and replicas (one unless set) are those of the spec, the Deployment selects its own pods, and the config volume and annotation are there exactly with a ConfigMap and a fingerprint |
| Mcp.ExposureSays | internal/controller/kubestatemetrics_controller.go:443-474 | the Service is headless, the budget keeps one pod, and both select the pods of the Deployment |
| Mcp.AccessSays | internal/controller/kubestatemetrics_controller.go:264-298 | the binding gives the role to the account in the namespace that the spec names, or in observability |
| Mcp.RolloutIsExact | internal/controller/kubestatemetrics_controller.go:326-437 | at a fixed spec the pod template differs exactly when the ConfigMap's existence, the presence of a special key or the fingerprint differs |
| Mcp.FlagsIdentifyKeys | internal/controller/kubestatemetrics_controller.go:326-340 | whatever the user's arguments are, two argument lists are equal exactly when the same special keys are present |
| Mcp.EditRollsOut | internal/controller/kubestatemetrics_controller.go:417-421 | a real change of one ConfigMap entry changes the pod template unless it exhibits a digest collision |
| KsmLog.ReadyMeansDeployed | internal/controller/kubestatemetrics_controller.go:120-165 | whenever the stored status is Ready with observed generation g, it was so from the start, or an earlier pass fetched that object at generation g, read the stored ConfigMap of its namespace, brought every managed object to the fields desired for that spec and that ConfigMap, and then saw all of a positive number of replicas ready |
| KsmLog.PublishedConfigurationAgrees | internal/controller/kubestatemetrics_controller.go:301-309 | whenever a pass publishes what it found, the hash and source in the stored status and the annotation of the pods are those of the ConfigMap that was stored when the pass read it |
| KsmLog.ReadWasStored | internal/controller/kubestatemetrics_controller.go:535-554 | what a pass knows as its configuration was stored, when it read it, in the target namespace of the object it had fetched |
| KsmLog.FinalizerGoesLast | internal/controller/kubestatemetrics_controller.go:195-238 | whenever the finalizer goes, the pass that took it off had asked for access, withdrawn it and seen no delete fail, and if it had obtained access none of the six objects of its namespace is left |
| KsmLog.WritesFollowFinalizer | internal/controller/kubestatemetrics_controller.go:111-143 | every write belongs to a pass that fetched a live object and obtained access, and happens while the finalizer is persisted; a rule that Record demands of every write, read back for runs |
| KsmLog.ReferencesNeverDangle | internal/controller/kubestatemetrics_controller.go:256-510 | at no point of a run does a managed object refer to a missing object or namespace; a rule that Record demands of every act, read back for runs |
| KsmLog.PassHistory | internal/controller/kubestatemetrics_controller.go:93-238 | the object a pass works on, the objects it found, the configuration it read, and whether it asked for access, obtained it, withdrew it, failed to delete or was told of an error are what the log holds since that pass started |
| KsmRuns.EveryPointIsAHistory | internal/controller/kubestatemetrics_controller.go:93-513 | at every point of every run, between any two calls and after any crash, the managed objects are what a history of complete or partial deploys and cleanups makes of the initial ones, each carried out by a pass that had fetched the object it serves and, from the Deployment on, had read the stored ConfigMap it deploys |
| KsmRuns.NothingMoves | internal/controller/kubestatemetrics_controller.go:93-513 | entries other than writes and deletes move no managed object; a rule that Record demands of every act, read back for runs |
| KsmRuns.ConfigMapsAreTheUsers | internal/controller/kubestatemetrics_controller.go:491-554 | over any stretch of a run in which nobody else acts, every ConfigMap stays exactly as it is |
| KsmRuns.DropIsClean | internal/controller/kubestatemetrics_controller.go:209-237 | on every run, when a pass drops the finalizer none of the six objects of the namespace named by the fetched spec, or of observability, is left if and only if it had obtained access or there were none |
| KsmRuns.ForeignFinalizersStay | internal/controller/kubestatemetrics_controller.go:231-235 | no act of the controller adds or takes off a finalizer of somebody else or changes the spec, and the object goes away only when it is being deleted and nobody else holds it |
| KsmRuns.StatusesStayCoherent | internal/controller/kubestatemetrics_controller.go:119-154 | if the first status is coherent, every stored status of a run is: at most one Ready condition, phase Ready exactly when it is true, observed generations equal and not ahead of the object |
| KsmRuns.OtherConditionsStay | internal/controller/kubestatemetrics_controller.go:119-154 | as long as the object is there, its conditions of other kinds stay as they are |
| KsmRuns.PublishedReadinessWasSeen | internal/controller/kubestatemetrics_controller.go:145-157 | what a pass publishes says Ready, in phase and condition and for the fetched generation, exactly if the pass saw all of a positive number of replicas ready |
| KsmRuns.WrittenStatusSaysWhy | internal/controller/kubestatemetrics_controller.go:123-140 | any other stored status says Terminating for an object fetched as being deleted, and else Progressing with a false Ready condition |
| KsmRuns.ObtainedIsGranted | internal/controller/kubestatemetrics_controller.go:171-190 | a cluster is only read after the access library has, in the same pass, replied without error and with nothing to wait for |
| KsmRuns.ReadIsTheUsersConfigMap | internal/controller/kubestatemetrics_controller.go:538-554 | what a pass reads is the data of kube-state-metrics-config in the namespace named by the fetched spec, or in observability; nothing if there is no such ConfigMap |
| KsmRuns.DropWithoutAccessLeaks | internal/controller/kubestatemetrics_controller.go:210-213 | a lawful log whose last pass gets no access, drops the finalizer and leaves a complete deployment |
| KsmRuns.NothingStrays | internal/controller/kubestatemetrics_controller.go:244-248 | from a control plane without managed objects, every namespaced one at any point lies in the namespace named by a spec that a pass had fetched, or in observability if that spec names none |
| KsmLog.LawfulPrefix | internal/controller/kubestatemetrics_controller.go:93-238 | a run that is cut anywhere by a crash has been lawful until then |
| KsmController.DropIsCleanIffAccessible | internal/controller/kubestatemetrics_controller.go:209-237 | of the function that HandleDelete follows: a deletion that drops the finalizer leaves none of the managed objects if and only if it got access or there were none |
| KsmController.CleanupErrorBlocks | internal/controller/kubestatemetrics_controller.go:214-220 | a failed cleanup keeps the finalizer, and the next one that gets through erases the rest |
| KsmController.KubeStateMetricsReconciler.constructor | internal/controller/kubestatemetrics_controller.go:60-71 | a fresh process, next to any object and a control plane without dangling references, starts a lawful log |
| KsmController.KubeStateMetricsReconciler.Record | internal/controller/kubestatemetrics_controller.go:93-513 | an act that obeys the rules extends the lawful log by exactly one entry |
| KsmController.KubeStateMetricsReconciler.Reconcile | internal/controller/kubestatemetrics_controller.go:93-166 | without an object there was none, or the fetch failed; otherwise the pass fetched the object it reports, and its result has a reason in the log: an error was reported by a call or there is no image, coming back follows a complete deploy published for that generation, that ConfigMap and the readiness seen, or an answer of the access library, and an end means that our finalizer does not hold the deleted object; on the control plane it is a deploy or cleanup that got somewhere |
| KsmController.KubeStateMetricsReconciler.SetupClusterAccess | internal/controller/kubestatemetrics_controller.go:168-193 | an error of the library is an error, a reply that asks to come back is waited for, a cluster that cannot be read is waited for half a minute, and only a final reply and a read cluster are access; nothing on the control plane changes |
| KsmController.KubeStateMetricsReconciler.HandleDelete | internal/controller/kubestatemetrics_controller.go:195-238 | managed objects, result and fate of the finalizer are those of DeletePass for the replies that the log of the pass holds, and a terminating status is tried to store |
| KsmController.KubeStateMetricsReconciler.Deploy | internal/controller/kubestatemetrics_controller.go:241-489 | however it ends, the managed objects are a prefix of the creation order at desired fields over what was there, from the Deployment on for the stored ConfigMap read during the call; without error all of them, with status and annotation in agreement; ready exactly as observed, and only on evidence; only objects in the namespace named by the spec, or in observability, and cluster-scoped ones are touched, and without error all six are there |
| KsmController.KubeStateMetricsReconciler.CreateOrUpdate | internal/controller/kubestatemetrics_controller.go:264-298 | sets the managed fields of one object or, failing, may have done so |
| KsmController.KubeStateMetricsReconciler.CreateNamespace | internal/controller/kubestatemetrics_controller.go:256-262 | an existing namespace is left alone; success means that it exists |
| KsmController.KubeStateMetricsReconciler.ResolveConfig | internal/controller/kubestatemetrics_controller.go:535-554 | the ConfigMap kube-state-metrics-config stored in the namespace named by the fetched spec, or in observability, recorded as read, with its fingerprint and source; nothing when absent, an error when the read fails for another reason |
| KsmController.KubeStateMetricsReconciler.WriteNext | internal/controller/kubestatemetrics_controller.go:256-474 | a write in its turn takes the managed objects one step along the plan, or fails with or without having done so |
| KsmController.KubeStateMetricsReconciler.ObserveDeployment | internal/controller/kubestatemetrics_controller.go:476-488 | ready means that the two counts were equal and positive after all writes, and is recorded as evidence |
| KsmController.KubeStateMetricsReconciler.Cleanup | internal/controller/kubestatemetrics_controller.go:491-513 | erases a prefix of the deletion order, all of it when no delete fails; only the namespace named by the spec, or observability, and cluster-scoped objects are touched, and without error none of the six is left |
| KsmController.KubeStateMetricsReconciler.Publish | internal/controller/kubestatemetrics_controller.go:145-160 | a published status says, in phase and in its Ready condition, exactly whether the Deployment was seen ready, for the generation of the pass; the conditions of other kinds are those of the snapshot |
| KsmController.KubeStateMetricsReconciler.ReportError | internal/controller/kubestatemetrics_controller.go:126-129 | a failure is tried to store with its reason, as Progressing with a false Ready condition; a failing write is only noted |
| KsmController.KubeStateMetricsReconciler.UpdateStatus | internal/controller/kubestatemetrics_controller.go:202-207 | the terminating status is tried to store at the fetched version; a failure is only noted |
| KsmController.KubeStateMetricsReconciler.PatchStatus | internal/controller/kubestatemetrics_controller.go:153-157 | patching against the snapshot stores exactly the new status |
| KsmController.KubeStateMetricsReconciler.Run | internal/controller/kubestatemetrics_controller.go:93-238 | any number of passes, each cut at an arbitrary point, with arbitrary acts elsewhere, keeps every rule at every entry |
| Text.SplitLast | internal/controller/kubestatemetrics_controller.go:576-588 | the parts rejoin to the input around the last occurrence of the separator, or there is none |
| Text.CutIsUnique | internal/controller/kubestatemetrics_controller.go:576-588 | at most one result meets that contract |
| Text.FirstDifferenceDecides | internal/controller/kubestatemetrics_controller.go:526 | keys are ordered by their first difference, and a prefix comes first |
| Fingerprint.EnumerationIsUnique | internal/controller/kubestatemetrics_controller.go:521-526 | a key set has exactly one increasing enumeration |
| Fingerprint.ComputeConfigMapHash | internal/controller/kubestatemetrics_controller.go:515-533 | collecting in any order, sorting and printing compute one function of the map: the digest of the lines in increasing key order, and nothing for an empty map |
| Fingerprint.SortStrings | internal/controller/kubestatemetrics_controller.go:526 | the result is increasing and holds the same keys |
| Fingerprint.RoundTrip | internal/controller/kubestatemetrics_controller.go:528-531 | the parser recovers every map whose keys hold no equals sign or newline and whose values hold no newline |
| Fingerprint.PrintedIsInjectiveOnSingleLines | internal/controller/kubestatemetrics_controller.go:528-531 | on those maps equal texts mean equal maps |
| Fingerprint.ChangedValueIsSeen | internal/controller/kubestatemetrics_controller.go:528-531 | changing one value, multi-line or not, changes the text |
| Fingerprint.AddedKeyLengthens | internal/controller/kubestatemetrics_controller.go:528-531 | adding a key adds its length, the value's and two to the text |
| Fingerprint.EditIsSeen | internal/controller/kubestatemetrics_controller.go:515-533 | every real change, addition or removal of one key changes the text, for arbitrary keys and values and down to the empty map |
| Fingerprint.UnseenEditIsACollision | internal/controller/kubestatemetrics_controller.go:515-533 | a single-key edit that keeps the fingerprint changes nothing or exhibits two texts with one digest |
| Fingerprint.MovedLineIsMissed | internal/controller/kubestatemetrics_controller.go:528-531 | moving a line that reads like the next entry from one value to the next is never seen |
| Fingerprint.SeveralEditsCanBeMissed | internal/controller/kubestatemetrics_controller.go:528-531 | two different ConfigMaps with the same keys print the same text |
| Detection.ExactDetection | internal/controller/kubestatemetrics_controller.go:515-533 | among clean-keyed data, the text identifies the data if and only if there is at most one entry, none of whose later lines reads like an entry with a greater key |
| StatusModel.SetConditionFindsIt | pkg/runtime/status.go:20-56 | afterwards the first condition of the kind has the new values, there is no second one if there was none, and all others are untouched in order |
| StatusModel.ApplyKeepsCoherent | pkg/runtime/status.go:20-56 | each helper call and each generation bump keeps the status coherent and leaves other conditions alone |
| StatusModel.StatusStaysCoherent | pkg/runtime/status.go:20-56 | so does any sequence of them: at most one Ready condition, phase Ready exactly when it is true, observed generations equal and never ahead |
| StatusModel.HelpersSay | pkg/runtime/status.go:20-56 | each helper leaves a first Ready condition with its status, reason and the generation of the object, its phase, and everything else as it was |
| StatusModel.TransitionMovesWithStatus | pkg/runtime/status.go:20-56 | the transition time of a condition moves exactly when its status does |
| ApiTypes.SetStatusCondition | pkg/runtime/status.go:21-27 | overwrites in place or appends to a new backing array, as the value function says |
| ApiTypes.StatusProgressing | pkg/runtime/status.go:20-30 | in place it makes of the status what the value function Progressing says, reaching no cell but the status and its condition list |
| ApiTypes.StatusReady | pkg/runtime/status.go:33-43 | likewise for Ready |
| ApiTypes.StatusTerminating | pkg/runtime/status.go:46-56 | likewise for Terminating |
| ApiTypes.KubeStateMetricsSpec.DeepCopyInto | api/v1alpha1/zz_generated.deepcopy.go:73-107 | the copy is equal, nil kept apart from empty, every cell behind its pointers is new and the original is unchanged |
| ApiTypes.KubeStateMetricsStatus.DeepCopyInto | api/v1alpha1/zz_generated.deepcopy.go:120-129 | the same for the status and its conditions |
| ApiTypes.ObjectMeta.DeepCopyInto | api/v1alpha1/zz_generated.deepcopy.go:14-18 | the same for the metadata with its finalizers, labels, annotations and owner references |
| ApiTypes.KubeStateMetrics.DeepCopyInto | api/v1alpha1/zz_generated.deepcopy.go:14-20 | the same for the object with its metadata, spec and status |
| ApiTypes.DeepCopy | api/v1alpha1/zz_generated.deepcopy.go:23-30 | nil for nil, and else an equal object none of whose cells existed before |
| ApiTypes.AlikeSpecsDeployAlike | internal/controller/kubestatemetrics_controller.go:315-439 | specs that differ only in nil against empty slices and maps make the controller deploy the same objects |
| ApiTypes.SnapshotSurvives | internal/controller/kubestatemetrics_controller.go:119-154 | the copy taken as patch base keeps its as-read value through any sequence of status helpers, while the object itself follows them |
| ApiTypes.CopyMap | api/v1alpha1/zz_generated.deepcopy.go:95-101 | entry by entry in any order gives an equal map in a new cell |
| ApiTypes.ProviderConfig.DeepCopy | api/v1alpha1/zz_generated.deepcopy.go:142-158 | new cells that hold the same metadata and conditions, and mean the same to the reconcilers, the default poll interval of one minute included |
| ConfigPropagation.LinkStaysFaithful | pkg/runtime/pcreconciler.go:63-77 | under every interleaving of reads, sends and receives nothing is lost, duplicated or reordered |
| ConfigPropagation.CacheFollowsObservations | pkg/runtime/spreconciler.go:364-373 | delivered, queued and pending events are the observations in order; with nothing on its way the cache is the latest one |
| ConfigPropagation.CacheIsRight | pkg/runtime/pcreconciler.go:63-77 | under every interleaving of edits, reads, sends and receives, with nothing on its way, the cache is the config stored at the last read if and only if that read did not fail or there was no live config; it holds a config exactly if that read found it and it was not being deleted |
| ConfigPropagation.FailedReadClearsCache | pkg/runtime/pcreconciler.go:66-69 | one failed read empties the cache of a config that is stored and live all the time |
| ConfigPropagation.Controllers.OnProviderUpdate | pkg/runtime/spreconciler.go:364-387 | one event is consumed and cached; a successful listing enqueues every listed object in order, a failed one none |
| ConfigPropagation.Controllers.ReconcileProviderConfig | pkg/runtime/pcreconciler.go:63-77 | with edits and deliveries at any moment, exactly one event is sent, last in the queue; it holds a config exactly if the read did not fail and found that config without a deletion timestamp; only a failed read is an error |
| ConfigPropagation.Controllers.Drain | pkg/runtime/spreconciler.go:364-387 | once the channel is drained, the cache holds a config exactly if the last read did not fail and found that config without a deletion timestamp |

## Left out

- Stale reads: controller-runtime's client cache may lag behind the API server; here every read returns what is stored. The generic invariant depends on this for the AccessRequests.
- McpHistory.PartialDeployLeavesNoTrace: is about the same target namespace; after a namespace change the partial deploy does leave objects behind, which LeftoversAreBounded accounts for.
- The passes of KsmController hold the fetched object as a value; pointer aliasing between it and its patch base is treated in ApiTypes, on the heap, and not again in the passes.
- SPReconcilers.SPReconciler.UpdateStatus: does not say which status is published, because the domain service decides that; the statuses set in memory when cluster setup fails during deletion are never written by the code and are not modelled.
- ConfigPropagation.Controllers.ReconcileProviderConfig: a send that blocks on the unbuffered channel is an event in the queue; that the sender waits is not modelled.
- ApiTypes.KubeStateMetricsSpec.DeepCopyInto: the graphs behind Resources and SecurityContext are cells with serialised contents; how the Kubernetes library copies their inner maps and pointers is not part of this model.
- ApiTypes.ObjectMeta.DeepCopyInto: leaves out creation and deletion times, managed fields and the pointer fields of owner references, which the Kubernetes library copies.
- KsmRuns.DropWithoutAccessLeaks: gives a log that obeys every rule of the controller, not an execution; the nondeterminism of the methods cannot be steered from a contract.
- Fields that never depend on the spec or the configuration: probes, ports, container security, update strategy, grace period. Resources and the pod security context are carried in serialised form.
- Several KubeStateMetrics objects that deploy to one control plane and share its cluster-scoped objects.
- Deletion propagation, API server defaulting and pod scheduling; Ready says nothing about the number of replicas in the spec, since the code compares two status counts.
- Stability of the last transition time of conditions, which a successful pass moves twice.
- SHA-256 and hex encoding, the algorithm of the library's sort, and encoding of strings as bytes: text is ordered and searched by character.
- Secret keys of AccessRequests, the permission tables, the list types' deep copies, the logging-only provider config controller, and the wiring of managers, flags and certificates.
