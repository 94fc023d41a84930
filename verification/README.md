# The vertical pod autoscaler operator, as a model with proofs

The operator keeps a vertical pod autoscaler running in an OpenShift cluster. It reads one `VerticalPodAutoscalerController`
resource, brings ten objects (three deployments, a service, a config map and five network policies) to what the resource,
its own configuration and the cluster's TLS profile ask for, creates a default resource once when it is first installed, and
can report its state in a `ClusterOperator`.

All parts share one abstract API server (`ApiServer.dfy`): a store of objects, a log of the writes carried out, and a fate
for every call. A call is served, refused, or lost, which means that it is carried out and its answer never arrives. The
clock is another such oracle. Code that changes things step by step is a method of a class with the same branches; each
method is proved equal to a function of the state before it, and the theorems are about these functions over every input,
every run and every interleaving.

| file | part of the operator |
|---|---|
| `Reconcile.dfy` | one reconcile attempt and its create and update helpers |
| `Walks.dfy`, `ManagedObjects.dfy`, `ReconcileRuns.dfy` | what attempts and runs of attempts achieve and write |
| `Asked.dfy` | what is asked of each object, spelled out, and that this is what is compared, left behind and written |
| `Failures.dfy` | exactly when an attempt fails |
| `Frames.dfy`, `Repairs.dfy` | what attempts keep, what a nil return leaves of each object, and drift that is not repaired |
| `GoHeap.dfy` | pointers, maps and slices that share memory |
| `Tls.dfy`, `Flags.dfy`, `PodSpecs.dfy` | command lines and pod specs of the three operands, and which flags take effect |
| `Interference.dfy` | what an edit of the resource causes to be written |
| `TlsHistory.dfy` | the TLS profile over the history of attempts, down to the stored arguments |
| `Policies.dfy`, `Traffic.dfy` | the network policies as allowed traffic; stored policies, service and certificates for the pods of the stored deployments |
| `Singleton.dfy` | which resources are ever queued, reconciled or made owners |
| `Bootstrap.dfy` | the one-shot creation of the default resource, with many instances and users |
| `ResourceMerge.dfy` | the in-place merge with its accumulating flag |
| `Status.dfy`, `TransitionTimes.dfy` | applying a status, and the laws of transition times |
| `Reporting.dfy`, `PollRuns.dfy` | the three reports, the check, polling, and runs of polls |
| `Agreement.dfy` | reconciler and reporter together |

Where an expected law does not hold of the code, the condition under which it does is proved instead:

- Required owner references that repeat a UID with different contents raise the `modified` flag on every merge, although the
  list does not change (`ResourceMerge.OwnersFlagExact`, `ResourceMerge.EnsureFlagExact`).
- A nil map that becomes an empty one does not raise the flag; no other change goes unnoticed (`ResourceMerge.MapFlagExact`).
- A version change in a report without a Progressing condition invents one, which the next such report takes away again
  (`TransitionTimes.SecondApplyIsSilent`, and `TransitionTimes.SecondApplyMayIssue` for an input). The three reports of the operator always carry one.
- The bootstrap's check and create are not one step: an instance that read the namespace before it was annotated can bring
  back a resource the user has deleted since (`Bootstrap.DeletionIsFinal`, and `Bootstrap.DeletionUndone` for a run).
- The name predicate guards only the watch of the resource; owners written by others get around it (`Singleton.QueuedNames`).
- A network policy that is written over loses its owner reference (`Repairs.PolicyOwners`).
- A drifted annotation of a pod template alone is not repaired (`Repairs.TemplateCarriesRelease`, and `Repairs.DriftStays` for
  an example).
- Labels and selector of an existing deployment are never repaired (`Repairs.LabelsOverRuns`), so that pods of a deployment
  that others made may escape the network policies and the service (`Traffic.OperandTraffic`,
  `Traffic.ServiceReachesTheWebhook`, and `Traffic.UnlabelledPodsAreFree` for an example).
- The user's own arguments can point the admission plugin at other files than the mounted ones
  (`Traffic.CertificatesAreMounted`).
- A resource of another namespace cannot own the objects, so an attempt that has to create one fails
  (`ReconcileRuns.ExactWrites`). Convergence is stated for a resource that can, or for a cluster where none is missing.
- The comment on polling says that most errors are reported and do not stop it. A failed check does not, but a report that
  cannot be written ends the polling (`PollRuns.PollEndsWhen`).

## Model

| member | source | states |
|---|---|---|
| ReconcileRuns.RunConverges | internal/controller/verticalpodautoscaler/verticalpodautoscaler_controller.go:204-401 | Convergence over every run of attempts with any fates of the calls, from a store with the resource, a settled TLS profile, and either a resource that may own the objects or none of them missing: the writes are the first k objects that did not conform at the start, each once; failures and remaining faults together never exceed the initial faults; either every attempt has failed or nothing is left to do; with more attempts than faults all ten objects conform |
| ReconcileRuns.ConformingStays | internal/controller/verticalpodautoscaler/verticalpodautoscaler_controller.go:204-401 | An object that conforms is never touched again in any run |
| ReconcileRuns.NilMeansConforming | internal/controller/verticalpodautoscaler/verticalpodautoscaler_controller.go:204-401 | A nil return, whatever failed on the way, means that all ten objects conform |
| Asked.NilMeansAsAsked | internal/controller/verticalpodautoscaler/verticalpodautoscaler_controller.go:552-661 | After a nil return, whatever failed on the way, each of the ten objects is field by field as the resource and the configuration ask (for a deployment: service account, priority class, node selector, tolerations, volumes, container name, image, command, arguments, ports, mounts, resources, replicas, release), and it has been written if and only if it was not so before |
| Asked.ConformsMeans | internal/controller/verticalpodautoscaler/verticalpodautoscaler_controller.go:567-572 | The code's comparison of each kind of object is exactly "as asked", spelled out without it |
| Asked.SamePodSpecMeans | internal/controller/verticalpodautoscaler/verticalpodautoscaler_controller.go:568 | The comparison of pod specs sees every field, and of resource lists the entries |
| Asked.SettingsTakeEffect | internal/controller/verticalpodautoscaler/verticalpodautoscaler_controller.go:866-871 | Each setting takes effect in the component's arguments under its own flag: the user's, else the extra argument's, else the operator's |
| Asked.AllLogToStderr | internal/controller/verticalpodautoscaler/recommender.go:36-42 | All three components log to the standard error stream |
| Asked.DefaultResourceInEffect | internal/controller/verticalpodautoscaler/verticalpodautoscaler_controller.go:799-819 | With the default resource all components run, and its numbers are in effect under their flags |
| Failures.AttemptFailsWhen | internal/controller/verticalpodautoscaler/verticalpodautoscaler_controller.go:204-401 | An attempt succeeds if and only if the objects can be created and all calls it takes are served, the first, which reads the TLS configuration, excepted |
| Failures.SlotFailsWhen | internal/controller/verticalpodautoscaler/verticalpodautoscaler_controller.go:234-270 | The same for one object, with the number of calls it takes |
| Failures.GoneIsLeftAlone | internal/controller/verticalpodautoscaler/verticalpodautoscaler_controller.go:213-222 | For a resource that is gone an attempt changes nothing, and succeeds if and only if it could read that |
| ReconcileRuns.FailedAttempt | internal/controller/verticalpodautoscaler/verticalpodautoscaler_controller.go:204-401 | A failed attempt leaves the objects before the failing one conforming and those after it as they were; if the resource may own the objects or none is missing, a fault has been used up |
| ReconcileRuns.ExactWrites | internal/controller/verticalpodautoscaler/verticalpodautoscaler_controller.go:234-398 | Without faults an attempt succeeds if and only if the resource may own the objects or none is missing; then it has written exactly the non-conforming objects, each once |
| ReconcileRuns.SecondAttemptQuiet | internal/controller/verticalpodautoscaler/verticalpodautoscaler_controller.go:234-398 | After a fault-free attempt that succeeded, the next one writes nothing, succeeds and leaves the configuration alone |
| ReconcileRuns.QuietAttempt | internal/controller/verticalpodautoscaler/verticalpodautoscaler_controller.go:234-398 | With all ten conforming and the TLS profile settled, an attempt changes nothing under any fates |
| Frames.AttemptKeeps | internal/controller/verticalpodautoscaler/verticalpodautoscaler_controller.go:552-661 | Under any fates no existing object is deleted or loses what is not the operator's own on that kind (foreign annotations, data, other service fields, deployment labels, selector and status, owners, except for network policies); a new object is one of the ten, owned by the resource, with the labels and selector the operator gives it |
| Frames.RunKeeps | internal/controller/verticalpodautoscaler/verticalpodautoscaler_controller.go:538-661 | The same over every run of attempts, for every key: outside the ten objects nothing appears, changes or goes, and what was created on the way still has its owner, labels and selector |
| Frames.CreatedStays | internal/controller/verticalpodautoscaler/verticalpodautoscaler_controller.go:538-595 | A created object keeps owner, labels and selector in every later attempt, a network policy because it conforms |
| ReconcileRuns.ConformingUntouched | internal/controller/verticalpodautoscaler/verticalpodautoscaler_controller.go:234-398 | Under any fates and any change of the TLS profile, an attempt does not touch an object that conforms |
| Repairs.NilMeansTargets | internal/controller/verticalpodautoscaler/verticalpodautoscaler_controller.go:234-398 | After a nil return each of the ten objects is what its slot should hold given what it held: created, left alone or repaired |
| Repairs.TemplateCarriesRelease | internal/controller/verticalpodautoscaler/verticalpodautoscaler_controller.go:567-580 | After a nil return a pod template carries the release if and only if the deployment was absent or did not conform, or the template carried it before |
| Repairs.LabelsOverRuns | internal/controller/verticalpodautoscaler/verticalpodautoscaler_controller.go:751-795 | Over every run, pod labels and selector of a deployment are what they were, or the operator's own if it was absent |
| Repairs.PolicyOwners | internal/controller/verticalpodautoscaler/verticalpodautoscaler_controller.go:353-398 | After a nil return a network policy is owned by the resource if it was absent, has its old owners if it conformed, and has none otherwise |
| Repairs.DriftStays | internal/controller/verticalpodautoscaler/verticalpodautoscaler_controller.go:567-572 | For every selector, template labels and template annotations there is a converged cluster that has drifted to them and that an attempt leaves as it is |
| Frames.RepairKeeps | internal/controller/verticalpodautoscaler/verticalpodautoscaler_controller.go:552-661 | What is written over an object keeps the foreign parts; a network policy that is written over loses its owners |
| ManagedObjects.TenObjects | internal/controller/verticalpodautoscaler/verticalpodautoscaler_controller.go:665-688 | The ten objects are ten different ones, for every resource name |
| ManagedObjects.TargetConforms | internal/controller/verticalpodautoscaler/verticalpodautoscaler_controller.go:552-661 | What is created or repaired is accepted by the code's own comparison when it is read back |
| ManagedObjects.OneSlot | internal/controller/verticalpodautoscaler/verticalpodautoscaler_controller.go:234-270 | One object: at most its own target is written and only if it did not conform; a failure costs a fault unless a missing object cannot be owned |
| ManagedObjects.WalkSlots | internal/controller/verticalpodautoscaler/verticalpodautoscaler_controller.go:234-398 | The pass over the objects writes a prefix of the work in order and stops at the first failure |
| Reconcile.Reconciler.Reconcile | internal/controller/verticalpodautoscaler/verticalpodautoscaler_controller.go:204-401 | The attempt, call by call, equals the specified result on store, calls, configuration and error |
| Reconcile.Reconciler.EnsureAll | internal/controller/verticalpodautoscaler/verticalpodautoscaler_controller.go:234-398 | Three deployments, service, config map, five policies, in this order, stopping at the first error |
| Reconcile.Reconciler.EnsureAutoscaler | internal/controller/verticalpodautoscaler/verticalpodautoscaler_controller.go:234-270 | Get, then create when missing, else update |
| Reconcile.Reconciler.EnsureWebhookService | internal/controller/verticalpodautoscaler/verticalpodautoscaler_controller.go:272-311 | The service is created when missing, else brought up to date |
| Reconcile.Reconciler.EnsureCAConfigMap | internal/controller/verticalpodautoscaler/verticalpodautoscaler_controller.go:313-351 | The config map is created when missing, else brought up to date |
| Reconcile.Reconciler.EnsurePolicy | internal/controller/verticalpodautoscaler/verticalpodautoscaler_controller.go:353-398 | A policy is created with the resource as owner, or replaced by a fresh one without owner when its spec differs |
| Reconcile.Reconciler.SetControllerReference | internal/controller/verticalpodautoscaler/verticalpodautoscaler_controller.go:543-545 | The resource becomes the only owner unless it lives in another namespace |
| Reconcile.Reconciler.CreateAutoscaler | internal/controller/verticalpodautoscaler/verticalpodautoscaler_controller.go:538-548 | Creates the expected deployment, owned by the resource |
| Reconcile.Reconciler.UpdateAutoscaler | internal/controller/verticalpodautoscaler/verticalpodautoscaler_controller.go:552-581 | Writes exactly when pod spec, replicas or version annotation differ, and then sets all of them |
| Reconcile.Reconciler.CreateWebhookService | internal/controller/verticalpodautoscaler/verticalpodautoscaler_controller.go:585-595 | Creates the expected service, owned by the resource |
| Reconcile.Reconciler.UpdateWebhookService | internal/controller/verticalpodautoscaler/verticalpodautoscaler_controller.go:599-623 | Writes exactly when ports, selector or the two annotations differ |
| Reconcile.Reconciler.CreateCAConfigMap | internal/controller/verticalpodautoscaler/verticalpodautoscaler_controller.go:627-637 | Creates the expected config map, owned by the resource |
| Reconcile.Reconciler.UpdateCAConfigMap | internal/controller/verticalpodautoscaler/verticalpodautoscaler_controller.go:641-661 | Writes exactly when one of the two annotations differs |
| Reconcile.Reconciler.SyncTLSProfile | internal/controller/verticalpodautoscaler/verticalpodautoscaler_controller.go:405-422 | Keeps the profile when the read or the resolution fails, drops it when the policy is not honoured, else takes the resolved one |
| Interference.EditWrites | internal/controller/verticalpodautoscaler/verticalpodautoscaler_controller.go:552-581 | From a converged store with a settled TLS profile, the first fault-free attempt after any edit of the spec writes exactly the deployments whose expected pod spec or replicas the edit changes, each once |
| Interference.EditRuns | internal/controller/verticalpodautoscaler/verticalpodautoscaler_controller.go:552-581 | Over every run after an edit, with any fates: only those deployments are written, in order and each once, and nothing else changes; with more attempts than faults, all of them |
| Interference.OnlyItsOwnDeployment | internal/controller/verticalpodautoscaler/verticalpodautoscaler_controller.go:866-1044 | When only what one component is built from is edited, then over every run with any fates its own deployment is written at most once, and only if it differs; nothing else changes; with more attempts than faults it is written exactly if it differs |
| Interference.OneAttemptAfterAnEdit | internal/controller/verticalpodautoscaler/verticalpodautoscaler_controller.go:866-1044 | The same for one attempt: under any fates its own deployment or nothing; without faults exactly if it differs |
| Interference.SamePodSpecEquivalence | internal/controller/verticalpodautoscaler/verticalpodautoscaler_controller.go:560-570 | The comparison of pod specs is an equivalence |
| PodSpecs.PodSpecReadsItsView | internal/controller/verticalpodautoscaler/verticalpodautoscaler_controller.go:929-1044 | A component's pod spec depends only on its overrides and the numbers its argument builder reads |
| PodSpecs.UserDecides | internal/controller/verticalpodautoscaler/verticalpodautoscaler_controller.go:867-871 | With the last flag winning, the user's arguments decide a key, then the extra argument, then what was generated |
| PodSpecs.AdmissionSettings | internal/controller/verticalpodautoscaler/admission_plugin.go:53-63 | The rate limit defaults are generated exactly when the user gave none; all four optional settings have the stated effective value |
| PodSpecs.OperandSettings | internal/controller/verticalpodautoscaler/recommender.go:36-57 | Recommender and updater run with each number of the resource under its own key unless overridden |
| PodSpecs.RecommenderControllerPodSpec | internal/controller/verticalpodautoscaler/verticalpodautoscaler_controller.go:929-953 | The spec built in place equals the expected one, field by field; no memory that existed before is written, the resource's in particular; its arguments have an array of their own, and only the node selector may be shared |
| PodSpecs.UpdaterControllerPodSpec | internal/controller/verticalpodautoscaler/verticalpodautoscaler_controller.go:957-981 | The spec built in place equals the expected one, field by field; no memory that existed before is written, the resource's in particular; its arguments have an array of their own, and only the node selector may be shared |
| PodSpecs.AdmissionControllerPodSpec | internal/controller/verticalpodautoscaler/verticalpodautoscaler_controller.go:985-1044 | The same for the admission plugin, with webhook port, mounts and volumes added |
| PodSpecs.LivePodSpec.ApplyOverrides | internal/controller/verticalpodautoscaler/verticalpodautoscaler_controller.go:932-950 | Arguments are appended; resources, node selector and tolerations replaced when set; the rest, and the overrides themselves, unchanged |
| Flags.AdmissionArgsDistinct | internal/controller/verticalpodautoscaler/admission_plugin.go:41-66 | No key is generated twice, for every resource and configuration |
| Flags.AdmissionEffective | internal/controller/verticalpodautoscaler/admission_plugin.go:53-63 | The effective value of each optional setting among the generated arguments |
| Flags.AdmissionFiles | internal/controller/verticalpodautoscaler/admission_plugin.go:44-51 | The certificate, key and authority files that take effect |
| Flags.RecommenderEffective | internal/controller/verticalpodautoscaler/recommender.go:36-57 | Each number of the resource takes effect under its own key and under no other |
| Flags.UpdaterEffective | internal/controller/verticalpodautoscaler/updater.go:32-43 | The minimum replicas take effect under their key and nothing else does |
| Flags.ArgExistsIsKeyEquality | internal/util/util.go:87-91 | ArgExists means "some argument has this key" for every argument list if and only if the key has no equals sign |
| Flags.ArgExistsIsEffective | internal/util/util.go:87-91 | For such keys, ArgExists means that the key has an effective value |
| Flags.BuildRecommenderArgs | internal/controller/verticalpodautoscaler/recommender.go:36-57 | The slice grown by appends, in an array of its own, equals the specified list; nothing that existed before is written |
| Flags.BuildUpdaterArgs | internal/controller/verticalpodautoscaler/updater.go:32-43 | The slice grown by appends, in an array of its own, equals the specified list; nothing that existed before is written |
| Flags.BuildAdmissionPluginArgs | internal/controller/verticalpodautoscaler/admission_plugin.go:41-66 | The slice grown by appends, in an array of its own, equals the specified list; nothing that existed before is written |
| Tls.SplitJoin | internal/util/tls.go:27-33 | Splitting the joined ciphers at commas gives the list back if and only if it is not empty and no name has a comma |
| TlsHistory.ProfileIsTheLastFinding | internal/controller/verticalpodautoscaler/verticalpodautoscaler_controller.go:405-422 | Over every history of attempts in arbitrarily changing clusters, the profile in use is the last one found out, else the initial one; nothing else in the configuration changes |
| TlsHistory.HistoryReachesThePlugin | internal/controller/verticalpodautoscaler/admission_plugin.go:58-63 | After any history and a nil attempt with the resource present, the stored admission arguments carry the version and ciphers of that profile |
| TlsHistory.ArgsCarryProfile | internal/controller/verticalpodautoscaler/admission_plugin.go:58-63 | Unless overridden, the version argument is the profile's under the plugin's name for it, and the cipher argument joins the table's images of the profile's ciphers in their order, or the ciphers themselves if none is in the table; it splits back if no name has a comma, and is absent exactly when the profile has no ciphers |
| Tls.CiphersAreConverted | internal/util/tls.go:27-33 | The conversion, said over the table: the images of the ciphers that are in it, in order, or else the ciphers |
| TlsHistory.VersionNames | internal/util/tls.go:10-23 | The four versions under the plugin's names, any other as it is |
| Singleton.OnlyTheSingleton | internal/controller/verticalpodautoscaler/verticalpodautoscaler_controller.go:440-465 | Over every run of watch events, attempts and changes by others, every queued request and every controller owner names the configured resource, as long as nobody else writes another owner |
| Singleton.RunWithin | internal/controller/verticalpodautoscaler/verticalpodautoscaler_controller.go:440-465 | The general invariant, for any set of names that others may write |
| Singleton.QueuedNames | internal/controller/verticalpodautoscaler/verticalpodautoscaler_controller.go:527-534 | Starting from nothing, the names that can ever be queued are exactly the configured one and those that others may write into owners: the predicate alone does not keep a name out |
| Singleton.WatchesQueue | internal/controller/verticalpodautoscaler/verticalpodautoscaler_controller.go:440-461 | An event for a resource queues it if and only if it has the configured name; an event for the APIServer queues the configured resource in the configured namespace |
| Singleton.CreatedQueuesItsOwner | internal/controller/verticalpodautoscaler/verticalpodautoscaler_controller.go:462-464 | An event for an object that an attempt created, other than a network policy, queues the resource it was created for |
| Singleton.FailedStaysQueued | internal/controller/verticalpodautoscaler/verticalpodautoscaler_controller.go:204-401 | A request leaves the queue when its attempt returns nil, and only then |
| Singleton.AttemptWithin | internal/controller/verticalpodautoscaler/verticalpodautoscaler_controller.go:538-548 | An attempt for an allowed name leaves only allowed names in the owners |
| Bootstrap.EnsureVPAController | internal/controller/verticalpodautoscaler/verticalpodautoscaler_controller.go:468-517 | The whole run equals the four-step machine run without interruption |
| Bootstrap.StepFrame | internal/controller/verticalpodautoscaler/verticalpodautoscaler_controller.go:468-517 | In every state, a call never overwrites an existing resource, creates only the default one where there was none, and changes only the one annotation of the namespace as it is now |
| Bootstrap.LateInstanceDoesNothing | internal/controller/verticalpodautoscaler/verticalpodautoscaler_controller.go:475-515 | In every interleaving, an instance whose read of the namespace finds the annotation changes nothing by that call or any later one, whatever anybody does to the annotation afterwards |
| Bootstrap.NothingWhileMarked | internal/controller/verticalpodautoscaler/verticalpodautoscaler_controller.go:475-515 | While the others leave the annotation in place, an instance that had not started when it was set changes nothing |
| Bootstrap.CreatorsReadUnmarked | internal/controller/verticalpodautoscaler/verticalpodautoscaler_controller.go:475-501 | Whoever changes the resource by a call has read the namespace without the annotation |
| Bootstrap.NilReturnMeansMarked | internal/controller/verticalpodautoscaler/verticalpodautoscaler_controller.go:502-516 | In every interleaving, whatever happened to the annotation before: from the event in which an instance returns nil, the annotation is in place until somebody else removes it |
| Bootstrap.UndisturbedInstanceFinishes | internal/controller/verticalpodautoscaler/verticalpodautoscaler_controller.go:468-517 | In every interleaving, whatever others do to the resource: an instance whose own calls are served, with the namespace there, has returned nil after four calls, and the annotation was in place then |
| Bootstrap.FourCallsSuffice | internal/controller/verticalpodautoscaler/verticalpodautoscaler_controller.go:486-516 | The same, call by call; an existing resource at the create is no error |
| Bootstrap.StepOutcome | internal/controller/verticalpodautoscaler/verticalpodautoscaler_controller.go:476-515 | A refused or lost call ends the instance with an error; it goes on to the patch only when the resource is there |
| Bootstrap.MarkNamespace | internal/controller/verticalpodautoscaler/verticalpodautoscaler_controller.go:502-515 | The end of the run equals the last step of the machine |
| Bootstrap.DeletionIsFinal | internal/controller/verticalpodautoscaler/verticalpodautoscaler_controller.go:475-501 | With the annotation set, a deletion of the resource is final if and only if no instance stands between reading the unmarked namespace and its create |
| Bootstrap.DeletionUndone | internal/controller/verticalpodautoscaler/verticalpodautoscaler_controller.go:468-517 | A run from nothing started, without failing calls, in which a user deletes the resource after the annotation was set, and an instance creates it again |
| Bootstrap.AloneWithoutFaults | internal/controller/verticalpodautoscaler/verticalpodautoscaler_controller.go:468-517 | Alone and without faults: success if and only if the namespace exists; annotation and resource are then in place; a second run changes nothing |
| Bootstrap.MarkIsTheOnlyAddition | internal/controller/verticalpodautoscaler/verticalpodautoscaler_controller.go:503-510 | The patch against the unmutated original consists of the one annotation |
| Policies.EffectiveTraffic | internal/controller/verticalpodautoscaler/verticalpodautoscaler_controller.go:1131-1288 | For all labels and connections, what the five policies allow in each direction: if and only if |
| Policies.MadePortAllows | internal/controller/verticalpodautoscaler/verticalpodautoscaler_controller.go:1112-1127 | What a made port lets through: one port, a range, or every port |
| Policies.OtherPoliciesAdd | internal/controller/verticalpodautoscaler/verticalpodautoscaler_controller.go:1131-1288 | Any other policies, given by whom they apply to and what they allow, only add to what an operand may do, and the five say nothing about other pods |
| Traffic.OperandTraffic | internal/controller/verticalpodautoscaler/verticalpodautoscaler_controller.go:1131-1288 | When all conform, for the stored policies and the pods of a stored deployment: every connection is allowed if and only if the template lacks the operand label; what may be received is exactly what the component is meant to if and only if the template has the proper labels; and likewise for what may be sent |
| Traffic.TrafficAfterRuns | internal/controller/verticalpodautoscaler/verticalpodautoscaler_controller.go:754-757 | After every run that ends with all conforming, pods have the labels their deployment had at the start, or the proper ones if the operator created it; these are confined, and selected by the service exactly if they are the admission plugin's |
| Traffic.UnlabelledPodsAreFree | internal/controller/verticalpodautoscaler/verticalpodautoscaler_controller.go:567-572 | There are converged clusters, which an attempt leaves alone, in which a component's pods may do anything |
| Traffic.ServiceReachesTheWebhook | internal/controller/verticalpodautoscaler/verticalpodautoscaler_controller.go:1048-1071 | The stored service selects the pods of a stored deployment if and only if its template has the app label; the policies let through what it sends to pods it selects, and of the operands exactly the admission plugin listens there |
| Traffic.CertificatesAreMounted | internal/controller/verticalpodautoscaler/verticalpodautoscaler_controller.go:1008-1044 | Each of the three files that the stored admission container is told to read comes from the secret the stored service asks for, or from the managed config map with the injected bundle, if and only if it lies in the mounted directory; and so it does unless the user or the extra argument sets that flag |
| ResourceMerge.MergedOwnersExactly | internal/lib/resourcemerge/resourcemerge.go:89-107 | The merge is the one list in which existing entries keep their places, new UIDs follow in order of first occurrence, and the first entry of a required UID is the last required reference with it |
| ResourceMerge.NewUidsAreNew | internal/lib/resourcemerge/resourcemerge.go:89-107 | The appended UIDs are distinct and are exactly the required ones that did not exist |
| ResourceMerge.MergedUids | internal/lib/resourcemerge/resourcemerge.go:89-107 | The UIDs are the union; a list without repeated UIDs stays one |
| ResourceMerge.OwnersRepeat | internal/lib/resourcemerge/resourcemerge.go:89-107 | A repeated merge never changes the list; it leaves the flag alone if and only if no two required references disagree on a UID |
| ResourceMerge.OwnersFlagExact | internal/lib/resourcemerge/resourcemerge.go:89-107 | The flag tells whether the list changes, for every existing list, if and only if no two required references disagree on a UID |
| ResourceMerge.MapFlagExact | internal/lib/resourcemerge/resourcemerge.go:74-87 | The flag is raised exactly when the entries change, the one change without it is that of nil into an empty map, and a second merge does nothing |
| ResourceMerge.EnsureFlagExact | internal/lib/resourcemerge/resourcemerge.go:25-107 | The flag is exact for whole objects, for every existing object, if and only if the required owners do not disagree on a UID |
| ResourceMerge.EnsureRepeat | internal/lib/resourcemerge/resourcemerge.go:25-62 | A second merge changes nothing, and leaves a false flag false under the same condition |
| ResourceMerge.EnsuredFields | internal/lib/resourcemerge/resourcemerge.go:25-107 | What the merge makes of each field: strings set if given, entries united with the required winning, owners as specified, the status as required |
| ResourceMerge.EnsureSelf | internal/lib/resourcemerge/resourcemerge.go:25-62 | Merging an object with a copy of itself raises the flag only for repeated owner UIDs that disagree |
| ResourceMerge.FindOperatorStatusCondition | internal/lib/resourcemerge/resourcemerge.go:13-21 | The first condition of the type, or none |
| ResourceMerge.SetStringIfSet | internal/lib/resourcemerge/resourcemerge.go:64-72 | A non-empty string replaces the existing one; the flag is raised exactly when it changes and never cleared |
| ResourceMerge.MergeMap | internal/lib/resourcemerge/resourcemerge.go:74-87 | The union with the required entries winning, whatever the order of iteration; the flag is raised exactly when an entry was missing or different |
| ResourceMerge.MergeOwnerRefs | internal/lib/resourcemerge/resourcemerge.go:89-107 | The nested loops compute the specified merge; the flag is raised exactly when some required reference was not already the first of its UID |
| ResourceMerge.LiveOperator.EnsureObjectMeta | internal/lib/resourcemerge/resourcemerge.go:56-62 | The metadata become the merged ones, nothing else changes, and the flag accumulates |
| ResourceMerge.LiveOperator.EnsureStatus | internal/lib/resourcemerge/resourcemerge.go:30-52 | The status becomes the required one up to nil and empty versions, and the flag accumulates |
| ResourceMerge.LiveOperator.EnsureClusterOperatorStatus | internal/lib/resourcemerge/resourcemerge.go:25-28 | Both merges; the flag is raised exactly when the requirement was not satisfied |
| TransitionTimes.TransitionTimeLaw | internal/operator/status.go:125-152 | A condition keeps its stored time exactly when its status is unchanged and it is not Progressing under a version change; otherwise it gets a reading of the clock taken in the call; reasons and messages play no role |
| TransitionTimes.TimesNeverGoBack | internal/operator/status.go:109-167 | Over every run of reports whose callers leave the times unset, as the three reports do: no stored time is zero, and none is before the time any earlier state held for the type |
| TransitionTimes.StepNotBefore | internal/operator/status.go:125-152 | In one call, whatever times its caller has set, no type that stays gets an earlier time; times that are not ahead of the clock never become stored times that are |
| TransitionTimes.SecondApplyIsSilent | internal/operator/status.go:109-167 | Applying the same status again issues an update if and only if a Progressing condition was invented the first time or the stored owners disagree on a UID |
| TransitionTimes.SecondApplyMayIssue | internal/operator/status.go:148-152 | An input of the exceptional case: a version reported without conditions on a blank operator |
| TransitionTimes.SecondDesired | internal/operator/status.go:125-152 | Reporting what was stored desires it unchanged: times are copied forward |
| TransitionTimes.NotIssuedKeepsStore | internal/operator/status.go:161-166 | A call without an update leaves every stored object as it was |
| TransitionTimes.AppliedTells | internal/operator/status.go:109-167 | A call leaves the stored status as it was or as desired, and as desired whenever it returns nil |
| TransitionTimes.NilStoresTheReport | internal/operator/status.go:116-166 | After a nil return the stored status is, field by field, the given one: conditions in their places with times, a Progressing one appended exactly when a version change has none to reset, the given versions or those before, the configured objects |
| TransitionTimes.OnlyTheStatus | internal/operator/status.go:109-167 | Under any fates no other object is touched, and the operator's metadata stay unless its owners disagree on a UID |
| Status.ResetProgressingTime | internal/util/util.go:70-84 | The first Progressing condition gets a new reading, or a default one is appended |
| Status.StampConditions | internal/operator/status.go:125-146 | The loop gives each condition its specified time |
| Status.StatusReporter.GetOrCreateClusterOperator | internal/operator/status.go:89-103 | Gets the operator, or creates a blank one when it is missing |
| Status.StatusReporter.ApplyStatus | internal/operator/status.go:109-167 | The call equals the specified result on store, clock, update and error |
| Reporting.CheckVPARecommender | internal/operator/status.go:308-351 | The check equals the specified result, call by call |
| Reporting.CheckIsTruthful | internal/operator/status.go:308-351 | The check answers yes if and only if the resource is gone, or the recommender carries exactly the release, its latest generation is observed, all replicas are updated and some are available; it fails only when a call failed |
| Reporting.CheckFailsWhen | internal/operator/status.go:308-351 | The check fails if and only if one of its reads is refused or lost |
| Reporting.ReportStatus | internal/operator/status.go:278-303 | Degraded when the check fails, progressing when it says no, available when it says yes; done exactly when available was reported |
| Reporting.Start | internal/operator/status.go:262-274 | Polls until the first report that is done or fails, which is the last one made, or until the context ends |
| PollRuns.VersionClaimSafety | internal/operator/status.go:173-351 | Over every run of polls: stored versions that differ from the initial ones were claimed by a poll that found the operands up to date, and stood since |
| PollRuns.ReportedStateInvariant | internal/operator/status.go:173-303 | From the first successful report on, the three conditions are stored once each, available, and never both progressing and degraded |
| PollRuns.DoneMeansAvailable | internal/operator/status.go:278-303 | A done report leaves the operator stored as available, neither progressing nor degraded, at its own version |
| PollRuns.PollStoresTheVerdict | internal/operator/status.go:278-303 | After a poll that reported, Degraded is true if and only if a read of the check was refused or lost, Progressing if and only if the reads were served and the resource is there without an up-to-date recommender, and otherwise the poll's own version is stored; with the reasons and messages |
| PollRuns.AppliedFailsWhen | internal/operator/status.go:109-167 | Applying a status fails if and only if one of the calls it takes (read, creation if missing, update if not as desired) is refused or lost |
| PollRuns.PollEndsWhen | internal/operator/status.go:262-303 | A poll fails if and only if a call of its own report is refused or lost; it ends the polling if and only if that happens or the check says yes |
| PollRuns.ChosenIsWellReported | internal/operator/status.go:173-256 | Each of the three reports has the three conditions, and only the available one brings versions of its own |
| PollRuns.PollTimesNeverGoBack | internal/operator/status.go:109-167 | The law of transition times over polled runs |
| Agreement.CheckSeesTheRollout | internal/operator/status.go:308-351 | After a nil reconcile, under any fates of its own calls, the check answers whether the recommender's rollout is complete |
| Agreement.UpgradeIsReported | internal/operator/status.go:278-303 | After a nil reconcile and a complete rollout, a fault-free poll is done and the release that was reconciled is stored as available |

## Left out

- The real API server: defaulting, resource versions and conflicts, generations, watches and caches. Reads see the latest store, writes are kept verbatim, and `UpdateStatus` stores the whole object it is given.
- Garbage collection of owned objects after the resource is deleted; in the runs this is one of the things others may do.
- Aliasing is modelled where pod specs are built from the resource, for arguments and node selectors, and in the merge of a ClusterOperator; a reporter's conditions are a value, so that the caller's slice is not seen to change.
- Library code enters as contracts or parameters: whether a TLS policy is honoured and what a profile resolves to (`ApiTypes.ApiServerConfig`), the cipher name table (`Flags.Config`, field `ianaNames`), `SetControllerReference` on an object without owners, the strategic merge patch of annotations, the lookup of the controller among owners, and the library's update of a status condition.
- Numbers are the text that `fmt` prints for them; float and quantity formatting is not modelled.
- The parts of a pod spec that never vary (environment, security context, probes) stand as one constant value.
- Flags are read as `--key=value`; a value in the next argument (`--key value`) is not understood.
- In the specs of network policies there are no label expressions and address blocks, and named ports allow no particular port number; no policy of the operator uses any of them, and other policies are arbitrary (`Policies.OtherPolicy`).
- Logging, events, metrics, `objectReference`, `FilterString`, `Validator`, and the waits between polls.
- `cmd/main.go`, `internal/operator/config.go` and `internal/operator/infrastructure.go`: reading flags and environment and wiring the manager.
- ReconcileRuns.RunConverges: assumes that nobody else writes during the run and that reading the APIServer configuration would not change the profile (a settled profile, as in the rows of `ReconcileRuns.QuietAttempt` and `Interference`); what a history of profile changes does is in `TlsHistory`.
- Bootstrap.DeletionIsFinal: the others keep the annotation; an instance that starts after somebody removed it creates the resource again, as the code intends.
- Reporting.CheckVPARecommender: a poll is one step against one cluster, so that nothing changes between the two reads of the check; what others do in between polls is free.
- Singleton.OnlyTheSingleton: an attempt is one step of the run, since events in the middle of it can only show objects that the store holds before or after it.
