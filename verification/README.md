# Verified models of the RabbitMQ cluster operator

The operator is the Go program under
`deployment/cloud/k8/data-services/rabbitmq/setup/install_commericial/cluster-operator/`.
It reconciles a RabbitmqCluster object with its child objects in passes that may fail, conflict or crash at
any API call, while users, controllers and other writers change the same objects. The project models its
protocols and its loops over unbounded input, and proves what they keep over every run.

| file | what it models |
|---|---|
| `Kubernetes.dfy`, `Names.dfy` | answers of the API server and how a call ends; the names of PVCs |
| `StorageModel.dfy`, `StorageApi.dfy`, `StorageOperator.dfy` | growing the storage: spec, StatefulSet, PVCs; the API under an arbitrary schedule; `PersistenceScaler` and the StatefulSet round of a pass |
| `CachedGuard.dfy` | the scale-down guard when it reads through a cache that may be behind |
| `Timestamps.dfy` | RFC 3339 timestamps and their comparison as strings |
| `MarkerModel.dfy`, `MarkerStore.dfy`, `MarkerOperator.dfy` | the time markers, conditions and observedGeneration that carry obligations from one pass to the next: a store with versions and a log of what the operator does; rules for that log and what follows from them; the steps of a pass |
| `Deletion.dfy` | `prepareForDeletion` with same-named StatefulSets, stale reads and pods coming and going |
| `Conditions.dfy` | the condition functions and the list of conditions over time |
| `ServicePorts.dfy` | ports of Service, container and readiness probe, and their reconciliation |
| `SwapSorts.dfy`, `Plugins.dfy`, `Annotations.dfy` | the swap passes, the plugin list and its texts, the annotation merge |

How the models are set up:

- A schedule decides, for every call, what others do beforehand and how the call ends: served, rejected,
  carried out with its answer lost, or the last act of the process, carried out or not. Every theorem about
  runs is for all schedules. `Calm` schedules leave the operator alone; with them the models say exactly
  when a pass succeeds.
- What a call leaves is stated exactly (`Others` and `Leaves` in `Api` and `Store`): what the others named by the schedule have made of the
  objects, and on top of that the write, or nothing.
- Preconditions of the write methods of `Api`, `Store` and `Server` are not demands of the server. They are what
  the operator has to guarantee at each call, so that each caller's proof is the proof that it does.
- The log of `Store` and `Server`, and the trace of `Api`, are ghost state. `Rules` and `Lawful` say which
  logs and traces are allowed; every method keeps them, and the lemmas derive the run-level statements.
- The clock of the marker model is part of the state; it does not go back and ticks in seconds.

Where the code does not do what it seems meant to do, the model follows the code:

- `reconcileOperatorDefaults` announces a requeue after a conflict, but its callers test only the error, so the
  pass goes on with a stale copy (`MarkerOperator.SaveSpec`). With an empty default for the pull secrets it saves
  the spec in every pass (`MarkerOperator.StillMissing`).
- An undisturbed pass never brings a claim template up to the desired capacity when every existing PVC is large
  enough already: nothing is deleted, and the server rejects the changed template
  (`StorageModel.LargePvcsPreventConvergence`; exactly when: `StorageModel.Converges` and `StorageOperator.RunCalm`).
- If the spec is edited while the StatefulSet is deleted for scaling, the re-created one may have a smaller
  template or be ephemeral; both guards are skipped then (`StorageModel.RecreatedAsAsked`). It cannot happen
  otherwise (`StorageModel.BackingChangesOnlyWithoutSts`), and PVCs never shrink.
- `sortEnvVar` leaves three families of positions unsorted (`SwapSorts.PassSortsExactlyIf`): for example the namespace
  first, the service name second and the pod name last (`SwapSorts.UnsortedExample`).
- With plain listeners disabled but no TLS, the Service would publish the plain Prometheus port while the container
  does not open it (`ServicePorts.RejectedExample`); `reconcileTLS` ends the pass before that, and this is the only
  such case (`ServicePorts.PortsAgree`).
- A failure between changing server-conf and marking it loses the marker (`MarkerModel.LostMarker`);
  `CompletePassMarkedItsChanges` therefore speaks of the changes of the pass that reports success. A later pass marks server-conf only when it changes it again
  (`MarkerModel.MarkedByItsPass`).
- `sortVolumeMounts` promises both mounts first; the second is there exactly if there is a persistence mount
  (`SwapSorts.MountPassSorts`).
- `prepareForDeletion` removes the finalizer also when the StatefulSet was not deleted (`Deletion.PrepareForDeletion`).
- A missing plugins config map makes the CLI step dereference nil, and nothing else does
  (`MarkerOperator.RunCommandsUnlessRecent`).
- The scale-down guard reads through a cache. When that is behind, a spec edited twice may pass the guard and then
  lower the replicas of the current StatefulSet (`CachedGuard.FallingExample`); the edits for which this cannot
  happen are known exactly (`CachedGuard.NeverFallsExactlyIf`). The storage model assumes a current read.

`dafny verify dfyconfig.toml` checks the whole project.

## Model

| member | source | states |
|---|---|---|
| `Names.PVCNameInjective` | deployment/cloud/k8/data-services/rabbitmq/setup/install_commericial/cluster-operator/api/v1beta1/rabbitmqcluster_types.go:461-463 | a PVC name determines the cluster name and the ordinal, even for cluster names that contain dashes or digits |
| `Names.PVCNameOfPod` | deployment/cloud/k8/data-services/rabbitmq/setup/install_commericial/cluster-operator/api/v1beta1/rabbitmqcluster_types.go:457-463 | the PVC name is the claim template name, the name ChildResourceName gives the StatefulSet, and the pod ordinal, joined by dashes |
| `Names.PVCNameReadsBack` | deployment/cloud/k8/data-services/rabbitmq/setup/install_commericial/cluster-operator/api/v1beta1/rabbitmqcluster_types.go:461-463 | after the last dash of a PVC name stands its ordinal, in decimal without leading zeros; before it "persistence-", the cluster name and "-server" |
| `Names.AtoiOfItoa` | deployment/cloud/k8/data-services/rabbitmq/setup/install_commericial/cluster-operator/api/v1beta1/rabbitmqcluster_types.go:461-463 | the decimal text of an ordinal reads back as that ordinal |
| `StorageModel.EveryRunEvolves` | deployment/cloud/k8/data-services/rabbitmq/setup/install_commericial/cluster-operator/internal/scaling/scaling.go:32-192 | between any two states of any run, with crashes at any call, spec edits and a missing StatefulSet: no PVC shrinks or disappears; one incarnation of the StatefulSet never changes its claim or its backing and, provided the scale-down guard reads the current object, never loses replicas |
| `StorageModel.EveryStateSound` | deployment/cloud/k8/data-services/rabbitmq/setup/install_commericial/cluster-operator/internal/resource/statefulset.go:205-209 | in every state of every run "persistence" is backed by exactly one of a claim template and an emptyDir, and an ephemeral StatefulSet is never under deletion by the operator |
| `StorageModel.GrowthOnlyWithoutSts` | deployment/cloud/k8/data-services/rabbitmq/setup/install_commericial/cluster-operator/internal/scaling/scaling.go:62-74 | if a PVC has grown between two states, there was a state in between without a StatefulSet |
| `StorageModel.BackingChangesOnlyWithoutSts` | deployment/cloud/k8/data-services/rabbitmq/setup/install_commericial/cluster-operator/internal/scaling/scaling.go:132-168 | between two states of a run whose StatefulSets differ in claim or backing there is one without a StatefulSet |
| `StorageModel.RecreatedAsAsked` | deployment/cloud/k8/data-services/rabbitmq/setup/install_commericial/cluster-operator/internal/scaling/scaling.go:42-54 | a run, beginning where a PVC has to grow, in which the claim goes from any capacity to any other, smaller or none, because the spec is edited while the StatefulSet is missing |
| `StorageModel.LargePvcsPreventConvergence` | deployment/cloud/k8/data-services/rabbitmq/setup/install_commericial/cluster-operator/internal/scaling/scaling.go:61-65 | a state with a small template and a large PVC in which Converges does not hold |
| `StorageModel.ScalingResumes` | deployment/cloud/k8/data-services/rabbitmq/setup/install_commericial/cluster-operator/internal/scaling/scaling.go:32-74 | scaling the PVCs that any interrupted scaling left gives the PVCs of one uninterrupted scaling |
| `StorageModel.PartlyThenFully` | deployment/cloud/k8/data-services/rabbitmq/setup/install_commericial/cluster-operator/internal/scaling/scaling.go:170-192 | partial scalings compose: an interrupted one followed by a finished one is a finished one |
| `StorageModel.OtherClustersUntouched` | deployment/cloud/k8/data-services/rabbitmq/setup/install_commericial/cluster-operator/internal/scaling/scaling.go:76-98 | scaling one cluster leaves every PVC of a differently named cluster as it was |
| `StorageModel.FullyMeans` | deployment/cloud/k8/data-services/rabbitmq/setup/install_commericial/cluster-operator/internal/scaling/scaling.go:76-98 | after a finished scaling the PVC of each pod, named by template and pod, has the desired capacity if its ordinal is below replicas and it had less, and otherwise the capacity it had |
| `StorageModel.OthersKeep` | deployment/cloud/k8/data-services/rabbitmq/setup/install_commericial/cluster-operator/internal/scaling/scaling.go:114-116 | whatever several others do before one call, no PVC changes its capacity and no StatefulSet appears |
| `StorageApi.Api.Begin` | deployment/cloud/k8/data-services/rabbitmq/setup/install_commericial/cluster-operator/internal/scaling/scaling.go:114-116 | every call is preceded by the actions of others that the schedule names, and ends as the schedule says; they resize no PVC and create no StatefulSet |
| `StorageApi.Api.DeleteSts` | deployment/cloud/k8/data-services/rabbitmq/setup/install_commericial/cluster-operator/internal/scaling/scaling.go:151-156 | deletion with orphan propagation: PVCs stay, the object is marked and goes later; it is only asked for when there is a claim template |
| `StorageApi.Api.UpdatePvc` | deployment/cloud/k8/data-services/rabbitmq/setup/install_commericial/cluster-operator/internal/scaling/scaling.go:182-188 | only called while there is no StatefulSet, and never with less than the PVC has |
| `StorageApi.Api.CreateSts` | deployment/cloud/k8/data-services/rabbitmq/setup/install_commericial/cluster-operator/controllers/rabbitmqcluster_controller.go:200-207 | creation under a fresh UID, of an object with exactly one backing of its storage |
| `StorageApi.Api.UpdateSts` | deployment/cloud/k8/data-services/rabbitmq/setup/install_commericial/cluster-operator/controllers/rabbitmqcluster_controller.go:200-207 | update of the incarnation that was read; a changed claim template is rejected; replicas never fall |
| `StorageOperator.GetClusterPVCs` | deployment/cloud/k8/data-services/rabbitmq/setup/install_commericial/cluster-operator/internal/scaling/scaling.go:76-98 | finds every PVC of the ordinals below replicas that existed, with the capacity it has; success means that every read was answered |
| `StorageOperator.PvcsNeedingScaling` | deployment/cloud/k8/data-services/rabbitmq/setup/install_commericial/cluster-operator/internal/scaling/scaling.go:100-112 | exactly the listed PVCs below the desired capacity |
| `StorageOperator.ExistingCapacity` | deployment/cloud/k8/data-services/rabbitmq/setup/install_commericial/cluster-operator/internal/scaling/scaling.go:118-130 | the capacity of the claim template named persistence, 0 without one, NotFound without a StatefulSet |
| `StorageOperator.DeleteStatefulSet` | deployment/cloud/k8/data-services/rabbitmq/setup/install_commericial/cluster-operator/internal/scaling/scaling.go:134-168 | success only once the StatefulSet is gone, and not without an answer to the first read and the deletion; PVCs untouched; given up only after ten further reads; undisturbed it succeeds |
| `StorageOperator.ScaleUpPVCs` | deployment/cloud/k8/data-services/rabbitmq/setup/install_commericial/cluster-operator/internal/scaling/scaling.go:170-192 | sets each listed PVC to the desired capacity and no other, each after a read that was answered; after a failure each is either old or new |
| `StorageOperator.CheckSupported` | deployment/cloud/k8/data-services/rabbitmq/setup/install_commericial/cluster-operator/internal/scaling/scaling.go:35-54 | refuses, each with its own reason, exactly the changes from ephemeral to persistent and to a smaller capacity, and refuses nothing while the StatefulSet is missing |
| `StorageOperator.ResizeTooSmall` | deployment/cloud/k8/data-services/rabbitmq/setup/install_commericial/cluster-operator/internal/scaling/scaling.go:61-74 | nothing happens unless a listed PVC is too small; otherwise the StatefulSet is deleted before the first PVC is resized |
| `StorageOperator.ResizedFromList` | deployment/cloud/k8/data-services/rabbitmq/setup/install_commericial/cluster-operator/internal/scaling/scaling.go:56-73 | resizing what was listed as too small brings every PVC of the cluster that existed at the start to the larger of old and desired capacity |
| `StorageOperator.Scale` | deployment/cloud/k8/data-services/rabbitmq/setup/install_commericial/cluster-operator/internal/scaling/scaling.go:32-74 | whatever happens each PVC is untouched or at its target; on success all are; an unsupported change is refused with the reason that applies to the claim; undisturbed, success is decided by the guards alone |
| `StorageOperator.ScaleUntilDone` | deployment/cloud/k8/data-services/rabbitmq/setup/install_commericial/cluster-operator/internal/scaling/scaling.go:32-192 | interrupted at any calls and restarted any number of times, a scaling that finishes leaves the PVC map of one uninterrupted scaling; undisturbed it finishes exactly if the guards allow it |
| `StorageOperator.CreateOrUpdate` | deployment/cloud/k8/data-services/rabbitmq/setup/install_commericial/cluster-operator/controllers/rabbitmqcluster_controller.go:200-207 | success means that claim, backing and replicas, overrides included, are as the spec asks; a conflict is reported only after five attempts; undisturbed, it succeeds exactly when there is no StatefulSet or its claim is already right, and writes nothing if all is |
| `StorageOperator.ReconcileStatefulSet` | deployment/cloud/k8/data-services/rabbitmq/setup/install_commericial/cluster-operator/controllers/rabbitmqcluster_controller.go:173-212 | scale-down is refused only for a StatefulSet with more replicas, overrides included, provided the guard reads the current object; a completed round leaves PVCs, claim and replicas as the spec asks |
| `StorageOperator.Reconcile` | deployment/cloud/k8/data-services/rabbitmq/setup/install_commericial/cluster-operator/controllers/rabbitmqcluster_controller.go:166-217 | an undisturbed pass completes if and only if Converges holds beforehand, and otherwise changes nothing |
| `StorageOperator.Run` | deployment/cloud/k8/data-services/rabbitmq/setup/install_commericial/cluster-operator/controllers/rabbitmqcluster_controller.go:166-217 | for any number of passes under any schedule, all states passed through are sound and any two are related as EveryRunEvolves says, with guard reads as there |
| `StorageOperator.RunCalm` | deployment/cloud/k8/data-services/rabbitmq/setup/install_commericial/cluster-operator/controllers/rabbitmqcluster_controller.go:173-212 | without interference convergence is reached in the first pass or never: never exactly when a larger template is needed but no existing PVC is too small, or a change is unsupported |
| `CachedGuard.NeverFallsExactlyIf` | deployment/cloud/k8/data-services/rabbitmq/setup/install_commericial/cluster-operator/controllers/rabbitmqcluster_controller.go:176-191 | with a guard that may read any earlier state, and passes that may fail, the replicas of an incarnation never fall if and only if each edit, in turn, is below every state the guard could read or at least the last one that is not |
| `CachedGuard.HarmlessNeverFalls` | deployment/cloud/k8/data-services/rabbitmq/setup/install_commericial/cluster-operator/controllers/reconcile_scale_down.go:20-33 | for such edits they do not, whatever each pass reads |
| `CachedGuard.OtherwiseFalls` | deployment/cloud/k8/data-services/rabbitmq/setup/install_commericial/cluster-operator/controllers/rabbitmqcluster_controller.go:200-207 | for all other edits there are reads with which the update lowers the replicas |
| `CachedGuard.CurrentReadsNeverFall` | deployment/cloud/k8/data-services/rabbitmq/setup/install_commericial/cluster-operator/controllers/reconcile_scale_down.go:20-33 | with a guard that reads the current state they never fall, for any edits |
| `CachedGuard.GrowthGoesThrough` | deployment/cloud/k8/data-services/rabbitmq/setup/install_commericial/cluster-operator/controllers/reconcile_scale_down.go:20-33 | an edit that asks for at least as many replicas as any state the guard could read is carried out |
| `CachedGuard.FallingExample` | deployment/cloud/k8/data-services/rabbitmq/setup/install_commericial/cluster-operator/controllers/rabbitmqcluster_controller.go:176-207 | one replica, edited to 5 and then to 3 while the guard still sees one: the history is 1, 5, 3 |
| `Timestamps.Chronological` | deployment/cloud/k8/data-services/rabbitmq/setup/install_commericial/cluster-operator/controllers/reconcile_rabbitmq_configurations.go:67 | for RFC 3339 texts with one offset and four-digit years (section 5.1 of RFC 3339) the string order is the order of time, and equal texts are equal times |
| `Timestamps.SameSecond` | deployment/cloud/k8/data-services/rabbitmq/setup/install_commericial/cluster-operator/controllers/reconcile_rabbitmq_configurations.go:114 | a calendar date and time is determined by the seconds elapsed |
| `Timestamps.DayOrder` | deployment/cloud/k8/data-services/rabbitmq/setup/install_commericial/cluster-operator/controllers/reconcile_rabbitmq_configurations.go:101 | the order of year, month and day is the order of days elapsed, leap years included |
| `Timestamps.DateTextOrder` | deployment/cloud/k8/data-services/rabbitmq/setup/install_commericial/cluster-operator/controllers/reconcile_rabbitmq_configurations.go:101 | the date part of the texts compares like the days |
| `Timestamps.ClockTextOrder` | deployment/cloud/k8/data-services/rabbitmq/setup/install_commericial/cluster-operator/controllers/reconcile_rabbitmq_configurations.go:101 | the time part of the texts compares like the seconds of the day |
| `Timestamps.TextExample` | deployment/cloud/k8/data-services/rabbitmq/setup/install_commericial/cluster-operator/controllers/rabbitmqcluster_controller.go:384 | the text of one date, as in section 5.6 of RFC 3339 |
| `Timestamps.LastText` | deployment/cloud/k8/data-services/rabbitmq/setup/install_commericial/cluster-operator/controllers/rabbitmqcluster_controller.go:384 | the text of the last second of the year 9999 |
| `Timestamps.DaysBeforeYearMeans` | deployment/cloud/k8/data-services/rabbitmq/setup/install_commericial/cluster-operator/controllers/reconcile_rabbitmq_configurations.go:101 | the days before a year in closed form, by the Gregorian leap rule |
| `Timestamps.DaysBeforeMonthMeans` | deployment/cloud/k8/data-services/rabbitmq/setup/install_commericial/cluster-operator/controllers/reconcile_rabbitmq_configurations.go:101 | the days before each month of a year |
| `MarkerModel.InterferenceStep` | deployment/cloud/k8/data-services/rabbitmq/setup/install_commericial/cluster-operator/controllers/rabbitmqcluster_controller.go:89-105 | whatever users and controllers do between two calls, no version is used for two contents, time does not go back, and the objects still agree with the log of the operator |
| `MarkerModel.AtMostTwoRestarts` | deployment/cloud/k8/data-services/rabbitmq/setup/install_commericial/cluster-operator/controllers/reconcile_rabbitmq_configurations.go:100-116 | in every run the restarts made for one value of serverConfUpdatedAt, as read on server-conf, change lastRestartAt of one incarnation at most twice |
| `MarkerModel.RestartRaisesRank` | deployment/cloud/k8/data-services/rabbitmq/setup/install_commericial/cluster-operator/controllers/reconcile_rabbitmq_configurations.go:100-116 | a restart either writes the timestamp that was there or moves the last restart from before to the second of the change, or from there to later |
| `MarkerModel.ChangesBelowRank` | deployment/cloud/k8/data-services/rabbitmq/setup/install_commericial/cluster-operator/controllers/reconcile_rabbitmq_configurations.go:100-116 | the number of changes made for one value read on server-conf is bounded by how far the last restart has come |
| `MarkerModel.RestartAnswersMarker` | deployment/cloud/k8/data-services/rabbitmq/setup/install_commericial/cluster-operator/controllers/reconcile_rabbitmq_configurations.go:81-104 | each restart is made for the marker that the pass has read on server-conf since it last wrote it, and only if the last restart of that StatefulSet is not later |
| `MarkerModel.CompletePassHasRestarted` | deployment/cloud/k8/data-services/rabbitmq/setup/install_commericial/cluster-operator/controllers/reconcile_rabbitmq_configurations.go:81-129 | a pass that reports success has read server-conf after last writing it and, if it was marked, has since restarted the StatefulSet, or found a restart strictly later than the marker |
| `MarkerModel.RestartDoneMeans` | deployment/cloud/k8/data-services/rabbitmq/setup/install_commericial/cluster-operator/controllers/reconcile_rabbitmq_configurations.go:100-104 | the restart check lets a pass with a marked server-conf go on only if after that read, server-conf not being written, it made a restart for this marker or found one strictly later |
| `MarkerModel.RebalanceAnswersMark` | deployment/cloud/k8/data-services/rabbitmq/setup/install_commericial/cluster-operator/controllers/rabbitmqcluster_controller.go:145-149 | every rebalance command is preceded by a mark set right after a read of a rolling StatefulSet, with several replicas and post-deploy steps, neither removed nor overwritten since |
| `MarkerModel.MarkBehind` | deployment/cloud/k8/data-services/rabbitmq/setup/install_commericial/cluster-operator/controllers/rabbitmqcluster_controller.go:375-389 | an outstanding mark was set under those conditions and is the last one set |
| `MarkerModel.MarkLastsUntilRebalanced` | deployment/cloud/k8/data-services/rabbitmq/setup/install_commericial/cluster-operator/controllers/rabbitmqcluster_controller.go:380-382 | between two marks there is a removal, directly after a successful rebalance command |
| `MarkerModel.UnmarkAfterPluginsSet` | deployment/cloud/k8/data-services/rabbitmq/setup/install_commericial/cluster-operator/controllers/reconcile_cli.go:87-103 | pluginsUpdatedAt is removed only from the version of the config map that was read, after set-plugins has succeeded since that read on every ordinal below the replicas of the spec for which this pass has built the StatefulSet, with the plugins of that spec |
| `MarkerModel.CommandsOnlyWhenReady` | deployment/cloud/k8/data-services/rabbitmq/setup/install_commericial/cluster-operator/controllers/reconcile_cli.go:20-43 | every command in a pod is run by a pass whose last read of the StatefulSet showed all replicas ready and updated, and whose last read of plugins-conf a marker at least two seconds old or none; set-plugins only if that had the marker, feature flags only if the StatefulSet had its, a rebalance only if the cluster had its |
| `MarkerModel.ObservedNeverDecreases` | deployment/cloud/k8/data-services/rabbitmq/setup/install_commericial/cluster-operator/controllers/rabbitmqcluster_controller.go:236-238 | observedGeneration never decreases and never exceeds the generation written with it |
| `MarkerModel.ObservedOnlyWhenComplete` | deployment/cloud/k8/data-services/rabbitmq/setup/install_commericial/cluster-operator/controllers/rabbitmqcluster_controller.go:120-242 | observedGeneration takes a value, and ReconcileSuccess turns true, only when the pass has run all builders, the restart check, the status step and the CLI step on the spec of that generation; the status then names the default user secret exactly if Vault does not keep the credentials |
| `MarkerModel.EveryBuilderRan` | deployment/cloud/k8/data-services/rabbitmq/setup/install_commericial/cluster-operator/internal/resource/rabbitmq_resource_builder.go:29-48 | a pass that reports success has run every single builder, except that of the default user secret if Vault keeps the credentials, and none of them after the one of the StatefulSet |
| `MarkerModel.VaultKeepsCredentials` | deployment/cloud/k8/data-services/rabbitmq/setup/install_commericial/cluster-operator/internal/resource/rabbitmq_resource_builder.go:43-46 | if Vault keeps the credentials, a pass that reports success has not run the builder of the default user secret |
| `MarkerModel.SettledMeans` | deployment/cloud/k8/data-services/rabbitmq/setup/install_commericial/cluster-operator/controllers/reconcile_rabbitmq_configurations.go:30-76 | a builder counts as settled only if it found the content, wrote it with no mark due, or wrote it and then marked it at a time no earlier |
| `MarkerModel.CompletePassMarkedItsChanges` | deployment/cloud/k8/data-services/rabbitmq/setup/install_commericial/cluster-operator/controllers/reconcile_rabbitmq_configurations.go:28-76 | a pass that reports success has brought plugins, server configuration and replicas to what the spec asks, and made every other object from that spec; and what it changed, it has marked at a time no earlier than the change |
| `MarkerModel.CompletePassLeavesNothing` | deployment/cloud/k8/data-services/rabbitmq/setup/install_commericial/cluster-operator/controllers/reconcile_cli.go:18-66 | when a pass reports success, the marks it last saw on StatefulSet, plugins-conf and cluster are gone, and all replicas were ready and updated |
| `MarkerModel.MarkedByItsPass` | deployment/cloud/k8/data-services/rabbitmq/setup/install_commericial/cluster-operator/controllers/reconcile_rabbitmq_configurations.go:47-67 | in every run a marker is written only after its builder has made a change in the same pass, and not dated earlier; so a change is marked by its own pass or only together with a later change |
| `MarkerModel.LostMarker` | deployment/cloud/k8/data-services/rabbitmq/setup/install_commericial/cluster-operator/controllers/reconcile_rabbitmq_configurations.go:47-53 | a log that obeys the rules in which a change of server-conf stays unmarked, because its pass ended before marking it and the next one found the content as wanted |
| `MarkerModel.SeenMeans` | deployment/cloud/k8/data-services/rabbitmq/setup/install_commericial/cluster-operator/controllers/reconcile_cli.go:20-27 | what the pass knows of the StatefulSet comes from its last read of it |
| `MarkerModel.MilestoneIn` | deployment/cloud/k8/data-services/rabbitmq/setup/install_commericial/cluster-operator/controllers/rabbitmqcluster_controller.go:120-242 | each milestone of the current pass is an event of that pass |
| `MarkerStore.Store.Begin` | deployment/cloud/k8/data-services/rabbitmq/setup/install_commericial/cluster-operator/controllers/rabbitmqcluster_controller.go:89-99 | every call is preceded by the actions of others that the schedule names, and ends as the schedule says |
| `MarkerStore.Store.Commit` | deployment/cloud/k8/data-services/rabbitmq/setup/install_commericial/cluster-operator/controllers/utils.go:22-56 | whatever a write changes, the event logged with it says so: data, replicas, each marker set or removed, status; pluginsUpdatedAt is removed only from the very config map in the event |
| `MarkerStore.Store.UpdateCluster` | deployment/cloud/k8/data-services/rabbitmq/setup/install_commericial/cluster-operator/controllers/reconcile_operator_defaults.go:48-60 | a conflict means that another version is stored; the generation grows exactly with a changed spec |
| `MarkerStore.Store.MarkCluster` | deployment/cloud/k8/data-services/rabbitmq/setup/install_commericial/cluster-operator/controllers/rabbitmqcluster_controller.go:384-388 | a mark is set only after a read of a rolling StatefulSet and only where none is set |
| `MarkerStore.Store.UnmarkCluster` | deployment/cloud/k8/data-services/rabbitmq/setup/install_commericial/cluster-operator/controllers/utils.go:22-34 | the rebalance mark is removed only directly after a successful command |
| `MarkerStore.Store.UpdateStatus` | deployment/cloud/k8/data-services/rabbitmq/setup/install_commericial/cluster-operator/controllers/rabbitmqcluster_controller.go:327-334 | reports success or a new observedGeneration only after a complete pass on the spec of that generation |
| `MarkerStore.Store.WriteCluster` | deployment/cloud/k8/data-services/rabbitmq/setup/install_commericial/cluster-operator/controllers/rabbitmqcluster_controller.go:327-334 | a write of mark or status is logged as what it does |
| `MarkerStore.Store.CreateMap` | deployment/cloud/k8/data-services/rabbitmq/setup/install_commericial/cluster-operator/controllers/rabbitmqcluster_controller.go:203-205 | a created config map has the data and no marker |
| `MarkerStore.Store.ApplyOther` | deployment/cloud/k8/data-services/rabbitmq/setup/install_commericial/cluster-operator/controllers/rabbitmqcluster_controller.go:200-212 | success means that the object of an unmodelled builder was made from this spec |
| `MarkerStore.Store.UpdateMap` | deployment/cloud/k8/data-services/rabbitmq/setup/install_commericial/cluster-operator/controllers/rabbitmqcluster_controller.go:203-205 | changing the data of a config map leaves its marker to be written |
| `MarkerStore.Store.MarkMap` | deployment/cloud/k8/data-services/rabbitmq/setup/install_commericial/cluster-operator/controllers/utils.go:36-56 | a marker is written only for a change of this pass, with a time between the change and now |
| `MarkerStore.Store.UnmarkPlugins` | deployment/cloud/k8/data-services/rabbitmq/setup/install_commericial/cluster-operator/controllers/utils.go:22-34 | the removal does nothing if the config map has been written or removed since it was read, so a newer marker survives |
| `MarkerStore.Store.CreateSts` | deployment/cloud/k8/data-services/rabbitmq/setup/install_commericial/cluster-operator/controllers/rabbitmqcluster_controller.go:203-205 | a new incarnation has a fresh UID and no restart time, and createdAt is left to be written |
| `MarkerStore.Store.UpdateSts` | deployment/cloud/k8/data-services/rabbitmq/setup/install_commericial/cluster-operator/internal/resource/statefulset.go:119 | an update keeps the restart annotation of the pod template |
| `MarkerStore.Store.MarkSts` | deployment/cloud/k8/data-services/rabbitmq/setup/install_commericial/cluster-operator/controllers/utils.go:36-56 | createdAt is written only after this pass has created the StatefulSet, with a time no earlier |
| `MarkerStore.Store.UnmarkSts` | deployment/cloud/k8/data-services/rabbitmq/setup/install_commericial/cluster-operator/controllers/utils.go:22-34 | createdAt is removed only directly after feature flags were enabled |
| `MarkerStore.Store.RestartSts` | deployment/cloud/k8/data-services/rabbitmq/setup/install_commericial/cluster-operator/controllers/reconcile_rabbitmq_configurations.go:106-116 | lastRestartAt is written with the current time, only for the marker last read on server-conf in this pass, and only if the last restart is not strictly later |
| `MarkerStore.Store.WriteRestart` | deployment/cloud/k8/data-services/rabbitmq/setup/install_commericial/cluster-operator/controllers/reconcile_rabbitmq_configurations.go:106-116 | a restart changes only the annotation, and is logged with the marker it answers |
| `MarkerOperator.SaveSpec` | deployment/cloud/k8/data-services/rabbitmq/setup/install_commericial/cluster-operator/controllers/reconcile_operator_defaults.go:48-60 | the pass goes on only with the new spec, stored or, after a conflict, in its own copy; with every call served it always goes on, whatever others write meanwhile |
| `MarkerOperator.ReconcileOperatorDefaults` | deployment/cloud/k8/data-services/rabbitmq/setup/install_commericial/cluster-operator/controllers/reconcile_operator_defaults.go:16-44 | the pass goes on with the spec in which image, pull secrets and updater image, each if missing, have their defaults, and nothing else has changed; with every call served it always goes on; nothing is saved when nothing is missing |
| `MarkerOperator.DefaultPullSecrets` | deployment/cloud/k8/data-services/rabbitmq/setup/install_commericial/cluster-operator/controllers/reconcile_operator_defaults.go:25-31 | the loop appends the non-empty references to the nil list, which stays nil if there are none |
| `MarkerOperator.NoReferences` | deployment/cloud/k8/data-services/rabbitmq/setup/install_commericial/cluster-operator/controllers/reconcile_operator_defaults.go:27-29 | there are none if and only if the text holds nothing but commas |
| `MarkerOperator.ReferencesReadBack` | deployment/cloud/k8/data-services/rabbitmq/setup/install_commericial/cluster-operator/controllers/reconcile_operator_defaults.go:25-31 | names without commas, joined by commas, are read back as the references |
| `MarkerOperator.StillMissing` | deployment/cloud/k8/data-services/rabbitmq/setup/install_commericial/cluster-operator/controllers/reconcile_operator_defaults.go:16-44 | the spec is saved again in the next pass if and only if a default that was needed is empty |
| `MarkerOperator.AddFinalizerIfNeeded` | deployment/cloud/k8/data-services/rabbitmq/setup/install_commericial/cluster-operator/controllers/reconcile_finalizer.go:22-30 | the pass goes on only with the finalizer; nothing is written when it is there |
| `MarkerOperator.ReportFailure` | deployment/cloud/k8/data-services/rabbitmq/setup/install_commericial/cluster-operator/controllers/rabbitmqcluster_controller.go:327-334 | a failure report writes the status with ReconcileSuccess false and everything else as it was, or nothing; if it is answered, the status says so, or somebody has changed the object meanwhile |
| `MarkerOperator.GetChildResources` | deployment/cloud/k8/data-services/rabbitmq/setup/install_commericial/cluster-operator/controllers/rabbitmqcluster_controller.go:304-325 | success carries the StatefulSet that was read, or none because there is none, and means that both reads were answered |
| `MarkerOperator.UpdateStatusConditions` | deployment/cloud/k8/data-services/rabbitmq/setup/install_commericial/cluster-operator/controllers/rabbitmqcluster_controller.go:279-302 | the pass goes on only with a readiness condition that is absent exactly if the StatefulSet just read is, and true exactly if its ready replicas are as many as it asks for; nothing is written if it was so before |
| `MarkerOperator.ReconcileTLS` | deployment/cloud/k8/data-services/rabbitmq/setup/install_commericial/cluster-operator/controllers/reconcile_tls.go:18-35 | the pass goes on only if plain listeners are not disabled without TLS, from a secret or from Vault, and only after the secret, if there is one, has been read; a refusal is reported; undisturbed, it goes on exactly then |
| `MarkerOperator.MarkForQueueRebalance` | deployment/cloud/k8/data-services/rabbitmq/setup/install_commericial/cluster-operator/controllers/rabbitmqcluster_controller.go:375-389 | an existing mark is kept, otherwise one is set; the spec is not changed |
| `MarkerOperator.MarkForQueueRebalanceIfNeeded` | deployment/cloud/k8/data-services/rabbitmq/setup/install_commericial/cluster-operator/controllers/rabbitmqcluster_controller.go:140-149 | the pass goes on with a mark if and only if there was one or the StatefulSet just read is rolling, the spec has several replicas and does not skip post-deploy steps |
| `MarkerOperator.Prepare` | deployment/cloud/k8/data-services/rabbitmq/setup/install_commericial/cluster-operator/controllers/rabbitmqcluster_controller.go:120-149 | a pass reaches its builders only with the finalizer, an accepted TLS setting and all non-empty defaults; and, with several replicas and post-deploy steps, only with a mark if the StatefulSet there is was last read as rolling, or is rolling now |
| `MarkerOperator.TryCreateOrUpdateMap` | deployment/cloud/k8/data-services/rabbitmq/setup/install_commericial/cluster-operator/controllers/rabbitmqcluster_controller.go:202-206 | one attempt: the config map has the data afterwards; Updated exactly when a marker is due |
| `MarkerOperator.CreateOrUpdateMap` | deployment/cloud/k8/data-services/rabbitmq/setup/install_commericial/cluster-operator/controllers/rabbitmqcluster_controller.go:200-207 | the same under retries; a conflict is the result only after five attempts |
| `MarkerOperator.TryMarkMap` | deployment/cloud/k8/data-services/rabbitmq/setup/install_commericial/cluster-operator/controllers/utils.go:40-55 | one attempt: success only when the change of this pass is marked; a conflict or a missing object leaves it to be marked |
| `MarkerOperator.MarkMap` | deployment/cloud/k8/data-services/rabbitmq/setup/install_commericial/cluster-operator/controllers/utils.go:36-56 | success only when the change of this pass is marked; tried five times when each time there is a conflict or no such object, and never more often |
| `MarkerOperator.TryMarkCreated` | deployment/cloud/k8/data-services/rabbitmq/setup/install_commericial/cluster-operator/controllers/utils.go:40-55 | one attempt: success only when the creation is marked; a conflict or a missing object leaves it to be marked |
| `MarkerOperator.MarkCreated` | deployment/cloud/k8/data-services/rabbitmq/setup/install_commericial/cluster-operator/controllers/reconcile_rabbitmq_configurations.go:55-72 | success only when the creation is marked; tried five times when each time there is a conflict or no such object, and never more often |
| `MarkerOperator.TryCreateOrUpdateSts` | deployment/cloud/k8/data-services/rabbitmq/setup/install_commericial/cluster-operator/controllers/rabbitmqcluster_controller.go:202-206 | one attempt: the StatefulSet has the replicas afterwards; Created exactly when createdAt is due |
| `MarkerOperator.CreateOrUpdateSts` | deployment/cloud/k8/data-services/rabbitmq/setup/install_commericial/cluster-operator/controllers/rabbitmqcluster_controller.go:200-207 | the same under retries; a conflict is the result only after five attempts |
| `MarkerOperator.BuildMap` | deployment/cloud/k8/data-services/rabbitmq/setup/install_commericial/cluster-operator/controllers/rabbitmqcluster_controller.go:200-216 | the pass goes on only when the config map has the content and a change of it is marked; if every call is served, it otherwise reports its failure or leaves only the marker to be written |
| `MarkerOperator.BuildSts` | deployment/cloud/k8/data-services/rabbitmq/setup/install_commericial/cluster-operator/controllers/rabbitmqcluster_controller.go:173-216 | undisturbed, the pass goes on if and only if the StatefulSet would not lose replicas, and otherwise reports its failure; in any case only when the StatefulSet is as wanted |
| `MarkerOperator.ScaleAndBuildSts` | deployment/cloud/k8/data-services/rabbitmq/setup/install_commericial/cluster-operator/controllers/rabbitmqcluster_controller.go:193-216 | the pass goes on only when scaling was answered, the StatefulSet is as wanted and its creation marked; undisturbed it always goes on |
| `MarkerOperator.BuildOther` | deployment/cloud/k8/data-services/rabbitmq/setup/install_commericial/cluster-operator/controllers/rabbitmqcluster_controller.go:200-216 | the pass goes on only when the object was made from this spec, and otherwise reports its failure |
| `MarkerOperator.RunBuilder` | deployment/cloud/k8/data-services/rabbitmq/setup/install_commericial/cluster-operator/controllers/rabbitmqcluster_controller.go:166-217 | each builder does only its own work, leaves no change unmarked, and has its object made from this spec when the pass goes on |
| `MarkerOperator.RunBuilders` | deployment/cloud/k8/data-services/rabbitmq/setup/install_commericial/cluster-operator/controllers/rabbitmqcluster_controller.go:164-217 | the pass goes on only after all builders, in order, on one spec, each with its object as wanted; the rebalance mark stays as it is |
| `MarkerModel.EveryBuilderOnce` | deployment/cloud/k8/data-services/rabbitmq/setup/install_commericial/cluster-operator/internal/resource/rabbitmq_resource_builder.go:29-48 | every builder is on the list exactly once, but for the default user secret, which is on it exactly if Vault does not keep the credentials; that of the StatefulSet is last |
| `MarkerOperator.TryRestart` | deployment/cloud/k8/data-services/rabbitmq/setup/install_commericial/cluster-operator/controllers/reconcile_rabbitmq_configurations.go:106-116 | one attempt: afterwards lastRestartAt is not earlier than the marker |
| `MarkerOperator.RestartStatefulSet` | deployment/cloud/k8/data-services/rabbitmq/setup/install_commericial/cluster-operator/controllers/reconcile_rabbitmq_configurations.go:106-121 | the same under retries: it gives up on a StatefulSet that is there only after five conflicts |
| `MarkerOperator.RestartedLaterMeans` | deployment/cloud/k8/data-services/rabbitmq/setup/install_commericial/cluster-operator/controllers/reconcile_rabbitmq_configurations.go:101 | the comparison of the two texts holds exactly if the last restart is in a strictly later second than the change |
| `MarkerOperator.RestartStatefulSetIfNeeded` | deployment/cloud/k8/data-services/rabbitmq/setup/install_commericial/cluster-operator/controllers/reconcile_rabbitmq_configurations.go:81-129 | whenever the pass may go on, it has made a restart since reading server-conf, or the last restart is strictly later than the marker, or there is no marker; undisturbed, the StatefulSet is untouched if and only if there is no marker or the last restart is strictly later, and otherwise lastRestartAt is the clock |
| `MarkerOperator.ReconcileStatus` | deployment/cloud/k8/data-services/rabbitmq/setup/install_commericial/cluster-operator/controllers/reconcile_status.go:18-51 | nothing is written when the status names the default user secret exactly if Vault does not keep the credentials, and the pass goes on only with such a status |
| `MarkerOperator.SetPluginsOnAllPods` | deployment/cloud/k8/data-services/rabbitmq/setup/install_commericial/cluster-operator/controllers/reconcile_cli.go:90-100 | success only after success on every ordinal below replicas |
| `MarkerOperator.RunSetPluginsCommand` | deployment/cloud/k8/data-services/rabbitmq/setup/install_commericial/cluster-operator/controllers/reconcile_cli.go:87-103 | by its preconditions it runs only for the spec the StatefulSet was built for and with replicas ready; by those of the removal the marker goes only after every ordinal has succeeded |
| `MarkerOperator.RunEnableFeatureFlagsCommand` | deployment/cloud/k8/data-services/rabbitmq/setup/install_commericial/cluster-operator/controllers/reconcile_cli.go:68-81 | createdAt is removed only after the command has succeeded |
| `MarkerOperator.RunQueueRebalanceCommand` | deployment/cloud/k8/data-services/rabbitmq/setup/install_commericial/cluster-operator/controllers/reconcile_cli.go:105-117 | the mark is removed only after the command has succeeded |
| `MarkerOperator.RunCommands` | deployment/cloud/k8/data-services/rabbitmq/setup/install_commericial/cluster-operator/controllers/reconcile_cli.go:45-65 | success means that no marker read beforehand is left |
| `MarkerOperator.RunCommandsUnlessRecent` | deployment/cloud/k8/data-services/rabbitmq/setup/install_commericial/cluster-operator/controllers/reconcile_cli.go:28-65 | undisturbed, the pass goes on if and only if plugins-conf exists and carries no marker younger than two seconds, and panics if and only if it does not exist |
| `MarkerOperator.RunRabbitmqCLICommandsIfAnnotated` | deployment/cloud/k8/data-services/rabbitmq/setup/install_commericial/cluster-operator/controllers/reconcile_cli.go:18-66 | the pass goes on only when nothing is left to do; undisturbed, exactly when all replicas are ready and updated and plugins-conf carries no marker younger than two seconds, and otherwise all marks stay |
| `MarkerOperator.UndisturbedPass` | deployment/cloud/k8/data-services/rabbitmq/setup/install_commericial/cluster-operator/controllers/rabbitmqcluster_controller.go:120-242 | what the builders make of the objects decides about the commands just as the objects found at the start do |
| `MarkerOperator.Finish` | deployment/cloud/k8/data-services/rabbitmq/setup/install_commericial/cluster-operator/controllers/rabbitmqcluster_controller.go:219-242 | the steps after the builders; a pass that ends here has reached every milestone, and an undisturbed one has its success stored |
| `MarkerOperator.Reconcile` | deployment/cloud/k8/data-services/rabbitmq/setup/install_commericial/cluster-operator/controllers/rabbitmqcluster_controller.go:89-243 | a finished pass has reached every milestone on one spec and has restarted the StatefulSet since the last change of server-conf; an undisturbed pass finishes if and only if Finishes holds of what it finds, and then success is stored and no marker is left; if it finds the StatefulSet rolling, it leaves a rebalance mark; if it would lose replicas or the TLS setting is not accepted, ReconcileSuccess is false |
| `MarkerOperator.Run` | deployment/cloud/k8/data-services/rabbitmq/setup/install_commericial/cluster-operator/controllers/rabbitmqcluster_controller.go:89-243 | the rules hold of the log of any number of passes under any schedule |
| `Deletion.DeletesOnlyItsOwn` | deployment/cloud/k8/data-services/rabbitmq/setup/install_commericial/cluster-operator/controllers/reconcile_finalizer.go:41-78 | under any re-creation of same-named StatefulSets and stale reads, only an incarnation controlled by this cluster is deleted, and then each pod listed in that attempt is labelled or gone |
| `Deletion.InterferenceStep` | deployment/cloud/k8/data-services/rabbitmq/setup/install_commericial/cluster-operator/controllers/reconcile_finalizer.go:58-62 | whatever comes and goes, a UID denotes one incarnation and a labelled pod does not lose its label |
| `Deletion.Server.GetSts` | deployment/cloud/k8/data-services/rabbitmq/setup/install_commericial/cluster-operator/controllers/utils.go:62-68 | a read may return any past incarnation |
| `Deletion.Server.ListPods` | deployment/cloud/k8/data-services/rabbitmq/setup/install_commericial/cluster-operator/controllers/reconcile_finalizer.go:80-92 | the pods of some moment, each once, as a cache may return them; undisturbed, those there are |
| `Deletion.Server.LabelPod` | deployment/cloud/k8/data-services/rabbitmq/setup/install_commericial/cluster-operator/controllers/reconcile_finalizer.go:94-100 | after success or NotFound the pod that was listed is labelled or gone |
| `Deletion.Server.DeleteSts` | deployment/cloud/k8/data-services/rabbitmq/setup/install_commericial/cluster-operator/controllers/reconcile_finalizer.go:63-65 | deletes only an object with the UID that was read |
| `Deletion.Server.RemoveFinalizer` | deployment/cloud/k8/data-services/rabbitmq/setup/install_commericial/cluster-operator/controllers/reconcile_finalizer.go:32-39 | success means that the finalizer is gone; it is never added |
| `Deletion.OwnStatefulSet` | deployment/cloud/k8/data-services/rabbitmq/setup/install_commericial/cluster-operator/controllers/utils.go:70-85 | succeeds exactly for a StatefulSet that has this cluster as its controller |
| `Deletion.LabelListedPods` | deployment/cloud/k8/data-services/rabbitmq/setup/install_commericial/cluster-operator/controllers/reconcile_finalizer.go:94-100 | on success every pod of the listing is labelled or gone, in order, and a pod that is gone is no failure; undisturbed, exactly the listed pods are labelled |
| `Deletion.AddDeletionLabel` | deployment/cloud/k8/data-services/rabbitmq/setup/install_commericial/cluster-operator/controllers/reconcile_finalizer.go:80-103 | on success every listed pod is labelled or gone; undisturbed, every pod is labelled and nothing else changes |
| `Deletion.DeleteOwnStatefulSet` | deployment/cloud/k8/data-services/rabbitmq/setup/install_commericial/cluster-operator/controllers/reconcile_finalizer.go:43-68 | one attempt: success only once there is no StatefulSet; undisturbed it labels all pods and deletes the StatefulSet if that is its own, and otherwise changes nothing |
| `Deletion.PrepareForDeletion` | deployment/cloud/k8/data-services/rabbitmq/setup/install_commericial/cluster-operator/controllers/reconcile_finalizer.go:41-78 | the finalizer is removed on success, also when the StatefulSet could not be deleted; that failure is a conflict only after five attempts, there are never more, and without one the StatefulSet there was is gone; undisturbed, an own StatefulSet is gone with all pods labelled |
| `Deletion.Run` | deployment/cloud/k8/data-services/rabbitmq/setup/install_commericial/cluster-operator/controllers/reconcile_finalizer.go:41-78 | every deletion in any number of passes was of an owned StatefulSet with labelled pods |
| `Conditions.ReadyMeans` | deployment/cloud/k8/data-services/rabbitmq/setup/install_commericial/cluster-operator/internal/status/all_replicas_ready.go:30-56 | AllReplicasReady is true if and only if some StatefulSet is ready and all before it are present but not ready |
| `Conditions.NotReadyMeans` | deployment/cloud/k8/data-services/rabbitmq/setup/install_commericial/cluster-operator/internal/status/all_replicas_ready.go:30-56 | it is false if and only if there are StatefulSets, all present, none ready |
| `Conditions.NotAvailableMeans` | deployment/cloud/k8/data-services/rabbitmq/setup/install_commericial/cluster-operator/internal/status/cluster_available.go:33-55 | ClusterAvailable is false if and only if there are Endpoints, all present, none with an address |
| `Conditions.AvailableMeans` | deployment/cloud/k8/data-services/rabbitmq/setup/install_commericial/cluster-operator/internal/status/cluster_available.go:33-55 | it is true if and only if some Endpoints have an address and all before them are present without one |
| `Conditions.NoWarningsMeans` | deployment/cloud/k8/data-services/rabbitmq/setup/install_commericial/cluster-operator/internal/status/no_warnings.go:28-48 | NoWarnings is true if and only if there are StatefulSets, each with equal memory request and limit |
| `Conditions.WarningMeans` | deployment/cloud/k8/data-services/rabbitmq/setup/install_commericial/cluster-operator/internal/status/no_warnings.go:28-48 | it is false if and only if some StatefulSet has a memory limit different from its request and all before it are present with equal ones |
| `Conditions.ReasonsMatch` | deployment/cloud/k8/data-services/rabbitmq/setup/install_commericial/cluster-operator/internal/status/all_replicas_ready.go:36-53 | each finding gives the reason that belongs to its status |
| `Conditions.NotReadyMessage` | deployment/cloud/k8/data-services/rabbitmq/setup/install_commericial/cluster-operator/internal/status/all_replicas_ready.go:50-53 | the message of AllReplicasReady being false counts the replicas of the last StatefulSet |
| `Conditions.AllReplicasReadyCondition` | deployment/cloud/k8/data-services/rabbitmq/setup/install_commericial/cluster-operator/internal/status/all_replicas_ready.go:22-66 | the condition is of its type and carries exactly that finding; its time is the previous one if it keeps the status, and now if it does not |
| `Conditions.ClusterAvailableCondition` | deployment/cloud/k8/data-services/rabbitmq/setup/install_commericial/cluster-operator/internal/status/cluster_available.go:25-65 | the same for ClusterAvailable |
| `Conditions.NoWarningsCondition` | deployment/cloud/k8/data-services/rabbitmq/setup/install_commericial/cluster-operator/internal/status/no_warnings.go:22-58 | the same for NoWarnings |
| `Conditions.NextIsInitialised` | deployment/cloud/k8/data-services/rabbitmq/setup/install_commericial/cluster-operator/api/v1beta1/rabbitmqcluster_status.go:84-89 | afterwards there is one condition of each type, in fixed order, whatever list there was |
| `Conditions.LastOfInitialised` | deployment/cloud/k8/data-services/rabbitmq/setup/install_commericial/cluster-operator/api/v1beta1/rabbitmqcluster_status.go:60-71 | in such a list each type is found at its place |
| `Conditions.LastMeans` | deployment/cloud/k8/data-services/rabbitmq/setup/install_commericial/cluster-operator/api/v1beta1/rabbitmqcluster_status.go:60-71 | of several conditions of a type the last one counts |
| `Conditions.NextTells` | deployment/cloud/k8/data-services/rabbitmq/setup/install_commericial/cluster-operator/api/v1beta1/rabbitmqcluster_status.go:54-90 | the recomputed list says True and False of the resources exactly as stated for each condition, keeps times with statuses, and carries over the last ReconcileSuccess |
| `Conditions.RepeatedSetChangesNothing` | deployment/cloud/k8/data-services/rabbitmq/setup/install_commericial/cluster-operator/api/v1beta1/rabbitmqcluster_status.go:54-90 | setting the conditions again from the same resources at any later time changes nothing |
| `Conditions.RabbitmqClusterStatus.SetConditions` | deployment/cloud/k8/data-services/rabbitmq/setup/install_commericial/cluster-operator/api/v1beta1/rabbitmqcluster_status.go:54-90 | afterwards each condition is True, or False, exactly if the resources are as stated for it; its time changes exactly with its status; ReconcileSuccess is the last one there was, or Initialising; transition times are those of the last change |
| `Conditions.RabbitmqClusterStatus.SetCondition` | deployment/cloud/k8/data-services/rabbitmq/setup/install_commericial/cluster-operator/api/v1beta1/rabbitmqcluster_status.go:92-101 | the first condition of the type gets exactly this status, reason and message, and a new time exactly if its status changes; nothing else changes |
| `Conditions.RabbitmqClusterStatus.Record` | deployment/cloud/k8/data-services/rabbitmq/setup/install_commericial/cluster-operator/internal/status/status.go:51-61 | a step that moves transition times exactly with statuses keeps them equal to the time of the last change over the whole history |
| `ServicePorts.AdditionalPluginEnabled` | deployment/cloud/k8/data-services/rabbitmq/setup/install_commericial/cluster-operator/api/v1beta1/rabbitmqcluster_types.go:411-418 | finds a plugin exactly when it is listed |
| `ServicePorts.PlainPorts` | deployment/cloud/k8/data-services/rabbitmq/setup/install_commericial/cluster-operator/internal/resource/service.go:118-181 | the plain ports of the listeners whose plugin is enabled |
| `ServicePorts.TLSPorts` | deployment/cloud/k8/data-services/rabbitmq/setup/install_commericial/cluster-operator/internal/resource/service.go:183-237 | the TLS ports of the listeners whose plugin is enabled, with Prometheus |
| `ServicePorts.MutualTLSPorts` | deployment/cloud/k8/data-services/rabbitmq/setup/install_commericial/cluster-operator/internal/resource/service.go:248-267 | the TLS ports of the web protocols whose plugin is enabled |
| `ServicePorts.GenerateServicePortsMap` | deployment/cloud/k8/data-services/rabbitmq/setup/install_commericial/cluster-operator/internal/resource/service.go:115-269 | the map is that of the reference definition Exposed, which says of each listener when it is published |
| `ServicePorts.PlainContainerPorts` | deployment/cloud/k8/data-services/rabbitmq/setup/install_commericial/cluster-operator/internal/resource/statefulset.go:868-917 | exactly the port mapper and the plain listeners whose plugin is enabled |
| `ServicePorts.TLSContainerPorts` | deployment/cloud/k8/data-services/rabbitmq/setup/install_commericial/cluster-operator/internal/resource/statefulset.go:919-954 | exactly the TLS listeners whose plugin is enabled |
| `ServicePorts.MutualTLSContainerPorts` | deployment/cloud/k8/data-services/rabbitmq/setup/install_commericial/cluster-operator/internal/resource/statefulset.go:956-970 | exactly the TLS web listeners whose plugin is enabled, under mutual TLS |
| `ServicePorts.UpdateContainerPorts` | deployment/cloud/k8/data-services/rabbitmq/setup/install_commericial/cluster-operator/internal/resource/statefulset.go:863-1033 | the container ports are those of the reference definition Open, each under its number |
| `ServicePorts.ReconcilePorts` | deployment/cloud/k8/data-services/rabbitmq/setup/install_commericial/cluster-operator/internal/resource/service.go:271-289 | for any existing list and any traversal order: each wanted port once, no other; retained ones first in their order; node port of the first existing port of that name, else 0 |
| `ServicePorts.UpdatePorts` | deployment/cloud/k8/data-services/rabbitmq/setup/install_commericial/cluster-operator/internal/resource/service.go:271-289 | the same for the generated ports |
| `ServicePorts.DistinctPortsAreRetained` | deployment/cloud/k8/data-services/rabbitmq/setup/install_commericial/cluster-operator/internal/resource/service.go:275-282 | a list that is already as wanted is kept whole |
| `ServicePorts.ReconciledIsFixed` | deployment/cloud/k8/data-services/rabbitmq/setup/install_commericial/cluster-operator/internal/resource/service.go:271-289 | the result is a fixed point, in whatever order the map is traversed the second time |
| `ServicePorts.UpdateService` | deployment/cloud/k8/data-services/rabbitmq/setup/install_commericial/cluster-operator/internal/resource/service.go:62-68 | the ports are the reconciled ones; for a cluster-internal Service exactly the generated ones without node ports, the retained ones first |
| `ServicePorts.ReconciledPublishes` | deployment/cloud/k8/data-services/rabbitmq/setup/install_commericial/cluster-operator/internal/resource/service.go:271-289 | reconciled ports publish exactly the exposed listeners |
| `ServicePorts.PublishedListener` | deployment/cloud/k8/data-services/rabbitmq/setup/install_commericial/cluster-operator/internal/resource/service.go:115-269 | for each listener, in terms of plugin list, secret names, Vault and disableNonTLS alone: when the Service publishes it |
| `ServicePorts.OpenListener` | deployment/cloud/k8/data-services/rabbitmq/setup/install_commericial/cluster-operator/internal/resource/statefulset.go:863-1033 | for each listener, in the same terms: when the container opens it |
| `ServicePorts.PortsAgree` | deployment/cloud/k8/data-services/rabbitmq/setup/install_commericial/cluster-operator/internal/resource/statefulset.go:336-339 | for a Service of any type: every Service port has a container port of the same name and number, and the probe port is on both, if and only if reconcileTLS accepts the setting |
| `ServicePorts.NoPlainPorts` | deployment/cloud/k8/data-services/rabbitmq/setup/install_commericial/cluster-operator/controllers/reconcile_tls.go:21-26 | for a Service of any type: with plain listeners disabled the container opens none, and the Service publishes none if and only if reconcileTLS accepts the setting |
| `ServicePorts.RejectedExample` | deployment/cloud/k8/data-services/rabbitmq/setup/install_commericial/cluster-operator/controllers/reconcile_tls.go:21-26 | a setting that reconcileTLS rejects: the Service would publish the plain Prometheus port, which the container does not open, and not the probe port |
| `SwapSorts.SortEnvVar` | deployment/cloud/k8/data-services/rabbitmq/setup/install_commericial/cluster-operator/internal/resource/statefulset.go:296-310 | the in-place loop computes Pass |
| `SwapSorts.PassPermutes` | deployment/cloud/k8/data-services/rabbitmq/setup/install_commericial/cluster-operator/internal/resource/statefulset.go:296-310 | the result is a permutation, for every list on which the code does not panic |
| `SwapSorts.PassSortsExactlyIf` | deployment/cloud/k8/data-services/rabbitmq/setup/install_commericial/cluster-operator/internal/resource/statefulset.go:294-310 | the three pod variables end at indices 0, 1 and 2 if and only if they do not start in one of three families of positions |
| `SwapSorts.UnsortedExample` | deployment/cloud/k8/data-services/rabbitmq/setup/install_commericial/cluster-operator/internal/resource/statefulset.go:294-310 | namespace, service name, another variable, name: the pass leaves the service name last |
| `SwapSorts.PassSortsEmittedOrder` | deployment/cloud/k8/data-services/rabbitmq/setup/install_commericial/cluster-operator/internal/resource/statefulset.go:683-708 | in the order in which the operator emits them they always do, wherever other variables stand |
| `SwapSorts.PassMovesPlaces` | deployment/cloud/k8/data-services/rabbitmq/setup/install_commericial/cluster-operator/internal/resource/statefulset.go:296-310 | the positions of the three variables evolve as computed on positions alone |
| `SwapSorts.SortVolumeMounts` | deployment/cloud/k8/data-services/rabbitmq/setup/install_commericial/cluster-operator/internal/resource/statefulset.go:316-326 | the in-place loop computes MountPass |
| `SwapSorts.MountPassPermutes` | deployment/cloud/k8/data-services/rabbitmq/setup/install_commericial/cluster-operator/internal/resource/statefulset.go:316-326 | the result is a permutation |
| `SwapSorts.MountPassSorts` | deployment/cloud/k8/data-services/rabbitmq/setup/install_commericial/cluster-operator/internal/resource/statefulset.go:312-326 | with one cookie mount and any persistence mounts, in any order, the cookie comes first, and a persistence mount second if and only if there is one |
| `Plugins.DesiredPlugins` | deployment/cloud/k8/data-services/rabbitmq/setup/install_commericial/cluster-operator/internal/resource/rabbitmq_plugins.go:82-94 | the loop with its map computes Dedup of required and additional plugins |
| `Plugins.DedupSound` | deployment/cloud/k8/data-services/rabbitmq/setup/install_commericial/cluster-operator/internal/resource/rabbitmq_plugins.go:87-92 | no duplicates, the same names, in the order of first occurrence |
| `Plugins.DesiredPluginsSound` | deployment/cloud/k8/data-services/rabbitmq/setup/install_commericial/cluster-operator/internal/resource/rabbitmq_plugins.go:17-21 | the required plugins first, then every additional one once, in the order of first occurrence |
| `Plugins.SplitJoin` | deployment/cloud/k8/data-services/rabbitmq/setup/install_commericial/cluster-operator/internal/resource/rabbitmq_plugins.go:96-98 | names without the separator are recovered from their joined text |
| `Plugins.TextsParseBack` | deployment/cloud/k8/data-services/rabbitmq/setup/install_commericial/cluster-operator/internal/resource/rabbitmq_plugins.go:96-103 | both the file and the command arguments read back as the desired list |
| `Plugins.TextChangesIffListChanges` | deployment/cloud/k8/data-services/rabbitmq/setup/install_commericial/cluster-operator/internal/resource/rabbitmq_plugins.go:57 | the file changes if and only if the desired list changes |
| `Annotations.ContainsMeans` | deployment/cloud/k8/data-services/rabbitmq/setup/install_commericial/cluster-operator/internal/metadata/annotation.go:43-45 | the search finds a substring exactly when there is a place for it |
| `Annotations.KubernetesMeans` | deployment/cloud/k8/data-services/rabbitmq/setup/install_commericial/cluster-operator/internal/metadata/annotation.go:43-45 | a name is one of Kubernetes exactly if it contains "kubernetes.io" or "k8s.io" |
| `Annotations.Overlay` | deployment/cloud/k8/data-services/rabbitmq/setup/install_commericial/cluster-operator/internal/metadata/annotation.go:29-33 | one map is merged, whatever the order of traversal |
| `Annotations.MergeWithFilter` | deployment/cloud/k8/data-services/rabbitmq/setup/install_commericial/cluster-operator/internal/metadata/annotation.go:22-37 | the base map itself is changed, or a new one made, to the merge of all maps |
| `Annotations.UnsetStays` | deployment/cloud/k8/data-services/rabbitmq/setup/install_commericial/cluster-operator/internal/metadata/annotation.go:28-34 | what no map sets, or the filter holds back, stays as it was |
| `Annotations.LastWins` | deployment/cloud/k8/data-services/rabbitmq/setup/install_commericial/cluster-operator/internal/metadata/annotation.go:28-34 | of several maps that set a key the last one wins |
| `Annotations.MergingAgainChangesNothing` | deployment/cloud/k8/data-services/rabbitmq/setup/install_commericial/cluster-operator/internal/metadata/annotation.go:22-37 | merging the same maps again changes nothing |
| `Annotations.SetServiceAnnotations` | deployment/cloud/k8/data-services/rabbitmq/setup/install_commericial/cluster-operator/internal/resource/service.go:291-297 | the Service gets the two merges, the second unfiltered |
| `Annotations.ServiceAnnotationComesFrom` | deployment/cloud/k8/data-services/rabbitmq/setup/install_commericial/cluster-operator/internal/resource/service.go:291-297 | spec.service wins over the cluster object, which wins over what was there; Kubernetes annotations of the cluster object are not copied |
| `Annotations.ServiceAnnotationsAreFixed` | deployment/cloud/k8/data-services/rabbitmq/setup/install_commericial/cluster-operator/internal/resource/service.go:291-297 | updating the Service again changes no annotation |
| `Annotations.RestartAnnotationStays` | deployment/cloud/k8/data-services/rabbitmq/setup/install_commericial/cluster-operator/internal/resource/statefulset.go:531-532 | lastRestartAt survives an update of the pod template unless a default annotation has its name |

## Left out

- C# applications, `main.go`, shell scripts, YAML, RBAC objects, secrets, the headless Service, Vault templates: wiring and constant data.
- `configmap.go`: its ini library is not part of this model; server-conf is one opaque text.
- Overrides applied by strategic merge patch, except the replicas override in the storage model: library semantics; the ports and sorts are modelled before and after them. `volumeClaimTemplates` overrides are excluded, so a StatefulSet has at most one claim template.
- Quantities and replicas are natural numbers, and replicas is 1 when left out; negative quantities and the 32-bit width of replicas and ports are not modelled.
- Resizing or removal of PVCs by others, and others creating a StatefulSet of the cluster's name, are excluded from the storage model; PVCs may be created by anyone.
- The storage model has no object versions: a conflict may happen at any write, but reads return the current state. Status writes play no part in it.
- StorageApi.Api.DeleteSts: deletes by name without a UID precondition, as the code does; that another writer re-creates the StatefulSet between read and deletion is excluded.
- The marker model abstracts storage scaling to a call that may fail, and to the StatefulSet disappearing at any time; the two models are proved separately.
- MarkerOperator.CreateOrUpdateSts: an update is decided by the replicas alone; other fields of the StatefulSet, and the roll-out they cause, are left to the reports of its controller.
- MarkerOperator.TryCreateOrUpdateSts: the same for one attempt.
- MarkerOperator.BuildSts: refusals of storage scaling are decided by the schedule; the storage model proves what decides them.
- MarkerOperator.ScaleAndBuildSts: storage scaling is one call here, whose effects on PVCs are in the storage model.
- MarkerOperator.Reconcile: refusals of storage scaling and unusable TLS secrets are left to the schedule, so a disturbance may end any pass, and Finishes does not mention them.
- StorageModel.EveryRunEvolves: its clause on replicas assumes a current guard read; `CachedGuard.dfy` has the exact condition without that.
- StorageOperator.Run: as StorageModel.EveryRunEvolves.
- MarkerStore.Store.ApplyOther: the objects of seven builders are known only as served calls for a spec; what they contain is wiring, or in a model of its own (Service).
- MarkerOperator.RunBuilder: likewise for these seven.
- StorageOperator.ReconcileStatefulSet: the read of the scale-down guard is current, where the source reads a cache that may be behind.
- MarkerOperator.UpdateStatusConditions: carries only the readiness condition, since the others bear on no marker; all of them are in `Conditions.dfy`.
- MarkerOperator.ReconcileTLS: whether the secrets exist and hold the right keys is decided by the schedule.
- An update that changes nothing takes a new version in the marker model, where the server keeps the old one; that only adds conflicts.
- MarkerOperator.Run: the branches for a paused or deleted cluster object are left out; deletion is modelled in `Deletion.dfy`.
- Users who write the operator's own marker annotations are excluded, except that pluginsUpdatedAt may be set by another writer at any time. Unparsable timestamps therefore do not occur.
- All timestamps carry one zone offset; a change of the operator's zone is not modelled.
- Stale reads through the client cache are modelled for deletion only; elsewhere reads are current and staleness arises between a read and the write that uses it.
- Deletion.Server.ListPods: the pods are those that match the name label, in whatever namespace, as the code selects them; the selector itself is not modelled.
- Conditions.RabbitmqClusterStatus.SetConditions: one call reads the clock once, where the code reads it up to four times. Reasons and messages are constructors instead of texts; several messages stay a list instead of being joined.
- ServicePorts.UpdateContainerPorts: the order of container ports is not stated, since only their names and numbers matter to the Service and the probe. Protocols (always TCP) and application protocols are left out.
- Plugins.DesiredPlugins: the possible aliasing of the package-level list by Go's `append` is not modelled; Dafny sequences are values.
- Waiting, back-off and event recording: retries are bounded loops without time passing of their own accord.
- `podHostNames`, `GetLabels`, `removeHeadroom` and `mergeMap`: each settled by reading its body.
