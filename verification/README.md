# A verified model of the CITA node operator

This project models the protocols of the CITA-Cloud node operator and of the command line that its Jobs run, and
proves what they keep. Everything is checked by the Dafny verifier (4.11):

    dafny verify dfyconfig.toml

The operator watches custom resources (Backup, Duplicate, Restore, Recover, BlockHeightFallback, Snapshot,
ChangeOwner, Switchover, CitaNode), creates one Job per resource, mirrors the Job's outcome into the resource's
status, and deletes the Job after a while. The Job's process stops a node, works on its data, and starts it again.
Everybody shares one API server.

## How it is modelled

* `ApiServer` is a versioned object store. Updates fail on a version conflict; any call may fail, and a write may
  commit although its caller sees an error. Between two calls other writers act, within a stated relation (`Rely`).
  A cluster keeps its whole run (all states and steps) as ghost state. Operations are proved to make the beginning
  of a script of calls, in which only the last task may have failed; safety is then proved about every run whose calls
  are such a beginning, so it holds wherever an operation is cut short. A reliable cluster refuses nothing and nobody else acts; there the
  methods also have to succeed.
* `Envelope`, `CloudConfig`, `Python`, `Helm` are the stop / work / start operations of the three node kinds, and
  `Switchover` the exchange of two nodes' accounts. The write through a shared reference inside the volume loop is
  kept as a write to a heap object (`CloudConfig.Rebind`).
* `JobWorld` is one resource, its Job, the Job's process, the timers that delete the Job, and the caches of the
  single worker, as a transition system over the whole history; `JobReconciler` is the code of the eight
  controllers, every write of which is a step of that system. `Process` runs the operations of all three node kinds
  and ties the annotations that they leave on the pod to what was measured: for a backup that is what `Behavior`'s
  backup reports of the node's data and of the vault.
* `CitaNode` is the status machine with its in-memory map; `CitaNodeRuns` its histories.
* `JobRbac` is the shared role binding under concurrent `Ensure` calls.
* `Flags`, `Decimal`, `Commands`, `Paths`, `JobSpecs` are the channel from controllers to command line: arguments
  printed and parsed back, mounts and paths, the field that all Restores share.
* `Behavior` is the data movement, over maps from paths to entries.
* `BackupRun` puts these together for one kind of resource: a Backup from its spec to the calls of its process.

Assumptions, written into the models as rules of the environment: only the operator's own timers delete Jobs; a
controller has one worker; a failed Job has a condition and a finished one no active pod; success and failure of a
Job do not change any more; caches lag but do not go back; volume names within a pod are unique; a condition
counts as changed when its type is new or its status, reason or message differs; the API server refuses a reference
to a config map without a name. Under `Quiet` no other writer
scales a workload or changes its volumes, and readiness does not rise while no replica is desired. The operator's own
CitaNode reconciler is such an other writer: it scales a stopped node up again unless the node's spec says Stopped
(`ScaledUpAgainExactly`), so `Quiet` takes nodes without a CitaNode resource, or with one that is to be stopped
(`QuietNeedsStoppedSpec`). No timer of an earlier resource of the same name is pending when a resource is created.

## Findings

Some expected properties do not hold of the code; each has its exact condition, and witnesses.

* A Backup or Duplicate of a Helm node never completes: the backup does nothing and leaves no annotation, the Job
  succeeds, and the controller fails on the missing size for ever. A resource whose Job has finished reaches its end
  if and only if it is not in that state (`Converge`, `SilentSuccess`, `ReportParses`).
* A CitaNode that is stopped and started again before it was seen to have stopped never becomes Running again: the
  status is only persisted together with a changed condition. A transition is dropped exactly when the node last
  settled in its target (`InternalDroppedExactly`, `MovesExactly`, witness `QuickRestartIsNeverRunning`).
* A stopping or stopped CitaNode can have a desired replica after a reconcile, in exactly two cases
  (`ClaimFailsExactly`): the scale-down was refused, which goes unnoticed, and the status written nevertheless
  (`SwallowedUpdateError`); or the node was to run again, was scaled up, and the status write was refused. An external
  transition is lost for good exactly if its status write is refused (`RefusedStatusLosesTransition`).
* A CitaNode becomes Running without anything seen ready, exactly if there is nothing to see: no replica in the
  StatefulSet's status, or no container in the pod's (`RunningUnseenExactly`, witnesses `RunningWithoutPod` and
  `RunningWithoutContainers`).
* Waiting for a Python node's pod asks that the pod count differs from one. No pod is left exactly if there was at
  most one (`DrainedExactly`); beside any larger number the work begins (`ManyPodsPassTheCount`).
* Removing consensus data leaves overlord's directory behind exactly when raft's was there (`OverlordSurvives`).
* A subject of another kind with the service account's name and namespace keeps the account from ever being bound
  (`BoundUnlessForeign`).
* A switchover can be complete only if both nodes have an account volume or neither has. Otherwise an account without
  a name is written, which the server refuses, and both nodes stay down (`ExchangeNeedsVolumes`, `Switch`,
  `UnfinishedLeavesBothDown`).
* A backend path leads under its mount point exactly if it is absolute and, with its dot segments resolved, still
  begins with the component that names the mount point (`MountPoint`, witnesses `ParentLeadsOut`); it is enough that
  this component names an entry and no later one is the parent directory (`StaysInsideWithoutParents`). With two
  claims, the data of a Duplicate reaches the backend's claim exactly if, besides, the mount point is not
  /backup-source, where the source is mounted, and that of a Recover exactly if it is not /restore-dest
  (`JobForDuplicate`, `JobForRecover`).
* A resource gets at most one Job exactly if no timer of an earlier resource of that name is pending when it is
  created; otherwise the timer may delete the working Job, and a second one is created
  (`OneJobPerResourceExactly`, witness `StrayTimerMakesTwo`).

The repository's README calls the CitaNode resource unavailable; main.go registers its reconciler, and the model
follows the code.

## Model

| member | source | states |
|---|---|---|
| ApiServer.WriteTouchesOneField | pkg/node/cloud_config/cloud_config_chain.go:73-101 | in every run, each committed write of ours changes one workload and in it only the desired replicas, or only the config map of the account volumes, against the state just before, whatever others did between attempts |
| ApiServer.Cluster.Update | pkg/node/cloud_config/cloud_config_chain.go:73-101 | an optimistic update commits exactly if it reports success or loses its reply, and only onto the very workload that was read; a reliable server commits it unless it is not acceptable |
| CloudConfig.Rebind | pkg/node/cloud_config/cloud_config_chain.go:82-88 | writing through the references shared by the volume copies rebinds exactly the account volumes; it fails exactly if an account volume has no config map |
| CloudConfig.Node.WriteReplicas | pkg/node/cloud_config/cloud_config_chain.go:148-170 | at most one committed write of the replicas, also after retries; none if an error without lost reply is returned; a conflict is reported after five attempts and not before; success on a reliable cluster |
| CloudConfig.Node.Stop | pkg/node/cloud_config/cloud_config_chain.go:148-170 | as above, with 0 replicas |
| CloudConfig.Node.Start | pkg/node/cloud_config/cloud_config_chain.go:282-303 | as above, with 1 replica |
| CloudConfig.Node.CheckStopped | pkg/node/cloud_config/cloud_config_chain.go:172-195 | success means that some poll saw no ready replica; every error is a timeout; on a reliable cluster a scaled-down workload succeeds, and a timeout comes after twenty polls |
| CloudConfig.Node.GetAccountConfigmap | pkg/node/cloud_config/cloud_config_chain.go:57-71 | returns the account of the workload in the store at that moment, "" if there is no account volume |
| CloudConfig.Node.UpdateAccountConfigmap | pkg/node/cloud_config/cloud_config_chain.go:73-101 | at most one committed write of the account, none on an error without lost reply, a conflict only after five attempts; on a reliable cluster it succeeds exactly if the account has a name or no volume takes it; terminates |
| CloudConfig.Node.Operate | pkg/node/cloud_config/cloud_config_chain.go:103-349 | all six operations make the calls of stop, wait, work, start (or of the work alone) up to some place, all of them on success; a task that failed is the last call, and then the operation fails; on a reliable cluster it fails only so; an error after all calls means that the reply to the start was lost; the pod gets the report of what was really backed up, or nothing |
| Python.Node.WriteReplicas | pkg/node/python/py_chain.go:182-198 | at most one committed write, in a single attempt: one update is sent at most |
| Python.Node.CheckStopped | pkg/node/python/py_chain.go:200-235 | success means that a poll saw no ready replica, and that a later count of the pods differed from one; on a reliable cluster a timeout comes after twenty polls |
| Python.Node.Operate | pkg/node/python/py_chain.go:51-302 | the same with the pod count as one more thing to see; snapshot-recover panics at once without touching the cluster, and nothing else does |
| Helm.Node.Stop | pkg/node/helm/helm_chain.go:101-118 | remembers the count it read before scaling the chain to 0 |
| Helm.Node.CheckStopped | pkg/node/helm/helm_chain.go:120-143 | success means that some poll saw no ready replica of the chain; on a reliable cluster a timeout comes after twenty polls |
| Helm.Node.Start | pkg/node/helm/helm_chain.go:171-185 | writes back the remembered count |
| Helm.Node.Operate | pkg/node/helm/helm_chain.go:51-193 | restore honours the action, fallback never does; both make the calls of their scripts, a failed task is the last call, and on a reliable cluster they fail only so; backup does nothing and the rest is not implemented |
| Helm.CountIsRestored | pkg/node/helm/helm_chain.go:75-185 | after a complete operation the chain has the count it had when read, in every quiet run |
| Helm.WorkOnlyWhenStopped | pkg/node/helm/helm_chain.go:75-164 | work begins only with no desired and no ready replica of the chain |
| Envelope.WorkOnlyWhenStopped | pkg/node/cloud_config/cloud_config_chain.go:103-349 | in every quiet run, cut short anywhere, each part of the work begins with 0 desired and 0 ready replicas; and with no pod left where pods are counted, if there was at most one at the count that ended the wait |
| Envelope.DrainedExactly | pkg/node/python/py_chain.go:213-224 | a count that ends the wait leaves no pod if and only if there was at most one |
| Envelope.ManyPodsPassTheCount | pkg/node/python/py_chain.go:213-224 | for every number of pods but one there is a run in which the work begins beside exactly that many |
| Envelope.EnvelopeOutcome | pkg/node/cloud_config/cloud_config_chain.go:103-349 | once all calls are made 1 replica is desired; if the operation ends anywhere after stopping and before the start is committed, 0 are |
| Envelope.DirectNeverWrites | pkg/node/cloud_config/cloud_config_chain.go:103-121 | with the action Direct no step of ours changes the cluster |
| Envelope.PerformTasks | pkg/node/cloud_config/cloud_config_chain.go:305-349 | the work in order: it fails exactly if a task fails, which is then the last call made; the annotations are replaced by an honest report or not at all, and on a reliable pod once there is a report there is success |
| Envelope.ScriptsWrittenOut | pkg/node/cloud_config/cloud_config_chain.go:103-349 | the calls of every operation of every kind of node, literally |
| Envelope.FollowsExactly | pkg/node/cloud_config/cloud_config_chain.go:133-146 | the calls made are a beginning of the script, or a beginning up to some task and that task's failure |
| Envelope.BackUp | pkg/node/cloud_config/cloud_config_chain.go:305-349 | the report has the size of the node's data, the vault holds that data, and the digest is that of the archive in the vault, or empty without compression |
| Envelope.TakeSnapshot | pkg/node/behavior/behavior.go:224-241 | a failing size command is ignored and reported as 0 |
| Envelope.Annotated | pkg/node/cloud_config/cloud_config_chain.go:336-349 | the annotations become the report or stay as they were; success means that they are the report |
| Envelope.Pod.Overwrite | pkg/node/cloud_config/cloud_config_chain.go:351-369 | the annotations are replaced as a whole, exactly on success or a lost reply |
| Switchover.Switch | pkg/switchover/switchover.go:36-79 | the calls made are the beginning of the ten-call script; in a process that does nothing else every state on the way is safe; success exchanges the accounts; on a reliable cluster two usable nodes succeed if and only if both have an account volume or neither has |
| Switchover.SwitchIsSafe | pkg/switchover/switchover.go:36-79 | in every state of every run, whenever two nodes hold the same account both have 0 desired and 0 ready replicas, wherever the switchover ends and whatever else happens |
| Switchover.SwitchExchanges | pkg/switchover/switchover.go:36-79 | after all ten calls the accounts are exchanged, both nodes have 1 replica, and volumes and scale of every other node are untouched |
| Switchover.SwitchTwiceRestores | pkg/switchover/switchover.go:53-78 | the accounts are exactly swapped, and swapping twice restores every volume of every node |
| Switchover.ExchangeNeedsVolumes | pkg/switchover/switchover.go:53-67 | a complete switchover implies that both nodes have an account volume or neither has, and leaves each node with the other's account |
| Switchover.UnfinishedLeavesBothDown | pkg/switchover/switchover.go:36-72 | one that ends between the second stop and the first start leaves both nodes down |
| Switchover.WithAccountReads | pkg/node/cloud_config/cloud_config_chain.go:57-88 | an account written is the account read |
| Switchover.AccountIsFirst | pkg/node/cloud_config/cloud_config_chain.go:63-69 | with unique volume names the first account volume is the account |
| Process.Conclude | pkg/common/utils.go:35-58 | an error replaces the annotations by a log whenever the pod can be updated, and fails the process in any case; a panic and a success leave them as they are; what results is a possible process |
| Process.ExecuteCloudConfig | pkg/cmd/backup.go:111-116 | the process of any operation of a cloud-config node is a possible one, makes the calls of the script, all of them if it ends well, none of which failed; on a reliable cluster it ends badly only by a failed task, and then a reliable pod shows an error log |
| Process.ExecutePython | pkg/cmd/backup.go:111-116 | the same for a Python node |
| Process.ExecuteHelm | pkg/node/helm/helm_chain.go:75-193 | the process of any operation of a Helm node is a possible one; restore and fallback make the calls of their scripts and end well only if no task failed; backup ends well and changes neither annotations nor vault |
| Process.ErrorLogExcludesSuccess | pkg/common/utils.go:35-58 | a process whose annotations were ever an error log did not end well |
| BackupRun.Run | controllers/backup_controller.go:197-364 | from the resource to the cluster: a Backup without an action, or with StopAndStart, stops, copies and starts, with Direct only copies, with anything else or an unknown deploy method fails without a call; when it ends well the vault has all of the node's data and the pod the size of that data; a Helm node is left alone |
| BackupRun.JobArguments | controllers/backup_controller.go:197-364 | the action printed is that of the spec, or StopAndStart |
| JobWorld.AtMostOneJob | controllers/backup_controller.go:106-137 | in every reachable state at most one Job was ever created; and once deletion is pending or done, no worker can create another |
| JobWorld.OneJobPerResourceExactly | controllers/ttl.go:28-44 | every run creates at most one Job if and only if no timer of an earlier resource of that name is pending at the start |
| JobWorld.StrayTimerMakesTwo | controllers/ttl.go:28-44 | the witness: the timer deletes a working Job by name, that wakes the reconciler, and a second Job is created |
| JobWorld.StatusHistory | controllers/backup_controller.go:110-190 | along every run a status only moves from blank to active to complete or failed; a terminal one is frozen with all its fields; the start time is written once |
| JobWorld.TerminalIsTrue | controllers/backup_controller.go:146-190 | Complete implies that the process ended well and the Job succeeded, with its completion time; Failed that the Job failed, with the time of its first condition and with the error log of some version of its pod's annotations; also after the Job is gone and for reconciles on stale copies; all that does not concern a status is blank |
| JobWorld.OnlyFinishedJobsAreCleaned | controllers/ttl.go:28-44 | a pending deletion only ever hits a finished Job, and such a deletion does not wake the reconciler (controllers/predicate.go:25-35) |
| JobWorld.ActualIsMeasured | controllers/duplicate_controller.go:148-171 | a completed Backup, Duplicate or Snapshot shows the size that its process measured (0 for a Snapshot whose size command failed); for a Backup or Duplicate it is the size of the node's data, every entry of which is in the vault as it is, or in the archive there; a Duplicate shows the digest of that archive, or none without compression |
| JobWorld.ErrorNeverCompletes | controllers/backup_controller.go:160-190 | annotations replaced by an error log never lead to Complete |
| JobWorld.SizeIsReported | controllers/duplicate_controller.go:158-171 | whatever version of the annotations is read, if it yields a size then it is the reported one |
| JobWorld.ReportParses | controllers/backup_controller.go:160-182 | a process that ended well left annotations whose size parses, if and only if the node is not a Helm node |
| JobWorld.SilentSuccess | pkg/node/helm/helm_chain.go:187-193 | a Backup or Duplicate of a Helm node never completes, and is never at its end once its Job has succeeded |
| JobWorld.StepKeepsInv | controllers/backup_controller.go:63-194 | every step of every actor keeps the invariant behind the rows above |
| JobReconciler.SetDefaultSpec | controllers/changeowner_controller.go:172-199 | what is not blank stays; a blank action becomes StopAndStart, and image, pull policy, ttl, uid and gid get their values, uid and gid only for a change of owner; the update flag is raised exactly if a blank that counts was filled, and for a fallback the pull policy does not count |
| JobReconciler.SetDefaultStatus | controllers/backup_controller.go:217-229 | fills phase and start time, changes nothing else, and raises the flag exactly if one was unset |
| JobReconciler.Reconciler.LookFailed | controllers/common.go:26-39 | the message of a failed Job is the log of its single pod, and the end time that of its first condition |
| JobReconciler.Reconciler.LookSucceeded | controllers/duplicate_controller.go:148-171 | size and digest come from the single pod of a successful Job |
| JobReconciler.Reconciler.Mirror | controllers/backup_controller.go:139-194 | on a reliable server, a finished Job makes the status terminal, unless it succeeded without a trace, which is an error |
| JobReconciler.Reconciler.Prepare | controllers/blockheightfallback_controller.go:63-104 | asks for a requeue only after filling blanks; goes on only with spec and status complete |
| JobReconciler.Reconciler.Attend | controllers/backup_controller.go:106-137 | schedules the deletion of a finished Job, creates a missing one, or mirrors it |
| JobReconciler.Reconciler.Reconcile | controllers/blockheightfallback_controller.go:52-164 | every write is a step of the system; asking for a requeue strictly lowers the measure of what is left to do, even when calls fail |
| JobReconciler.Reconciler.Drain | controllers/snapshot_controller.go:52-182 | requeues end by themselves, after at most as many rounds as there were things to do |
| JobReconciler.Reconciler.Converge | controllers/snapshot_controller.go:63-181 | with calls succeeding and the Job finished, at most 20 reconciles make the status Complete or Failed, if and only if it is not the succeeded Job of a Helm node's Backup, Duplicate or Snapshot |
| CitaNode.Reconciler.ReconcileStatefulSet | controllers/statefulset.go:34-80 | creates what is missing, otherwise the verdict and the write that goes with it; an update's error is returned beside the verdict |
| CitaNode.Reconciler.ReconcileAllResource | controllers/citanode_controller.go:121-157 | leaves the verdict in the map, and reports no error of the update |
| CitaNode.Reconciler.SyncStatus | controllers/citanode_controller.go:159-242 | the loops over containers and the five branches amount to one function of status, verdict and what is seen, which MovesExactly and ExternalMovesExactly spell out |
| CitaNode.Reconciler.SetStatusAndCondition | controllers/citanode_controller.go:244-265 | status and condition are persisted together, and only if the condition changes |
| CitaNode.Reconciler.Reconcile | controllers/citanode_controller.go:53-82 | for any earlier contents of the map a reconcile does exactly what the cache-free function says, to its own node only, and leaves the map's other keys alone |
| CitaNode.FindAfterSet | controllers/citanode_controller.go:257-258 | setting a condition changes that type's condition only |
| CitaNodeRuns.OneMovePerReconcile | controllers/citanode_controller.go:121-242 | whatever fails, at most one move along the fixed edges; Stopped is entered only from Stopping with the pod gone |
| CitaNodeRuns.DiffIsCleared | controllers/statefulset.go:54-79 | after a reconcile whose write gets through nothing is left to change in the StatefulSet |
| CitaNodeRuns.NoWayOutWithoutSpec | controllers/citanode_controller.go:183-242 | once the StatefulSet matches the spec, no sequence of reconciles changes anything of a node that is Upgrading or Stopped |
| CitaNodeRuns.ExternalNeverDropped | controllers/citanode_controller.go:166-181 | in every history with successful writes each externally triggered transition is persisted, with a condition that differs from the external one before |
| CitaNodeRuns.StoppedMeansScaledDown | controllers/citanode_controller.go:203-216 | in those histories Stopping and Stopped imply 0 desired replicas |
| CitaNodeRuns.StepKeepsInv | controllers/citanode_controller.go:53-82 | every edit and every reconcile with successful writes keeps the invariant behind the two rows above |
| CitaNodeRuns.ClaimFailsExactly | controllers/citanode_controller.go:140-181 | after one reconcile a stopping or stopped node has a desired replica if and only if the scale-down was refused but the status written, or a scale-up got through but its status write was refused |
| CitaNodeRuns.SwallowedUpdateError | controllers/citanode_controller.go:140-147 | told to stop, a node is persisted as Stopping, with success reported, with 0 replicas if and only if the StatefulSet's write got through |
| CitaNodeRuns.RefusedStatusLosesTransition | controllers/citanode_controller.go:258-263 | whatever the external transition, it is on record after any later reconciles if and only if its status write got through; if not, no reconcile ever brings the status it called for |
| CitaNodeRuns.ReadyIsLastSettled | controllers/citanode_controller.go:183-242 | in every history, failures included, the readiness condition is the one of the last Running, Error or Stopped |
| CitaNodeRuns.InternalDroppedExactly | controllers/citanode_controller.go:244-265 | in every pass that does not call for another status, one that creates the StatefulSet included, an internal transition is dropped if and only if the node last settled in its target; between Running and Error never |
| CitaNodeRuns.MovesExactly | controllers/citanode_controller.go:183-242 | in every history, with the StatefulSet as the spec wants it or just created: Starting becomes Running if and only if replicas and ready replicas are equal, Stopping becomes Stopped if and only if the pod is gone, Running becomes Error if and only if some listed container is not ready, Error becomes Running if and only if all are; but for the status settled in last and for calls that fail; nothing else moves; and when the reconcile reports success |
| CitaNodeRuns.ExternalMovesExactly | controllers/statefulset.go:54-79 | other containers make it Upgrading whatever the replicas, otherwise too many replicas Stopping and too few Starting; the StatefulSet becomes what the spec asks for; status and condition are persisted together unless that very condition is there |
| CitaNodeRuns.FirstMove | controllers/citanode_controller.go:103-119 | a blank node becomes Starting, and nothing else happens |
| CitaNodeRuns.EarlyEnd | controllers/citanode_controller.go:121-157 | a reconcile that does not get to the status fails, and at most creates the StatefulSet |
| CitaNodeRuns.LastSettledExactly | controllers/citanode_controller.go:244-265 | what the status settled in last means, as positions in the history |
| CitaNodeRuns.SettlingWrittenOut | controllers/citanode_controller.go:189-241 | type, status, reason and message of the condition for each of Running, Error and Stopped |
| CitaNodeRuns.QuickRestartIsNeverRunning | controllers/citanode_controller.go:183-201 | the witness: stopped and restarted before settling, a node stays Starting for any sequence of reconciles |
| CitaNodeRuns.RunningUnseenExactly | controllers/citanode_controller.go:189-241 | whatever fails, a node becomes Running without a ready replica seen if and only if there is no replica, and from Error without a ready container seen if and only if no container is listed |
| CitaNodeRuns.RunningWithoutPod | controllers/citanode_controller.go:189-200 | the first of these happens to a fresh StatefulSet |
| CitaNodeRuns.RunningWithoutContainers | controllers/citanode_controller.go:222-241 | the second happens to a pod just replaced |
| CitaNodeRuns.ScaledUpAgainExactly | controllers/statefulset.go:54-79 | a StatefulSet scaled to 0 by others is scaled up by the next reconcile unless the spec says Stopped |
| CitaNodeRuns.QuietNeedsStoppedSpec | controllers/statefulset.go:54-79 | the reconciler keeps to what an operation on a stopped node relies on only if the spec says Stopped |
| JobRbac.SubjectsOnlyGrow | controllers/job_rbac.go:108-144 | under any interleaving of Ensure calls every version of the subject list begins with all versions before it |
| JobRbac.NeverDuplicated | controllers/job_rbac.go:119-137 | no version names an account twice, if the first does not |
| JobRbac.OnceBoundForever | controllers/job_rbac.go:108-144 | a subject once there is in every later state |
| JobRbac.BoundUnlessForeign | controllers/job_rbac.go:120-124 | the service account itself is bound if and only if the original binding had it or did not use its name and namespace at all |
| JobRbac.JobRbac.EnsureServiceAccount | controllers/job_rbac.go:66-85 | success means that the account exists |
| JobRbac.JobRbac.EnsureRole | controllers/job_rbac.go:87-106 | success means that the role exists |
| JobRbac.JobRbac.EnsureRoleBinding | controllers/job_rbac.go:108-144 | success means that the present list names the account, also when a stale version was read |
| JobRbac.JobRbac.Ensure | controllers/job_rbac.go:50-64 | all of the above, said of name and namespace of the subjects; on a reliable server it adds exactly what is missing |
| Flags.FlagSet.Parse | pkg/cmd/backup.go:55-64 | the parsing loop equals the recursive definition of long-flag parsing, errors and partial results included |
| Flags.ParsePrinted | pkg/cmd/fallback.go:57-65 | parsing printed settings yields exactly those values and the defaults for the rest, whatever the texts are |
| Flags.ParseEquals | pkg/cmd/backup.go:55-64 | a value after an equals sign is taken like one in the next argument, which is then left alone; one that cannot be read is an error |
| Decimal.ParseFormatted | controllers/blockheightfallback_controller.go:460 | printing and parsing an int64 is the identity, with and without base detection |
| Decimal.DetectionAgrees | pkg/cmd/fallback.go:62 | the two parsers agree on every text without a leading zero |
| Commands.BackupRoundTrip | controllers/backup_controller.go:357-364 | a Backup's arguments are understood as its target with the default paths and no compression |
| Commands.DuplicateRoundTrip | controllers/duplicate_controller.go:320-345 | a Duplicate's arguments are understood as meant; the output is the file named or the resource's name |
| Commands.RestoreFileRoundTrip | controllers/restore_controller.go:463-484 | a Restore's arguments are understood as meant, with the default paths |
| Commands.RecoverRoundTrip | controllers/recover_controller.go:246-264 | a Recover's arguments are understood as meant, with empty digest and file passed on |
| Commands.SnapshotRoundTrip | controllers/snapshot_controller.go:423-448 | heights of all int64 values survive; an omitted crypto is understood as sm, and an empty consensus stays empty |
| Commands.SnapshotRecoverRoundTrip | controllers/restore_controller.go:486-540 | the same for snapshot-recover |
| Commands.FallbackRoundTrip | controllers/blockheightfallback_controller.go:451-505 | the same for fallback |
| Commands.ChownRoundTrip | controllers/changeowner_controller.go:289-298 | uid and gid of all int64 values survive |
| Commands.OmittedFlags | pkg/cmd/chown.go:50-56 | without their flags, the action is StopAndStart and uid and gid are 1000 |
| Commands.SwitchoverRoundTrip | controllers/switchover_controller.go:241-247 | both node names survive, whatever they are |
| Commands.Registry.constructor | pkg/node/node.go:27-41 | the three registrations leave exactly the three deploy methods, each with its kind of node |
| Commands.Registry.CreateNode | pkg/node/node.go:35-41 | a node for a registered deploy method, an error otherwise |
| Commands.Dispatch | pkg/cmd/fallback.go:68-110 | a command gets to a node if and only if deploy method and action are known, although fallback does not check the first; helm, python and cloud-config lead to their kinds of node, StopAndStart and Direct to their actions |
| Paths.JoinSplit | controllers/utils.go:31-37 | joining undoes splitting |
| Paths.SplitJoin | controllers/utils.go:31-37 | splitting undoes joining, for parts without slashes |
| Paths.MountPoint | controllers/utils.go:31-37 | a path has a mount point if and only if it has a slash; the mount point is a slash and one component; the path leads under it if and only if it is absolute and, dot segments resolved, still begins with that component |
| Paths.StaysInsideWithoutParents | controllers/utils.go:31-37 | for which it is enough that the component names an entry and no later one is the parent directory |
| Paths.ParentLeadsOut | controllers/utils.go:31-37 | the witnesses: a path through the parent directory to any other entry is absolute and leads out of its mount point |
| Paths.CleanLeadsThere | controllers/duplicate_controller.go:331 | a cleaned path leads where the path leads, through proper components only |
| Paths.JoinUnderMount | controllers/duplicate_controller.go:331 | the node's directory lies under the mount point if and only if the mount point names an entry and the node is not the parent directory |
| JobSpecs.JobForDuplicate | controllers/duplicate_controller.go:229-345 | when there is a Job; what its arguments are understood as; and, as an if-and-only-if on the backend path, that the mounts can be made and source and destination path lead into declared volumes of the right claims, with one claim and with two |
| JobSpecs.FindDataDir | controllers/duplicate_controller.go:239-245 | the claim of the volume at the least index that has the name; None if there is none |
| JobSpecs.DataDirClaimIsFirst | controllers/duplicate_controller.go:239-245 | that determines the claim |
| JobSpecs.SourceClaimExactly | controllers/duplicate_controller.go:229-250 | the claim of the node's data: for python that of the first volume called datadir, unless empty; otherwise datadir-NAME-0 |
| JobSpecs.JobForRecover | controllers/recover_controller.go:205-321 | the same for a Recover |
| JobSpecs.FilterCryptoAndConsensus | controllers/blockheightfallback_controller.go:355-375 | crypto is what the last container called crypto or kms says whose image has sm or eth in it, sm before eth; consensus the same of containers called consensus, with bft before raft before overlord |
| JobSpecs.LastSaidOnSlices | controllers/blockheightfallback_controller.go:355-375 | a result that is not empty is a slice of the image of a container of those names, no word before it in the order is one, and no later container of those names has any of the words; it is empty if and only if none has |
| JobSpecs.RestoreReconciler.JobForRestore | controllers/restore_controller.go:228-331 | the Job of a Restore from a backup, its arguments as understood, its source path in the backup's claim and its destination path in the claim datadir-NAME-0 of a cloud-config node, in the empty one of others |
| JobSpecs.RestoreReconciler.JobForSnapshotRecover | controllers/restore_controller.go:333-461 | the height is the one in the shared field; for a cloud-config node crypto and consensus are those its images say, sm if they say no crypto; source and destination are in the snapshot's and the node's claims |
| JobSpecs.RestoreReconciler.Reconcile | controllers/restore_controller.go:51-151 | whatever other Restores left in the shared field, the height in the Job is that of the Snapshot this call read; the field is set whenever it is used; when both sources are named the snapshot wins |
| Behavior.PlainRoundTrip | pkg/node/behavior/behavior.go:91-115 | restoring a plain backup leaves the rest alone, and restores the source's data exactly if and only if the vault held nothing the source lacks |
| Behavior.ArchiveRoundTrip | pkg/node/behavior/behavior.go:137-176 | extracting an archive, listed in any order with directories first, leaves the rest alone and restores what is not passed over |
| Behavior.ModesAgreeExactly | pkg/node/behavior/behavior.go:91-196 | extracting an archive and copying back a plain backup give the same tree at any destination, if and only if no part of a path under data or chain_data has "__MACOSX" as a slice |
| Behavior.MakeDirsExactly | pkg/common/utils.go:103-110 | making a directory with its parents fails exactly if a file is in the way, and adds exactly those that are missing |
| Behavior.OverlordSurvives | pkg/node/behavior/behavior.go:198-222 | of the two directories raft's goes with everything below it, overlord's only if raft's was not there, and nothing else does |
| Behavior.BaseExactly | pkg/node/behavior/behavior.go:144-176 | what a restore leaves of its destination before it copies or extracts, entry by entry |
| Behavior.FilesFromDisk | pkg/common/utils.go:60-84 | every tree with both directories has a listing, and none without |
| Behavior.Behavior.Copy | pkg/node/behavior/behavior.go:104-112 | copying merges both directories over what is there, and fails on clashes |
| Behavior.Behavior.Archive | pkg/common/utils.go:60-84 | one file is added that lists the two directories |
| Behavior.Behavior.Backup | pkg/node/behavior/behavior.go:66-115 | reports the size of the source and the digest of the archive; succeeds exactly when it can, commands permitting |
| Behavior.Behavior.RemoveConsensusData | pkg/node/behavior/behavior.go:198-222 | removes one of the two directories at most |
| Behavior.Behavior.UnArchive | pkg/common/utils.go:86-134 | the loop over the entries equals the fold of single extractions |
| Behavior.Behavior.Restore | pkg/node/behavior/behavior.go:137-196 | a digest that is asked for and not matched leaves the destination untouched; otherwise a success determines the result, copied or extracted over what stays |
| Behavior.Behavior.BackupThenRestore | pkg/node/behavior/behavior.go:66-196 | at any destination, backup and restore bring back every path under data and chain_data as it was, except that an archive loses exactly those with "__MACOSX" in a part; every other path stays; digest check included; it succeeds whenever both directories are there, the size is an int64 and the archive can be made |

## Left out

- Manager setup, client configuration, logging, event recording, and the wiring of commands: plumbing over libraries.
- Literals of pods, volumes, containers, services, config maps, labels and affinity, beyond the fields named above.
- JobSpecs.JobForDuplicate: volumes that hold configuration, and the Job's metadata, are not modelled.
- Internals of cloud-op, du, chown, MD5, tar and gzip: uninterpreted, or as map operations; file modes and owners, symbolic links, and archive names with dot segments are not modelled. The arguments built for cloud-op are constant lists.
- Behavior.Behavior.Backup: source and destination are separate volumes; two directories of one claim are taken as such.
- Flags.FlagSet.Parse: short flags are only recognised as an error, and "--help" is an unknown flag; no controller prints either.
- Decimal.ParseFormatted: underscores between digits, which base detection admits, are not modelled; no printer produces them.
- Wall-clock time: timers fire at some later step, and polling is twenty rounds.
- ApiServer.Cluster.Update: Deployments and StatefulSets share one map of names, of one namespace.
- JobWorld.AtMostOneJob: resources of different kinds with the same name, whose Jobs would share a name, are not modelled; nor is a Job of an earlier resource that still exists, nor a cache that goes back when the operator restarts.
- JobReconciler.Reconciler.Converge: a claim that is created before the Job, but whose Job then cannot be created, is met again as an existing claim; a reliable server excludes that.
- JobWorld.SilentSuccess: the kind of node is fixed per resource; an edit that changes the deploy method between two Jobs is not modelled, as there is at most one Job.
- CitaNode.Reconciler.Reconcile: the node is read as it is stored, not through a lagging cache; a stale copy shows as a refused write.
- CitaNodeRuns.ExternalNeverDropped: deletion of the StatefulSet by others, and other scalers, are excluded.
- Python account methods, most Helm methods and Python snapshot-recover panic in the original; the destinations that Restore and Recover mark as todo for other deploy methods stay the empty claim.
- Config maps, services and log configuration of a CitaNode: one flag says whether they could be reconciled.
