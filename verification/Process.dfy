/** The process a Job runs, seen from the cluster: the annotations its pod has carried, and its exit. */
module Process {
  import opened Wrappers
  import opened Envelope
  import CloudConfig
  import Helm
  import Python

  const ERROR_LOG := "err-log"

  datatype Process = Process(
    versions: seq<Annotations>,  // all annotations the pod has carried, oldest first
    report: Option<Report>,      // what the work measured, once it did
    exit: Option<bool>)          // whether the process ended well, once it ended

  predicate IsErrorLog(a: Annotations) {
    a.Keys == {ERROR_LOG}
  }

  predicate HasNoSize(a: Annotations) {
    "backup-size" !in a && "snapshot-size" !in a
  }

  /** An operation that leaves its report on the pod. A Helm node's backup succeeds without doing anything. */
  predicate LeavesReport(kind: NodeKind, op: Operation) {
    Reports(op) && kind != HelmNode
  }

  /** What the process of an operation can look like at any moment. */
  predicate Possible(setup: Setup, kind: NodeKind, op: Operation, p: Process) {
    && |p.versions| > 0 && HasNoSize(p.versions[0])
    && (forall i :: 1 <= i < |p.versions| ==>
          IsErrorLog(p.versions[i]) || (p.report.Some? && p.versions[i] == Notes(op, p.report.value)))
    && (p.report.Some? ==> LeavesReport(kind, op) && Honest(setup, op, p.report.value))
    && (p.exit == Some(true) ==> EndedWell(kind, op, p))
  }

  predicate EndedWell(kind: NodeKind, op: Operation, p: Process)
    requires |p.versions| > 0
  {
    && Implemented(kind, op)
    && if LeavesReport(kind, op) then p.report.Some? && p.versions == [p.versions[0]] + [Notes(op, p.report.value)]
       else p.versions == [p.versions[0]]
  }

  /** A process only adds versions, measures once, and ends once. */
  predicate Continues(p: Process, q: Process) {
    && p.versions <= q.versions
    && (p.report.Some? ==> q.report == p.report)
    && (p.exit.Some? ==> q == p)
  }

  /** How the command line ends, after the operation has: an error replaces the annotations by a log, when the pod
   *  can be updated, and fails the process in any case; a panic leaves no log. */
  method Conclude(ghost setup: Setup, kind: NodeKind, op: Operation, pod: Pod, r: Outcome, report: Option<Report>,
                  ghost before: seq<Annotations>)
    returns (ok: bool, ghost p: Process)
    requires pod.Valid() && |before| == 1 && HasNoSize(before[0])
    requires Reported(before, pod.versions, op, report)
    requires report.Some? ==> LeavesReport(kind, op) && Honest(setup, op, report.value)
    requires r.Success? ==>
               && Implemented(kind, op)
               && (LeavesReport(kind, op) ==> report.Some? && pod.versions == before + [Notes(op, report.value)])
    modifies pod
    ensures pod.Valid() && ok == r.Success?
    ensures ok || r == Failure(Panicked) ==> pod.versions == old(pod.versions)
    ensures pod.versions == old(pod.versions) || old(pod.versions) + [pod.annotations] == pod.versions
    ensures pod.versions != old(pod.versions) ==> pod.annotations.Keys == {"err-log"}
    ensures pod.reliable && !ok && r != Failure(Panicked) ==> pod.versions != old(pod.versions)
    ensures p == Process(pod.versions, report, Some(ok)) && Possible(setup, kind, op, p)
  {
    ok := r.Success?;
    if !ok && r != Failure(Panicked) {
      var message: string := *;
      var logged := pod.Overwrite(map[ERROR_LOG := message]);
    }
    p := Process(pod.versions, report, Some(ok));
  }

  method ExecuteCloudConfig(node: CloudConfig.Node, op: Operation, action: Action, data: Data, pod: Pod)
    returns (ok: bool, ghost p: Process)
    requires node.api.Valid() && pod.Valid() && IsSound(data)
    requires |pod.versions| == 1 && HasNoSize(pod.annotations)
    modifies node.api, pod, data.dest
    ensures p.versions == pod.versions && p.exit == Some(ok) && Possible(SetupOf(data), CloudConfigNode, op, p)
    ensures p.report.Some? ==> p.report.value.vault == data.dest.tree
    ensures Follows(Script(action, node.name, CloudConfigNode, op), old(node.api.calls), node.api.calls)
    ensures ok ==> node.api.calls == old(node.api.calls) + Script(action, node.name, CloudConfigNode, op)
    ensures forall i :: && |old(node.api.calls)| <= i < |node.api.calls|
                        && node.api.calls[i].Work? && !node.api.calls[i].ok
                        ==> !ok && i == |node.api.calls| - 1
    ensures node.api.reliable && node.name in old(node.api.store).objects && !ok ==>
              && |node.api.calls| > |old(node.api.calls)|
              && node.api.calls[|node.api.calls| - 1].Work? && !node.api.calls[|node.api.calls| - 1].ok
    ensures pod.Valid()
    ensures pod.reliable && !ok ==> pod.annotations.Keys == {"err-log"}
  {
    ghost var setup, before := SetupOf(data), pod.versions;
    var r, report := node.Operate(op, action, data, pod);
    ok, p := Conclude(setup, CloudConfigNode, op, pod, r, report, before);
  }

  method ExecutePython(node: Python.Node, op: Operation, action: Action, data: Data, pod: Pod)
    returns (ok: bool, ghost p: Process)
    requires node.api.Valid() && pod.Valid() && IsSound(data)
    requires |pod.versions| == 1 && HasNoSize(pod.annotations)
    modifies node.api, pod, data.dest
    ensures p.versions == pod.versions && p.exit == Some(ok) && Possible(SetupOf(data), PythonNode, op, p)
    ensures p.report.Some? ==> p.report.value.vault == data.dest.tree
    ensures Follows(Script(action, node.name, PythonNode, op), old(node.api.calls), node.api.calls)
    ensures ok ==> node.api.calls == old(node.api.calls) + Script(action, node.name, PythonNode, op)
    ensures forall i :: && |old(node.api.calls)| <= i < |node.api.calls|
                        && node.api.calls[i].Work? && !node.api.calls[i].ok
                        ==> !ok && i == |node.api.calls| - 1
    ensures node.api.reliable && node.name in old(node.api.store).objects && !op.SnapshotRecover? && !ok ==>
              && |node.api.calls| > |old(node.api.calls)|
              && node.api.calls[|node.api.calls| - 1].Work? && !node.api.calls[|node.api.calls| - 1].ok
    ensures pod.Valid()
    ensures pod.reliable && !op.SnapshotRecover? && !ok ==> pod.annotations.Keys == {"err-log"}
  {
    ghost var setup, before := SetupOf(data), pod.versions;
    var r, report := node.Operate(op, action, data, pod);
    ok, p := Conclude(setup, PythonNode, op, pod, r, report, before);
  }

  /** The process of a Helm node's backup always ends well, and leaves the annotations as they were. */
  method ExecuteHelm(node: Helm.Node, op: Operation, action: Action, data: Data, pod: Pod)
    returns (ok: bool, ghost p: Process, ghost count: int)
    requires node.api.Valid() && pod.Valid() && IsSound(data)
    requires |pod.versions| == 1 && HasNoSize(pod.annotations)
    modifies node, node.api, pod, data.dest
    ensures p.versions == pod.versions && p.exit == Some(ok) && Possible(SetupOf(data), HelmNode, op, p)
    ensures op.Backup? ==> ok && p.versions == old(pod.versions) && data.dest.tree == old(data.dest.tree)
    ensures op.Backup? ==> node.api.run == old(node.api.run)
    ensures op.ChangeOwner? || op.Snapshot? || op.SnapshotRecover? ==> !ok && node.api.run == old(node.api.run)
    ensures op.Restore? && action.Direct? ==>
              && Follows(Works(op), old(node.api.calls), node.api.calls)
              && (ok ==> node.api.calls == old(node.api.calls) + Works(op))
    ensures op.Fallback? || (op.Restore? && action.StopAndStart?) ==>
              && Follows(HelmScript(node.chain, count, op), old(node.api.calls), node.api.calls)
              && (ok ==> node.api.calls == old(node.api.calls) + HelmScript(node.chain, count, op))
    ensures forall i :: && |old(node.api.calls)| <= i < |node.api.calls|
                        && node.api.calls[i].Work? && !node.api.calls[i].ok
                        ==> !ok && i == |node.api.calls| - 1
    ensures node.api.reliable && node.chain in old(node.api.store).objects && (op.Restore? || op.Fallback?) && !ok ==>
              && |node.api.calls| > |old(node.api.calls)|
              && node.api.calls[|node.api.calls| - 1].Work? && !node.api.calls[|node.api.calls| - 1].ok
    ensures pod.Valid()
    ensures pod.reliable && (op.Restore? || op.Fallback?) && !ok ==> pod.annotations.Keys == {"err-log"}
  {
    ghost var setup, before := SetupOf(data), pod.versions;
    var r;
    r, count := node.Operate(op, action, data, pod);
    assert Reported(before, pod.versions, op, None);
    ghost var calls, run := node.api.calls, node.api.run;
    ok, p := Conclude(setup, HelmNode, op, pod, r, None, before);
    assert node.api.calls == calls && node.api.run == run;
  }

  /** An error path that overwrote the annotations cannot end in success. */
  lemma ErrorLogExcludesSuccess(setup: Setup, kind: NodeKind, op: Operation, p: Process, i: nat)
    requires Possible(setup, kind, op, p) && 1 <= i < |p.versions| && IsErrorLog(p.versions[i])
    ensures p.exit != Some(true)
  {
  }
}
