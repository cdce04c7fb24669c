/** The stop / work / start envelope around every destructive operation: what a node may do to the
 *  cluster, in which order, and what that order guarantees in every run.
 */
module Envelope {
  import opened Wrappers
  import opened ApiServer
  import opened Decimal
  import Behavior

  datatype Action = StopAndStart | Direct

  datatype Operation = ChangeOwner | Restore | Fallback | Snapshot | SnapshotRecover | Backup

  /** What does the damage; the others prepare, clean up or report. */
  function MainTask(op: Operation): Task {
    match op
    case ChangeOwner => RunChown
    case Restore => RunRestore
    case Fallback => RunFallback
    case Snapshot => RunSnapshot
    case SnapshotRecover => RunRecover
    case Backup => RunBackup
  }

  /** The work of an operation in which every task succeeds. */
  function Works(op: Operation): seq<Call> {
    match op
    case Backup => [Work(MakeDir, true), Work(RunBackup, true), Work(Annotate, true)]
    case Snapshot => [Work(RunSnapshot, true), Work(Annotate, true)]
    case SnapshotRecover => [Work(RunRecover, true), Work(RunChown, true)]
    case _ => [Work(MainTask(op), true)]
  }

  predicate Reports(op: Operation) {
    op.Backup? || op.Snapshot?
  }

  /** The kind's node does something for this operation, be it nothing; the others panic. */
  predicate Implemented(kind: NodeKind, op: Operation) {
    match kind
    case CloudConfigNode => true
    case PythonNode => !op.SnapshotRecover?
    case HelmNode => op.Restore? || op.Fallback? || op.Backup?
  }

  /** What waiting for a node of that kind has to see. */
  function Sights(kind: NodeKind, n: Name): seq<Call> {
    if kind == PythonNode then [SawStopped(n), SawDrained(n)] else [SawStopped(n)]
  }

  /** The calls before the work, and after it. */
  function Opening(action: Action, n: Name, kind: NodeKind): seq<Call> {
    if action == StopAndStart then [Scale(n, 0)] + Sights(kind, n) else []
  }

  function Closing(action: Action, n: Name): seq<Call> {
    if action == StopAndStart then [Scale(n, 1)] else []
  }

  /** The calls of a complete operation on node n. */
  function Script(action: Action, n: Name, kind: NodeKind, op: Operation): seq<Call> {
    Opening(action, n, kind) + Works(op) + Closing(action, n)
  }

  function HelmOpening(chain: Name, count: int): seq<Call> {
    [ReadScale(chain, count), Scale(chain, 0), SawStopped(chain)]
  }

  /** The calls of a complete Helm operation: the count it found is the count it restores. */
  function HelmScript(chain: Name, count: int, op: Operation): seq<Call> {
    HelmOpening(chain, count) + Works(op) + [Scale(chain, count)]
  }

  /** The scripts, written out. */
  lemma ScriptsWrittenOut(n: Name, count: int, kind: NodeKind, works: seq<Call>, op: Operation)
    requires works == match op
                      case ChangeOwner => [Work(RunChown, true)]
                      case Restore => [Work(RunRestore, true)]
                      case Fallback => [Work(RunFallback, true)]
                      case Snapshot => [Work(RunSnapshot, true), Work(Annotate, true)]
                      case SnapshotRecover => [Work(RunRecover, true), Work(RunChown, true)]
                      case Backup => [Work(MakeDir, true), Work(RunBackup, true), Work(Annotate, true)]
    ensures Script(Direct, n, kind, op) == works
    ensures Script(StopAndStart, n, CloudConfigNode, op) == [Scale(n, 0), SawStopped(n)] + works + [Scale(n, 1)]
    ensures Script(StopAndStart, n, PythonNode, op) ==
            [Scale(n, 0), SawStopped(n), SawDrained(n)] + works + [Scale(n, 1)]
    ensures HelmScript(n, count, op) ==
            [ReadScale(n, count), Scale(n, 0), SawStopped(n)] + works + [Scale(n, count)]
  {
    assert Works(op) == works;
  }

  /***** What an operation reports *****/

  /** What a backup works on, and with. */
  datatype Data = Data(
    behavior: Behavior.Behavior, source: Behavior.Volume, dest: Behavior.Volume, options: Behavior.CompressOptions)

  ghost predicate IsSound(d: Data)
    reads d.source
  {
    d.source != d.dest && Behavior.WellFormed(d.source.tree)
  }

  /** The same as values: the digest of a file, the size of a directory, the node's data, how to back it up. */
  datatype Setup = Setup(
    md5: Behavior.Content -> string,
    usage: Behavior.Tree -> Option<int>,
    source: Behavior.Tree,
    options: Behavior.CompressOptions)

  function SetupOf(d: Data): Setup
    reads d.source
  {
    Setup(d.behavior.md5, d.behavior.usage, d.source.tree, d.options)
  }

  /** Size of what was copied, the digest, what the size command really said, and where the copy is. */
  datatype Report = Report(size: int, md5: string, usage: Option<int>, vault: Behavior.Tree)

  /** The vault holds the node's data, as an archive with that digest, or as it is and without a digest. */
  predicate HoldsBackup(setup: Setup, vault: Behavior.Tree, md5: string) {
    if setup.options.enable then
      && Behavior.HoldsArchive(vault, setup.options.output, setup.source)
      && md5 == setup.md5(vault[setup.options.output].content)
    else
      && md5 == ""
      && (forall p <- Behavior.Selection(setup.source) :: p in vault && vault[p] == setup.source[p])
  }

  /** A backup fails with its size command; a snapshot ignores that error and reports zero. A backup has measured
   *  the node's data, and it has been made. */
  predicate Honest(setup: Setup, op: Operation, report: Report) {
    && IsInt64(report.size)
    && (report.usage.Some? ==> report.size == report.usage.value)
    && (report.usage.None? ==> op.Snapshot? && report.size == 0)
    && (op.Backup? ==> report.usage == setup.usage(setup.source) && HoldsBackup(setup, report.vault, report.md5))
  }

  type Annotations = map<string, string>

  function Notes(op: Operation, report: Report): Annotations {
    if op.Snapshot? then map["snapshot-size" := FormatInt(report.size)]
    else map["backup-size" := FormatInt(report.size), "md5" := report.md5]
  }

  /** The pod this process runs in; its annotations are replaced wholesale. Reliable: it can be updated. */
  class Pod {
    const reliable: bool
    var annotations: Annotations
    ghost var versions: seq<Annotations>  // every version the API server has held

    ghost predicate Valid()
      reads this
    {
      versions != [] && versions[|versions| - 1] == annotations
    }

    constructor (reliable: bool, annotations: Annotations)
      ensures Valid() && this.reliable == reliable && versions == [annotations]
    {
      this.reliable := reliable;
      this.annotations := annotations;
      this.versions := [annotations];
    }

    /** Get, overwrite, update once: AddAnnotations and the error path alike. */
    method Overwrite(annotations: Annotations) returns (r: Outcome)
      requires Valid()
      modifies this
      ensures Valid()
      ensures r.Success? || r == Failure(LostReply) ==> versions == old(versions) + [annotations]
      ensures r.Failure? && r.error != LostReply ==> versions == old(versions)
      ensures reliable ==> r.Success?
      ensures r != Failure(Panicked)
    {
      var fault: bool := *;
      if fault && !reliable { return Failure(Refused); }
      this.annotations := annotations;
      versions := versions + [annotations];
      var lost: bool := *;
      r := if lost && !reliable then Failure(LostReply) else Success;
    }
  }

  /** The script has the work of the operation at place p. */
  ghost predicate WorksAt(script: seq<Call>, op: Operation, p: nat) {
    && p + |Works(op)| <= |script|
    && (forall i :: 0 <= i < |Works(op)| ==> script[p + i] == Works(op)[i])
  }

  lemma ScriptShape(opening: seq<Call>, op: Operation, closing: seq<Call>, script: seq<Call>)
    requires script == opening + Works(op) + closing
    ensures |script| == |opening| + |Works(op)| + |closing|
    ensures forall i :: 0 <= i < |opening| ==> script[i] == opening[i]
    ensures WorksAt(script, op, |opening|)
    ensures closing != [] ==> script[|opening| + |Works(op)|] == closing[0]
  {
  }

  /** From before to now, the calls made are the beginning of the script. */
  ghost predicate Begins(script: seq<Call>, before: seq<Call>, now: seq<Call>) {
    && |before| <= |now| <= |before| + |script|
    && (forall i :: 0 <= i < |before| ==> now[i] == before[i])
    && (forall i :: |before| <= i < |now| ==> now[i] == script[i - |before|])
  }

  lemma BeginsNext(script: seq<Call>, before: seq<Call>, mid: seq<Call>, now: seq<Call>, p: nat)
    requires Begins(script, before, mid) && |mid| == |before| + p
    requires p < |script| && now == mid + [script[p]]
    ensures Begins(script, before, now) && |now| == |before| + p + 1
  {
  }

  lemma BeginsIsPrefix(script: seq<Call>, before: seq<Call>, now: seq<Call>)
    ensures Begins(script, before, now) <==> before <= now <= before + script
  {
  }

  /** The calls made are a beginning of the script, and then one task failed that the script has there. */
  ghost predicate Fails(script: seq<Call>, before: seq<Call>, now: seq<Call>) {
    && |before| < |now| <= |before| + |script|
    && Begins(script, before, now[..|now| - 1])
    && now[|now| - 1].Work? && !now[|now| - 1].ok
    && script[|now| - 1 - |before|] == Work(now[|now| - 1].task, true)
  }

  /** What is made of the script, in whichever way it ends. */
  ghost predicate Follows(script: seq<Call>, before: seq<Call>, now: seq<Call>) {
    Begins(script, before, now) || Fails(script, before, now)
  }

  /** The script up to some place, and all of it on success; or up to a task, and that task's failure. */
  lemma FollowsExactly(script: seq<Call>, before: seq<Call>, now: seq<Call>)
    ensures Follows(script, before, now) <==>
            || before <= now <= before + script
            || (exists p :: 0 <= p < |script| && script[p].Work? && script[p].ok &&
                            now == before + script[..p] + [Work(script[p].task, false)])
  {
    if Fails(script, before, now) {
      var p := |now| - 1 - |before|;
      assert now == before + script[..p] + [Work(script[p].task, false)];
    }
    if p :| 0 <= p < |script| && script[p].Work? && script[p].ok &&
            now == before + script[..p] + [Work(script[p].task, false)] {
      assert now[..|now| - 1] == before + script[..p];
    }
  }

  /** In a script every task succeeds; so only the last of the calls made can be a task's failure. */
  lemma OnlyTheLastFails(script: seq<Call>, before: seq<Call>, now: seq<Call>)
    requires Follows(script, before, now)
    requires forall i :: 0 <= i < |script| && script[i].Work? ==> script[i].ok
    ensures forall i :: |before| <= i < |now| && now[i].Work? && !now[i].ok ==>
              i == |now| - 1 && Fails(script, before, now) && !Begins(script, before, now)
    ensures Begins(script, before, now) && |now| == |before| + |script| ==> now == before + script
  {
  }

  lemma WorksSucceed(op: Operation)
    ensures forall i :: 0 <= i < |Works(op)| ==> Works(op)[i].Work? && Works(op)[i].ok
  {
  }

  /** The shape of a script, place by place; the work begins at place p. */
  ghost predicate IsPlan(script: seq<Call>, action: Action, n: Name, kind: NodeKind, op: Operation, p: nat) {
    && WorksAt(script, op, p)
    && (forall i :: 0 <= i < |script| && script[i].Work? ==> script[i].ok)
    && (action.Direct? ==> p == 0 && script == Works(op))
    && (action.StopAndStart? ==>
          && p == (if kind == PythonNode then 3 else 2) && |script| == p + |Works(op)| + 1
          && script[0] == Scale(n, 0) && script[1] == SawStopped(n) && (p == 3 ==> script[2] == SawDrained(n))
          && script[|script| - 1] == Scale(n, 1))
  }

  lemma ScriptIsPlan(action: Action, n: Name, kind: NodeKind, op: Operation)
    ensures IsPlan(Script(action, n, kind, op), action, n, kind, op, |Opening(action, n, kind)|)
  {
    WorksSucceed(op);
    if action == StopAndStart {
      ScriptShape(Opening(action, n, kind), op, Closing(action, n), Script(action, n, kind, op));
    }
  }

  lemma HelmScriptShape(chain: Name, count: int, op: Operation)
    ensures var script := HelmScript(chain, count, op);
            && |script| == 4 + |Works(op)| && WorksAt(script, op, 3)
            && script[0] == ReadScale(chain, count) && script[1] == Scale(chain, 0) && script[2] == SawStopped(chain)
            && script[|script| - 1] == Scale(chain, count)
            && (forall i :: 0 <= i < |script| && script[i].Work? ==> script[i].ok)
  {
    WorksSucceed(op);
    ScriptShape(HelmOpening(chain, count), op, [Scale(chain, count)], HelmScript(chain, count, op));
  }

  lemma TaskNext(script: seq<Call>, before: seq<Call>, mid: seq<Call>, now: seq<Call>, p: nat, task: Task, ok: bool)
    requires Begins(script, before, mid) && |mid| == |before| + p
    requires p < |script| && script[p] == Work(task, true) && now == mid + [Work(task, ok)]
    ensures |now| == |before| + p + 1
    ensures if ok then Begins(script, before, now) else Fails(script, before, now)
  {
    if !ok { assert now[..|now| - 1] == mid; }
  }

  /** A task was attempted, with that outcome. */
  method Attempted(api: Cluster, task: Task, ok: bool, ghost script: seq<Call>, ghost before: seq<Call>, ghost p: nat)
    requires api.Valid()
    requires Begins(script, before, api.calls) && |api.calls| == |before| + p
    requires p < |script| && script[p] == Work(task, true)
    modifies api
    ensures api.Valid() && |api.calls| == |before| + p + 1
    ensures if ok then Begins(script, before, api.calls) else Fails(script, before, api.calls)
    ensures api.reliable ==> VolumesKept(old(api.store), api.store, {})
  {
    api.Interfere();
    ghost var mid := api.calls;
    api.Note(Work(task, ok));
    TaskNext(script, before, mid, api.calls, p, task, ok);
  }

  /** A task that only succeeds or fails. */
  method PerformTask(api: Cluster, task: Task, ghost script: seq<Call>, ghost before: seq<Call>, ghost p: nat)
    returns (ok: bool)
    requires api.Valid()
    requires Begins(script, before, api.calls) && |api.calls| == |before| + p
    requires p < |script| && script[p] == Work(task, true)
    modifies api
    ensures api.Valid() && |api.calls| == |before| + p + 1
    ensures if ok then Begins(script, before, api.calls) else Fails(script, before, api.calls)
    ensures api.reliable ==> VolumesKept(old(api.store), api.store, {})
  {
    ok := *;
    Attempted(api, task, ok, script, before, p);
  }

  /** What an operation may have written to its pod: nothing, or its report. */
  ghost predicate Reported(before: seq<Annotations>, after: seq<Annotations>, op: Operation, report: Option<Report>) {
    after == before || (Reports(op) && report.Some? && after == before + [Notes(op, report.value)])
  }

  /** The end of a reporting operation: the report becomes the pod's annotations. */
  method Annotated(api: Cluster, op: Operation, report: Report, pod: Pod,
                   ghost script: seq<Call>, ghost before: seq<Call>, ghost p: nat)
    returns (r: Outcome)
    requires api.Valid() && pod.Valid()
    requires Begins(script, before, api.calls) && |api.calls| == |before| + p
    requires p < |script| && script[p] == Work(Annotate, true)
    modifies api, pod
    ensures api.Valid() && pod.Valid() && |api.calls| == |before| + p + 1
    ensures if r.Success? then Begins(script, before, api.calls) else Fails(script, before, api.calls)
    ensures api.reliable ==> VolumesKept(old(api.store), api.store, {})
    ensures r.Success? ==> pod.versions == old(pod.versions) + [Notes(op, report)]
    ensures pod.reliable ==> r.Success?
    ensures r != Failure(Panicked)
    ensures pod.versions == old(pod.versions) || pod.versions == old(pod.versions) + [Notes(op, report)]
  {
    r := pod.Overwrite(Notes(op, report));
    Attempted(api, Annotate, r.Success?, script, before, p);
  }

  /** Makes the directory, backs up, and reports what the backup measured. */
  method BackUp(api: Cluster, data: Data, pod: Pod,
                ghost script: seq<Call>, ghost before: seq<Call>, ghost p: nat)
    returns (r: Outcome, report: Option<Report>)
    requires api.Valid() && pod.Valid() && IsSound(data)
    requires Begins(script, before, api.calls) && |api.calls| == |before| + p
    requires WorksAt(script, Backup, p)
    modifies api, pod, data.dest
    ensures api.Valid() && pod.Valid()
    ensures |before| + p < |api.calls| <= |before| + p + 3
    ensures if r.Success? then Begins(script, before, api.calls) else Fails(script, before, api.calls)
    ensures r.Success? ==> |api.calls| == |before| + p + 3
    ensures api.reliable ==> VolumesKept(old(api.store), api.store, {})
    ensures Reported(old(pod.versions), pod.versions, Backup, report)
    ensures r.Success? ==> report.Some? && pod.versions == old(pod.versions) + [Notes(Backup, report.value)]
    ensures report.Some? && pod.reliable ==> r.Success?
    ensures r != Failure(Panicked)
    ensures report.Some? ==> Honest(SetupOf(data), Backup, report.value) && report.value.vault == data.dest.tree
  {
    r, report := Failure(TaskFailed), None;
    assert Works(Backup)[0] == Work(MakeDir, true) && Works(Backup)[1] == Work(RunBackup, true);
    assert Works(Backup)[2] == Work(Annotate, true);
    var ok := PerformTask(api, MakeDir, script, before, p);
    if !ok { return; }
    var measured := data.behavior.Backup(data.source, data.dest, data.options);
    Attempted(api, RunBackup, measured.Some?, script, before, p + 1);
    if measured.None? { return; }
    report := Some(Report(measured.value.size, measured.value.md5, Some(measured.value.size), data.dest.tree));
    r := Annotated(api, Backup, report.value, pod, script, before, p + 2);
  }

  /** Takes a snapshot; its size may be anything, and the size command may fail. */
  method TakeSnapshot(api: Cluster, data: Data, pod: Pod,
                      ghost script: seq<Call>, ghost before: seq<Call>, ghost p: nat)
    returns (r: Outcome, report: Option<Report>)
    requires api.Valid() && pod.Valid()
    requires Begins(script, before, api.calls) && |api.calls| == |before| + p
    requires WorksAt(script, Snapshot, p)
    modifies api, pod
    ensures api.Valid() && pod.Valid()
    ensures |before| + p < |api.calls| <= |before| + p + 2
    ensures if r.Success? then Begins(script, before, api.calls) else Fails(script, before, api.calls)
    ensures r.Success? ==> |api.calls| == |before| + p + 2
    ensures api.reliable ==> VolumesKept(old(api.store), api.store, {})
    ensures Reported(old(pod.versions), pod.versions, Snapshot, report)
    ensures r.Success? ==> report.Some? && pod.versions == old(pod.versions) + [Notes(Snapshot, report.value)]
    ensures report.Some? && pod.reliable ==> r.Success?
    ensures r != Failure(Panicked)
    ensures report.Some? ==> Honest(SetupOf(data), Snapshot, report.value) && report.value.vault == data.dest.tree
  {
    assert Works(Snapshot)[0] == Work(RunSnapshot, true) && Works(Snapshot)[1] == Work(Annotate, true);
    var ok := PerformTask(api, RunSnapshot, script, before, p);
    if !ok { return Failure(TaskFailed), None; }
    var usage: Option<int> := *;
    if usage.Some? && !IsInt64(usage.value) { usage := None; }  // output that does not parse
    report := Some(Report(if usage.Some? then usage.value else 0, "", usage, data.dest.tree));
    r := Annotated(api, Snapshot, report.value, pod, script, before, p + 1);
  }

  /** The work of an operation, between stop and start: it fails exactly if one of its tasks does, and that is
   *  the last thing it does. */
  method PerformTasks(api: Cluster, op: Operation, data: Data, pod: Pod,
                      ghost script: seq<Call>, ghost before: seq<Call>, ghost p: nat)
    returns (r: Outcome, report: Option<Report>)
    requires api.Valid() && pod.Valid() && IsSound(data)
    requires Begins(script, before, api.calls) && |api.calls| == |before| + p
    requires WorksAt(script, op, p)
    modifies api, pod, data.dest
    ensures api.Valid() && pod.Valid()
    ensures |before| + p < |api.calls| <= |before| + p + |Works(op)|
    ensures if r.Success? then Begins(script, before, api.calls) else Fails(script, before, api.calls)
    ensures r.Success? ==> |api.calls| == |before| + p + |Works(op)|
    ensures api.reliable ==> VolumesKept(old(api.store), api.store, {})
    ensures Reported(old(pod.versions), pod.versions, op, report)
    ensures r.Success? && Reports(op) ==> report.Some? && pod.versions == old(pod.versions) + [Notes(op, report.value)]
    ensures report.Some? && pod.reliable ==> r.Success?
    ensures r != Failure(Panicked)
    ensures report.Some? ==>
              Reports(op) && Honest(SetupOf(data), op, report.value) && report.value.vault == data.dest.tree
  {
    if op == Backup {
      r, report := BackUp(api, data, pod, script, before, p);
    } else if op == Snapshot {
      r, report := TakeSnapshot(api, data, pod, script, before, p);
    } else {
      r, report := Failure(TaskFailed), None;
      assert Works(op)[0] == Work(MainTask(op), true);
      var ok := PerformTask(api, MainTask(op), script, before, p);
      if !ok { return; }
      if op == SnapshotRecover {
        assert Works(op)[1] == Work(RunChown, true);
        ok := PerformTask(api, RunChown, script, before, p + 1);
        if !ok { return; }
      }
      r := Success;
    }
  }

  /** Under Direct, the work is all there is. */
  method PerformDirectly(api: Cluster, op: Operation, data: Data, pod: Pod) returns (r: Outcome, report: Option<Report>)
    requires api.Valid() && pod.Valid() && IsSound(data)
    modifies api, pod, data.dest
    ensures api.Valid() && pod.Valid()
    ensures Follows(Works(op), old(api.calls), api.calls)
    ensures r.Success? ==> api.calls == old(api.calls) + Works(op)
    ensures forall i :: |old(api.calls)| <= i < |api.calls| && api.calls[i].Work? && !api.calls[i].ok ==>
              r.Failure? && i == |api.calls| - 1
    ensures r.Failure? ==> Fails(Works(op), old(api.calls), api.calls)
    ensures api.reliable ==> VolumesKept(old(api.store), api.store, {})
    ensures Reported(old(pod.versions), pod.versions, op, report)
    ensures r.Success? && Reports(op) ==> report.Some? && pod.versions == old(pod.versions) + [Notes(op, report.value)]
    ensures report.Some? && pod.reliable ==> r.Success?
    ensures r != Failure(Panicked)
    ensures report.Some? ==>
              Reports(op) && Honest(SetupOf(data), op, report.value) && report.value.vault == data.dest.tree
  {
    r, report := PerformTasks(api, op, data, pod, Works(op), api.calls, 0);
    WorksSucceed(op);
    OnlyTheLastFails(Works(op), old(api.calls), api.calls);
  }

  /***** Runs *****/

  lemma {:induction false} CallsOfPrefix(steps: seq<Step>, i: nat)
    requires i <= |steps|
    ensures Calls(steps[..i]) <= Calls(steps)
    ensures i < |steps| ==> Calls(steps[..i + 1]) ==
                            Calls(steps[..i]) + (if steps[i].Ours? then [steps[i].call] else [])
    decreases |steps|
  {
    if i < |steps| {
      assert steps[..i + 1][..i] == steps[..i];
      var shorter := steps[..|steps| - 1];
      CallsOfPrefix(shorter, i);
      assert shorter[..i] == steps[..i];
    } else {
      assert steps[..i] == steps;
    }
  }

  /** The call is what the script has there, or the failure of that task. */
  predicate Matches(c: Call, planned: Call) {
    c == planned || (c.Work? && planned == Work(c.task, true))
  }

  lemma FollowsAt(script: seq<Call>, now: seq<Call>, k: nat)
    requires Follows(script, [], now) && k < |now|
    ensures k < |script| && Matches(now[k], script[k])
  {
    if !Begins(script, [], now) && k < |now| - 1 { assert now[..|now| - 1][k] == now[k]; }
  }

  /** The call made at step i is the call the script has at that place, or its failure. */
  lemma NextInScript(steps: seq<Step>, script: seq<Call>, i: nat)
    requires i < |steps| && Follows(script, [], Calls(steps))
    ensures var k := |Calls(steps[..i])|;
            && k <= |script|
            && (steps[i].Ours? ==> k < |script| && Matches(steps[i].call, script[k]))
            && |Calls(steps[..i + 1])| == k + if steps[i].Ours? then 1 else 0
  {
    var k, all := |Calls(steps[..i])|, Calls(steps);
    CallsOfPrefix(steps, i);
    CallsOfPrefix(steps, i + 1);
    if steps[i].Ours? {
      assert all[k] == Calls(steps[..i + 1])[k] == steps[i].call;
      FollowsAt(script, all, k);
    }
  }

  /** The script stops node n, waits, works, and starts the node again. */
  ghost predicate Encloses(script: seq<Call>, n: Name, kind: NodeKind) {
    && |script| >= 3 && script[0] == Scale(n, 0) && script[1] == SawStopped(n) && script[|script| - 1] == Scale(n, 1)
    && (kind == PythonNode ==> |script| >= 4 && script[2] == SawDrained(n))
    && (forall i :: (if kind == PythonNode then 3 else 2) <= i < |script| - 1 ==> script[i].Work?)
  }

  lemma ScriptEncloses(n: Name, kind: NodeKind, op: Operation)
    ensures Encloses(Script(StopAndStart, n, kind, op), n, kind)
  {
  }

  /** Where an envelope stands after k of its calls: what is true of node n, whoever else acted. */
  ghost predicate Stage(k: nat, total: nat, n: Name, s: Store, drained: bool) {
    n in s.objects ==>
      var w := s.objects[n];
      && (1 <= k < total ==> w.replicas == 0)
      && (2 <= k < total ==> w.ready == 0)
      && (3 <= k < total && drained ==> w.pods == 0)
      && (k == total ==> w.replicas == 1)
  }

  ghost predicate OnePod(n: Name, s: Store) {
    n in s.objects ==> s.objects[n].pods <= 1
  }

  /** When the pods were counted and the count differed from one, there was at most one. */
  ghost predicate OneAtCount(n: Name, run: Run) {
    forall i :: 0 <= i < |run.steps| && i < |run.states| && run.steps[i] == Ours(SawDrained(n)) ==> OnePod(n, run.states[i])
  }

  lemma StageStep(k: nat, n: Name, kind: NodeKind, script: seq<Call>, s: Store, step: Step, t: Store, drained: bool)
    requires Encloses(script, n, kind)
    requires drained ==> kind == PythonNode && (step == Ours(SawDrained(n)) ==> OnePod(n, s))
    requires Allowed(Quiet, s, step, t)
    requires k <= |script| && Stage(k, |script|, n, s, drained)
    requires step.Ours? ==> k < |script| && Matches(step.call, script[k])
    ensures Stage(if step.Ours? then k + 1 else k, |script|, n, t, drained)
  {
  }

  /** Every state of a quiet run of an envelope, complete or cut short anywhere, is at its stage. */
  lemma {:induction false} EnvelopeStages(run: Run, n: Name, kind: NodeKind, script: seq<Call>, i: nat, drained: bool)
    requires IsRun(Quiet, run) && i <= |run.steps|
    requires Encloses(script, n, kind) && (drained ==> kind == PythonNode && OneAtCount(n, run))
    requires Follows(script, [], Calls(run.steps))
    ensures Stage(|Calls(run.steps[..i])|, |script|, n, run.states[i], drained)
    decreases i
  {
    if i > 0 {
      NextInScript(run.steps, script, i - 1);
      EnvelopeStages(run, n, kind, script, i - 1, drained);
      var k := |Calls(run.steps[..i - 1])|;
      StageStep(k, n, kind, script, run.states[i - 1], run.steps[i - 1], run.states[i], drained);
    } else {
      assert run.steps[..0] == [];
    }
  }

  /** Destructive work happens only on a stopped node: desired replicas are 0 and, since a poll saw
   *  no ready replica after that, none is ready, at the moment any task of the operation begins.
   *  Where pods are counted as well, none is left, provided there was at most one at the count that ended
   *  the waiting. */
  lemma WorkOnlyWhenStopped(run: Run, n: Name, kind: NodeKind, op: Operation, i: nat)
    requires IsRun(Quiet, run) && i < |run.steps|
    requires Follows(Script(StopAndStart, n, kind, op), [], Calls(run.steps))
    requires run.steps[i].Ours? && run.steps[i].call.Work? && n in run.states[i].objects
    ensures run.states[i].objects[n].replicas == 0 && run.states[i].objects[n].ready == 0
    ensures kind == PythonNode && OneAtCount(n, run) ==> run.states[i].objects[n].pods == 0
  {
    var script := Script(StopAndStart, n, kind, op);
    ScriptEncloses(n, kind, op);
    EnvelopeStages(run, n, kind, script, i, kind == PythonNode && OneAtCount(n, run));
    NextInScript(run.steps, script, i);
  }

  /** What a count that ends the waiting is worth: no pod is left exactly if there was at most one; and for
   *  every other number of pods there is a run in which the work begins beside all of them. */
  lemma DrainedExactly(s: Store, n: Name)
    requires n in s.objects && Observed(SawDrained(n), s)
    ensures s.objects[n].pods == 0 <==> OnePod(n, s)
  {
  }

  lemma ManyPodsPassTheCount(n: Name, pods: nat) returns (run: Run)
    requires pods != 1
    ensures IsRun(Quiet, run) && Follows(Script(StopAndStart, n, PythonNode, Fallback), [], Calls(run.steps))
    ensures |run.steps| == 4 && run.steps[2] == Ours(SawDrained(n)) && run.steps[3] == Ours(Work(RunFallback, true))
    ensures n in run.states[3].objects && run.states[3].objects[n].pods == pods
  {
    var s := Store(map[n := Workload(0, 0, 0, pods, [], "")], 0);
    var steps := [Ours(Scale(n, 0)), Ours(SawStopped(n)), Ours(SawDrained(n)), Ours(Work(RunFallback, true))];
    run := Run([s, s, s, s, s], steps);
    CallsOfFour(Scale(n, 0), SawStopped(n), SawDrained(n), Work(RunFallback, true));
  }

  lemma CallsOfFour(a: Call, b: Call, c: Call, d: Call)
    ensures Calls([Ours(a), Ours(b), Ours(c), Ours(d)]) == [a, b, c, d]
  {
    var steps := [Ours(a), Ours(b), Ours(c), Ours(d)];
    assert steps[..3] == [Ours(a), Ours(b), Ours(c)] && steps[..3][..2] == [Ours(a), Ours(b)];
    assert [Ours(a), Ours(b)][..1] == [Ours(a)] && [Ours(a)][..0] == [];
    assert Calls([Ours(a)]) == [a] && Calls([Ours(a), Ours(b)]) == [a, b];
    assert Calls(steps[..3]) == [a, b, c];
  }

  /** A complete envelope leaves one desired replica; one that was cut short after stopping leaves none. */
  lemma EnvelopeOutcome(run: Run, n: Name, kind: NodeKind, op: Operation)
    requires IsRun(Quiet, run) && Follows(Script(StopAndStart, n, kind, op), [], Calls(run.steps))
    requires n in Last(run).objects
    ensures Calls(run.steps) == Script(StopAndStart, n, kind, op) ==> Last(run).objects[n].replicas == 1
    ensures Calls(run.steps) != [] && Calls(run.steps) != Script(StopAndStart, n, kind, op) ==>
              Last(run).objects[n].replicas == 0
  {
    var script := Script(StopAndStart, n, kind, op);
    ScriptEncloses(n, kind, op);
    EnvelopeStages(run, n, kind, script, |run.steps|, false);
    assert run.steps[..|run.steps|] == run.steps;
  }

  /** Under Direct this process never writes: whatever changes in a run is someone else's doing. */
  lemma DirectNeverWrites(rely: Rely, run: Run, op: Operation, n: Name, kind: NodeKind, i: nat)
    requires IsRun(rely, run) && i < |run.steps|
    requires Follows(Script(Direct, n, kind, op), [], Calls(run.steps))
    ensures run.steps[i].Ours? ==> run.states[i + 1] == run.states[i]
  {
    if run.steps[i].Ours? {
      NextInScript(run.steps, Script(Direct, n, kind, op), i);
    }
  }
}
