/** One custom resource, its Job, and everybody who acts on them, as a transition system.
 *
 *  Eight controllers share the machine. The world keeps the whole history of the resource and of the
 *  name under which its Job lives, because the one worker of the controller reads both through caches
 *  that may lag behind but never go back. Other actors are the users, the Job controller, the process in
 *  the Job's pod, and the pending timers that delete finished Jobs.
 */
module JobWorld {
  import opened Wrappers
  import opened Decimal
  import opened Envelope
  import opened Process
  import Behavior

  type Time = int

  datatype Kind = BackupKind | DuplicateKind | RestoreKind | RecoverKind | FallbackKind | SnapshotKind
                | ChangeOwnerKind | SwitchoverKind

  /** The operation the Job of a kind runs; a switchover reports as little as a restore. */
  function OpOf(k: Kind): Operation {
    match k
    case BackupKind => Backup
    case DuplicateKind => Backup
    case SnapshotKind => Snapshot
    case FallbackKind => Fallback
    case ChangeOwnerKind => ChangeOwner
    case _ => Restore
  }

  /***** The custom resource *****/

  datatype Spec = Spec(action: string, image: string, pullPolicy: string, ttl: int, uid: int, gid: int, rest: string)

  datatype Phase = Blank | Active | Complete | Failed

  datatype Status = Status(
    phase: Phase,
    startTime: Option<Time>,
    endTime: Option<Time>,
    message: string,
    actual: int,
    md5: string)

  datatype Resource = Resource(spec: Spec, status: Status)

  const BLANK_STATUS := Status(Blank, None, None, "", 0, "")

  predicate Terminal(s: Status) {
    s.phase == Complete || s.phase == Failed
  }

  predicate HasAction(k: Kind) {
    k != SwitchoverKind
  }

  /** The spec with its defaults filled in. */
  function Defaulted(k: Kind, s: Spec): Spec {
    s.(action := if HasAction(k) && s.action == "" then "StopAndStart" else s.action,
       image := if s.image == "" then "citacloud/cita-node-job:v0.0.2" else s.image,
       pullPolicy := if s.pullPolicy == "" then "IfNotPresent" else s.pullPolicy,
       ttl := if s.ttl == 0 then 30 else s.ttl,
       uid := if k == ChangeOwnerKind && s.uid == 0 then 1000 else s.uid,
       gid := if k == ChangeOwnerKind && s.gid == 0 then 1000 else s.gid)
  }

  function Count(b: bool): nat {
    if b then 1 else 0
  }

  /** How many blanks would raise the update flag; for Fallback the pull policy does not. */
  function Blanks(k: Kind, s: Spec): nat {
    Count(HasAction(k) && s.action == "") + Count(s.image == "") + Count(k != FallbackKind && s.pullPolicy == "")
    + Count(s.ttl == 0) + Count(k == ChangeOwnerKind && s.uid == 0) + Count(k == ChangeOwnerKind && s.gid == 0)
  }

  function DefaultedStatus(s: Status, created: Time): Status {
    s.(phase := if s.phase == Blank then Active else s.phase,
       startTime := if s.startTime == None then Some(created) else s.startTime)
  }

  function Unset(s: Status): nat {
    Count(s.phase == Blank) + Count(s.startTime == None)
  }

  /***** The Job *****/

  datatype Job = Job(active: nat, succeeded: nat, failed: nat, conditions: seq<Time>, completionTime: Option<Time>)

  const NEW_JOB := Job(0, 0, 0, [], None)

  predicate Finished(j: Job) {
    j.succeeded == 1 || j.failed == 1
  }

  /** A finished Job is not active, and a failed one says since when. */
  predicate Plausible(j: Job) {
    && (Finished(j) ==> j.active == 0)
    && !(j.succeeded == 1 && j.failed == 1)
    && (j.failed == 1 ==> |j.conditions| > 0)
  }

  /** The Job controller: one pod, no retry. A finished Job does not change any more, and a Job succeeds
   *  when its process has ended well. */
  predicate JobProgress(p: Process, j: Job, j': Job) {
    && (Finished(j) ==> j' == j)
    && Plausible(j')
    && (j'.succeeded == 1 ==> p.exit == Some(true))
  }

  /** The status after looking at Job j, and at pod annotations a when the branch reads them; None when
   *  the annotations do not yield a size. */
  function Mirrored(k: Kind, s: Status, j: Job, a: Annotations): Option<Status> {
    if j.active == 1 then Some(s.(phase := Active))
    else if j.failed == 1 then
      if |j.conditions| == 0 then None
      else
        Some(s.(message := if ERROR_LOG in a then a[ERROR_LOG] else "", phase := Failed,
                endTime := Some(j.conditions[0])))
    else if j.succeeded == 1 then
      if !Reports(OpOf(k)) then Some(s.(phase := Complete, endTime := j.completionTime))
      else
        match ParsedSize(k, a)
        case None => None
        case Some(size) =>
          Some(s.(phase := Complete, endTime := j.completionTime, actual := size,
                  md5 := if k == DuplicateKind then ParsedMd5(a) else s.md5))
    else Some(s)
  }

  function SizeKey(k: Kind): string {
    if k == SnapshotKind then "snapshot-size" else "backup-size"
  }

  function ParsedSize(k: Kind, a: Annotations): Option<int> {
    ParseInt(if SizeKey(k) in a then a[SizeKey(k)] else "", false)
  }

  function ParsedMd5(a: Annotations): string {
    if "md5" in a then a["md5"] else ""
  }

  /***** The world *****/

  datatype World = World(
    kind: Kind,
    node: NodeKind,               // the kind of node the Job works on
    setup: Setup,                 // what a backup works on
    created: Time,                // creation time of the resource
    edits: bool,                  // whether users may edit the spec
    versions: seq<Resource>,      // every version of the resource; the last is current
    slots: seq<Option<Job>>,      // every content of the Job's name; the last is current
    creations: nat,               // Jobs successfully created
    process: Process,
    versionSeen: nat,             // how far the caches are
    slotSeen: nat,
    read: nat,                    // the version the worker's latest reconcile acts on
    timers: nat,                  // pending deletions of the Job
    strays: nat)                  // the same, left over from an earlier resource of that name

  function Current(w: World): Resource
    requires |w.versions| > 0
  {
    w.versions[|w.versions| - 1]
  }

  function Slot(w: World): Option<Job>
    requires |w.slots| > 0
  {
    w.slots[|w.slots| - 1]
  }

  datatype Step =
    // the others
    | Edit(spec: Spec)
    | MoveJob(job: Job)
    | MoveProcess(process: Process)
    | FireTimer(deletes: bool)
    | FireStray(deletes: bool)
    | MoveCaches(versionSeen: nat, slotSeen: nat)
    // the worker
    | Read
    | WriteSpec
    | WriteDefaultStatus
    | CreateJob
    | ScheduleDelete
    | WriteMirror(slot: nat, version: nat)

  predicate InRange(w: World) {
    w.read <= w.versionSeen < |w.versions| && w.slotSeen < |w.slots| && |w.process.versions| > 0
  }

  /** The worker writes on the basis of the version it read; the server refuses unless it is current. */
  predicate Fresh(w: World)
    requires InRange(w)
  {
    w.read == |w.versions| - 1
  }

  predicate ByOthers(s: Step) {
    s.Edit? || s.MoveJob? || s.MoveProcess? || s.FireTimer? || s.FireStray? || s.MoveCaches?
  }

  predicate Enabled(w: World, s: Step)
    requires InRange(w)
  {
    match s
    case Edit(_) => w.edits
    case MoveJob(j) => Slot(w).Some? && JobProgress(w.process, Slot(w).value, j)
    case MoveProcess(p) => w.creations > 0 && Continues(w.process, p) && Possible(w.setup, w.node, OpOf(w.kind), p)
    case FireTimer(deletes) => w.timers > 0 && (deletes ==> Slot(w).Some?)
    case FireStray(deletes) => w.strays > 0 && (deletes ==> Slot(w).Some?)
    case MoveCaches(v, j) => w.versionSeen <= v < |w.versions| && w.slotSeen <= j < |w.slots|
    case Read => true
    case WriteSpec => Fresh(w) && Blanks(w.kind, Current(w).spec) > 0
    case WriteDefaultStatus => Fresh(w) && Unset(Current(w).status) > 0
    case CreateJob => Unset(w.versions[w.read].status) == 0 && !Terminal(w.versions[w.read].status) && Slot(w).None?
    case ScheduleDelete => Terminal(w.versions[w.read].status)
    case WriteMirror(j, v) =>
      && Fresh(w) && Unset(Current(w).status) == 0 && !Terminal(Current(w).status)
      && j <= w.slotSeen && w.slots[j].Some? && v < |w.process.versions|
      && Mirrored(w.kind, Current(w).status, w.slots[j].value, w.process.versions[v]).Some?
  }

  function Apply(w: World, s: Step): World
    requires InRange(w) && Enabled(w, s)
  {
    match s
    case Edit(spec) => w.(versions := w.versions + [Current(w).(spec := spec)])
    case MoveJob(j) => w.(slots := w.slots + [Some(j)])
    case MoveProcess(p) => w.(process := p)
    case FireTimer(deletes) => w.(timers := w.timers - 1, slots := if deletes then w.slots + [None] else w.slots)
    case FireStray(deletes) => w.(strays := w.strays - 1, slots := if deletes then w.slots + [None] else w.slots)
    case MoveCaches(v, j) => w.(versionSeen := v, slotSeen := j)
    case Read => w.(read := w.versionSeen)
    case WriteSpec => w.(versions := w.versions + [Current(w).(spec := Defaulted(w.kind, Current(w).spec))])
    case WriteDefaultStatus =>
      w.(versions := w.versions + [Current(w).(status := DefaultedStatus(Current(w).status, w.created))])
    case CreateJob => w.(slots := w.slots + [Some(NEW_JOB)], creations := w.creations + 1)
    case ScheduleDelete => w.(timers := w.timers + 1)
    case WriteMirror(j, v) =>
      var status := Mirrored(w.kind, Current(w).status, w.slots[j].value, w.process.versions[v]).value;
      w.(versions := w.versions + [Current(w).(status := status)])
  }

  /** A resource just created, with nothing else there yet; no timer is left over either. */
  predicate Initial(w: World) {
    && |w.versions| == 1 && w.versions[0].status == BLANK_STATUS
    && w.slots == [None] && w.creations == 0 && w.timers == 0 && w.strays == 0
    && w.versionSeen == 0 && w.slotSeen == 0 && w.read == 0
    && Possible(w.setup, w.node, OpOf(w.kind), w.process) && w.process.exit.None?
  }

  /***** The invariant *****/

  predicate PhaseLeq(a: Phase, b: Phase) {
    a == b || a == Blank || (a == Active && b != Blank)
  }

  /** How a status may have become another one. */
  predicate StatusLeq(a: Status, b: Status) {
    && PhaseLeq(a.phase, b.phase)
    && (Terminal(a) ==> b == a)
    && (a.startTime.Some? ==> b.startTime == a.startTime)
  }

  ghost predicate StatusesMoveForward(w: World) {
    forall i, j :: 0 <= i <= j < |w.versions| ==> StatusLeq(w.versions[i].status, w.versions[j].status)
  }

  /** The worker has seen a terminal status. */
  predicate SawTerminal(w: World)
    requires InRange(w)
  {
    Terminal(w.versions[w.read].status)
  }

  /** Deletion, pending or done, is a consequence of a terminal status the worker saw; so no Job is
   *  created after one was deleted. */
  ghost predicate OneJob(w: World)
    requires InRange(w)
  {
    && w.creations <= 1
    && (w.creations == 0 ==> forall i :: 0 <= i < |w.slots| ==> w.slots[i].None?)
    && (w.timers > 0 || (w.creations == 1 && Slot(w).None?) ==> SawTerminal(w))
  }

  /** Every earlier content of the slot that was finished is still what the slot holds, if anything. */
  ghost predicate FinishedStays(w: World) {
    && (forall i, j :: 0 <= i <= j < |w.slots| && w.slots[i].Some? && w.slots[j].Some? && Finished(w.slots[i].value) ==>
          w.slots[j] == w.slots[i])
    && (forall i :: 0 <= i < |w.slots| && w.slots[i].Some? && w.slots[i].value.succeeded == 1 ==>
          w.process.exit == Some(true) && w.slots[i].value.failed != 1)
    && (forall i :: 0 <= i < |w.slots| && w.slots[i].Some? ==> Plausible(w.slots[i].value))
  }

  /** Some content of the Job's name ended so, at that time. */
  ghost predicate SomeJob(w: World, succeeded: bool, end: Option<Time>) {
    exists i :: 0 <= i < |w.slots| && w.slots[i].Some? && EndedSo(w.slots[i].value, succeeded, end)
  }

  predicate EndedSo(j: Job, succeeded: bool, end: Option<Time>) {
    && j.active != 1
    && if succeeded then j.failed != 1 && j.succeeded == 1 && end == j.completionTime
       else j.failed == 1 && |j.conditions| > 0 && end == Some(j.conditions[0])
  }

  /** The message is the error log of some version of the pod's annotations, or that version has none. */
  ghost predicate SomeLog(w: World, message: string) {
    exists v :: 0 <= v < |w.process.versions| && LogOf(w.process.versions[v]) == message
  }

  function LogOf(a: Annotations): string {
    if ERROR_LOG in a then a[ERROR_LOG] else ""
  }

  /** What a status claims about the Job, and about what its process measured; what does not concern it is blank. */
  ghost predicate Truthful(w: World, s: Status) {
    && (s.phase == Blank <==> s.startTime.None?)
    && (s.startTime.Some? ==> s.startTime.value == w.created)
    && (s.phase == Failed ==> SomeJob(w, false, s.endTime) && SomeLog(w, s.message))
    && (s.phase == Complete ==> SomeJob(w, true, s.endTime))
    && (s.phase == Complete && Reports(OpOf(w.kind)) ==>
          && w.process.report.Some?
          && s.actual == w.process.report.value.size
          && (w.kind == DuplicateKind ==> s.md5 == w.process.report.value.md5))
    && (!Terminal(s) ==> s.endTime.None?)
    && (s.phase != Failed ==> s.message == "")
    && (s.phase != Complete || !Reports(OpOf(w.kind)) ==> s.actual == 0)
    && (s.phase != Complete || w.kind != DuplicateKind ==> s.md5 == "")
  }

  ghost predicate AllTruthful(w: World) {
    forall i :: 0 <= i < |w.versions| ==> Truthful(w, w.versions[i].status)
  }

  ghost predicate Inv(w: World) {
    && InRange(w) && w.strays == 0
    && Possible(w.setup, w.node, OpOf(w.kind), w.process)
    && StatusesMoveForward(w)
    && OneJob(w)
    && FinishedStays(w)
    && AllTruthful(w)
  }

  lemma InitialInv(w: World)
    requires Initial(w)
    ensures Inv(w)
  {
  }

  /***** Preservation, by kind of step *****/

  /** A new version whose status can follow the current one. */
  lemma NewVersion(w: World, r: Resource)
    requires Inv(w) && StatusLeq(Current(w).status, r.status) && Truthful(w, r.status)
    ensures Inv(w.(versions := w.versions + [r]))
  {
    var w' := w.(versions := w.versions + [r]);
    forall i, j | 0 <= i <= j < |w'.versions|
      ensures StatusLeq(w'.versions[i].status, w'.versions[j].status)
    {
      if i < |w.versions| { assert StatusLeq(w.versions[i].status, Current(w).status); }
    }
    forall i | 0 <= i < |w'.versions| ensures Truthful(w', w'.versions[i].status) {
      if i < |w.versions| { assert Truthful(w, w.versions[i].status); }
      SomeJobKept(w, w');
    }
  }

  lemma SomeJobKept(w: World, w': World)
    requires w.slots <= w'.slots && w.process.versions <= w'.process.versions
    ensures forall b, end :: SomeJob(w, b, end) ==> SomeJob(w', b, end)
    ensures forall m :: SomeLog(w, m) ==> SomeLog(w', m)
  {
    forall b, end | SomeJob(w, b, end) ensures SomeJob(w', b, end) {
      var i :| 0 <= i < |w.slots| && w.slots[i].Some? && EndedSo(w.slots[i].value, b, end);
      assert w'.slots[i] == w.slots[i];
    }
    forall m | SomeLog(w, m) ensures SomeLog(w', m) {
      var v :| 0 <= v < |w.process.versions| && LogOf(w.process.versions[v]) == m;
      assert w'.process.versions[v] == w.process.versions[v];
    }
  }

  lemma TruthfulKept(w: World, w': World)
    requires AllTruthful(w) && w'.versions == w.versions && w'.created == w.created && w'.kind == w.kind
    requires w.slots <= w'.slots && Continues(w.process, w'.process)
    ensures AllTruthful(w')
  {
    SomeJobKept(w, w');
    forall i | 0 <= i < |w'.versions| ensures Truthful(w', w'.versions[i].status) {
      assert Truthful(w, w.versions[i].status);
    }
  }

  lemma MoveJobKeepsInv(w: World, s: Step)
    requires Inv(w) && s.MoveJob? && Enabled(w, s)
    ensures Inv(Apply(w, s))
  {
    var w' := Apply(w, s);
    TruthfulKept(w, w');
    assert Slot(w') == Some(s.job);
    assert w.slots[|w.slots| - 1] == Slot(w);
  }

  lemma MoveProcessKeepsInv(w: World, s: Step)
    requires Inv(w) && s.MoveProcess? && Enabled(w, s)
    ensures Inv(Apply(w, s))
  {
    TruthfulKept(w, Apply(w, s));
  }

  lemma SlotsKeepInv(w: World, s: Step)
    requires Inv(w) && (s.FireTimer? || s.CreateJob?) && Enabled(w, s)
    ensures Inv(Apply(w, s))
  {
    var w' := Apply(w, s);
    TruthfulKept(w, w');
    if s.CreateJob? {
      assert w.creations == 0;
    } else if s.deletes {
      assert Slot(w') == None;
    }
  }

  lemma ReadKeepsInv(w: World, s: Step)
    requires Inv(w) && (s.Read? || s.MoveCaches? || s.ScheduleDelete?) && Enabled(w, s)
    ensures Inv(Apply(w, s))
  {
    var w' := Apply(w, s);
    TruthfulKept(w, w');
    assert StatusLeq(w.versions[w.read].status, w.versions[w'.read].status);
  }

  lemma MirrorIsTruthful(w: World, j: nat, v: nat)
    requires Inv(w) && Enabled(w, WriteMirror(j, v))
    ensures var s := Mirrored(w.kind, Current(w).status, w.slots[j].value, w.process.versions[v]).value;
            StatusLeq(Current(w).status, s) && Truthful(w, s)
  {
    var job, a := w.slots[j].value, w.process.versions[v];
    assert Truthful(w, Current(w).status);
    if job.active != 1 && job.failed == 1 {
      assert EndedSo(job, false, Some(job.conditions[0]));
      assert LogOf(a) == LogOf(w.process.versions[v]);
    } else if job.active != 1 && job.succeeded == 1 {
      assert EndedSo(job, true, job.completionTime);
      if Reports(OpOf(w.kind)) { SizeIsReported(w, v); }
    }
  }

  /** Annotations that yield a size are the report of the process, whatever version was read. */
  lemma SizeIsReported(w: World, v: nat)
    requires Possible(w.setup, w.node, OpOf(w.kind), w.process) && Reports(OpOf(w.kind)) && v < |w.process.versions|
    requires ParsedSize(w.kind, w.process.versions[v]).Some?
    ensures w.process.report.Some?
    ensures ParsedSize(w.kind, w.process.versions[v]) == Some(w.process.report.value.size)
    ensures w.kind != SnapshotKind ==> ParsedMd5(w.process.versions[v]) == w.process.report.value.md5
  {
    var a := w.process.versions[v];
    assert ParseInt("", false) == None;
    assert SizeKey(w.kind) in a;
    assert v > 0;
    assert !IsErrorLog(a) by { assert SizeKey(w.kind) in a.Keys; }
    ParseFormatted(w.process.report.value.size, false);
  }

  /** A process that ended well left an annotation that parses, exactly if its kind of node leaves one. */
  lemma ReportParses(w: World)
    requires InRange(w) && Possible(w.setup, w.node, OpOf(w.kind), w.process)
    requires Reports(OpOf(w.kind)) && w.process.exit == Some(true)
    ensures ParsedSize(w.kind, w.process.versions[|w.process.versions| - 1]).Some? <==> w.node != HelmNode
  {
    assert ParseInt("", false) == None;
    if w.node != HelmNode { ParseFormatted(w.process.report.value.size, false); }
  }

  lemma StepKeepsInv(w: World, s: Step)
    requires Inv(w) && Enabled(w, s)
    ensures Inv(Apply(w, s))
  {
    match s
    case Edit(spec) =>
      assert Truthful(w, Current(w).status);
      NewVersion(w, Current(w).(spec := spec));
    case WriteSpec =>
      assert Truthful(w, Current(w).status);
      NewVersion(w, Current(w).(spec := Defaulted(w.kind, Current(w).spec)));
    case WriteDefaultStatus =>
      assert Truthful(w, Current(w).status);
      NewVersion(w, Current(w).(status := DefaultedStatus(Current(w).status, w.created)));
    case WriteMirror(j, v) =>
      MirrorIsTruthful(w, j, v);
      var status := Mirrored(w.kind, Current(w).status, w.slots[j].value, w.process.versions[v]).value;
      NewVersion(w, Current(w).(status := status));
    case MoveJob(_) => MoveJobKeepsInv(w, s);
    case MoveProcess(_) => MoveProcessKeepsInv(w, s);
    case FireTimer(_) => SlotsKeepInv(w, s);
    case FireStray(_) =>
    case CreateJob => SlotsKeepInv(w, s);
    case _ => ReadKeepsInv(w, s);
  }

  /***** Runs *****/

  ghost predicate StepAt(worlds: seq<World>, steps: seq<Step>, i: nat)
    requires i < |steps| && |worlds| == |steps| + 1
  {
    InRange(worlds[i]) && Enabled(worlds[i], steps[i]) && worlds[i + 1] == Apply(worlds[i], steps[i])
  }

  ghost predicate IsRun(worlds: seq<World>, steps: seq<Step>) {
    && |worlds| == |steps| + 1 && Initial(worlds[0])
    && (forall i {:trigger StepAt(worlds, steps, i)} :: 0 <= i < |steps| ==> StepAt(worlds, steps, i))
  }

  ghost predicate Reachable(w: World) {
    exists worlds, steps :: IsRun(worlds, steps) && worlds[|worlds| - 1] == w
  }

  lemma {:induction false} RunKeepsInv(worlds: seq<World>, steps: seq<Step>, i: nat)
    requires IsRun(worlds, steps) && i < |worlds|
    ensures Inv(worlds[i])
  {
    if i == 0 {
      InitialInv(worlds[0]);
    } else {
      RunKeepsInv(worlds, steps, i - 1);
      assert StepAt(worlds, steps, i - 1);
      StepKeepsInv(worlds[i - 1], steps[i - 1]);
    }
  }

  lemma ReachableInv(w: World)
    requires Reachable(w)
    ensures Inv(w)
  {
    var worlds, steps :| IsRun(worlds, steps) && worlds[|worlds| - 1] == w;
    RunKeepsInv(worlds, steps, |worlds| - 1);
  }

  /** What the Job controller leaves in the name of the Job can be relied on. */
  lemma SlotIsPlausible(w: World, i: nat)
    requires Reachable(w) && i < |w.slots| && w.slots[i].Some?
    ensures Plausible(w.slots[i].value)
    ensures w.slots[i].value.succeeded == 1 ==> w.process.exit == Some(true)
  {
    ReachableInv(w);
  }

  lemma LongerRun(worlds: seq<World>, steps: seq<Step>, s: Step)
    requires IsRun(worlds, steps) && InRange(worlds[|steps|]) && Enabled(worlds[|steps|], s)
    ensures IsRun(worlds + [Apply(worlds[|steps|], s)], steps + [s])
  {
    var worlds', steps' := worlds + [Apply(worlds[|steps|], s)], steps + [s];
    forall i | 0 <= i < |steps'| ensures StepAt(worlds', steps', i) {
      if i < |steps| { assert StepAt(worlds, steps, i); }
    }
  }

  lemma ReachableStep(w: World, s: Step)
    requires Reachable(w) && InRange(w) && Enabled(w, s)
    ensures Reachable(Apply(w, s)) && InRange(Apply(w, s)) && Apply(w, s).creations <= 1
  {
    var worlds, steps :| IsRun(worlds, steps) && worlds[|worlds| - 1] == w;
    LongerRun(worlds, steps, s);
    ReachableInv(Apply(w, s));
  }

  lemma ReachableStart(w: World)
    requires Initial(w)
    ensures Reachable(w) && InRange(w)
  {
    assert IsRun([w], []);
    InitialInv(w);
  }

  lemma SlotNeedsCreation(w: World)
    requires Reachable(w)
    ensures InRange(w) && (Slot(w).Some? ==> w.creations == 1)
  {
    ReachableInv(w);
  }

  /** At most one Job is ever created for a resource; and once a Job was deleted, or its deletion is
   *  pending, no worker can be about to create another. */
  lemma AtMostOneJob(w: World)
    requires Reachable(w)
    ensures InRange(w) && w.creations <= 1
    ensures w.timers > 0 || (w.creations == 1 && Slot(w).None?) ==> !Enabled(w, CreateJob)
  {
    ReachableInv(w);
  }

  /***** Resources of the same name, one after the other *****/

  /** A resource just created, while timers of an earlier one of that name may still be pending. */
  predicate Recreated(w: World) {
    Initial(w.(strays := 0))
  }

  ghost predicate IsRunFrom(w: World, worlds: seq<World>, steps: seq<Step>) {
    && |worlds| == |steps| + 1 && worlds[0] == w
    && (forall i {:trigger StepAt(worlds, steps, i)} :: 0 <= i < |steps| ==> StepAt(worlds, steps, i))
  }

  /** What leads to a Job being created. */
  lemma LeadsToCreation(w: World) returns (w1: World, w2: World, w3: World)
    requires Recreated(w)
    ensures InRange(w) && Enabled(w, WriteDefaultStatus) && w1 == Apply(w, WriteDefaultStatus)
    ensures InRange(w1) && Enabled(w1, MoveCaches(1, 0)) && w2 == Apply(w1, MoveCaches(1, 0))
    ensures InRange(w2) && Enabled(w2, Read) && w3 == Apply(w2, Read)
    ensures InRange(w3) && Enabled(w3, CreateJob) && w3.strays == w.strays && w3.creations == 0
  {
    w1 := Apply(w, WriteDefaultStatus);
    w2 := Apply(w1, MoveCaches(1, 0));
    w3 := Apply(w2, Read);
  }

  /** A stray timer, between two creations. */
  lemma CreatedTwice(w3: World) returns (w4: World, w5: World, w6: World)
    requires InRange(w3) && Enabled(w3, CreateJob) && w3.strays > 0
    ensures w4 == Apply(w3, CreateJob) && InRange(w4) && Slot(w4) == Some(NEW_JOB)
    ensures Enabled(w4, FireStray(true)) && w5 == Apply(w4, FireStray(true))
    ensures InRange(w5) && Enabled(w5, CreateJob) && w6 == Apply(w5, CreateJob) && w6.creations == w3.creations + 2
  {
    w4 := Apply(w3, CreateJob);
    w5 := Apply(w4, FireStray(true));
    w6 := Apply(w5, CreateJob);
  }

  /** A timer deletes by name. Left over from an earlier resource, it takes away the Job of the new one while that
   *  Job works, the deletion wakes the reconciler, and a second Job is created. */
  lemma StrayTimerMakesTwo(w: World) returns (worlds: seq<World>, steps: seq<Step>)
    requires Recreated(w) && w.strays > 0
    ensures IsRunFrom(w, worlds, steps) && worlds[|steps|].creations == 2
    ensures |steps| == 6 && steps[4] == FireStray(true)
    ensures |worlds[4].slots| > 0 && Slot(worlds[4]).Some? && WakesOnDelete(Slot(worlds[4]).value)
  {
    var w1, w2, w3 := LeadsToCreation(w);
    var w4, w5, w6 := CreatedTwice(w3);
    worlds := [w, w1, w2, w3, w4, w5, w6];
    steps := [WriteDefaultStatus, MoveCaches(1, 0), Read, CreateJob, FireStray(true), CreateJob];
    forall i | 0 <= i < |steps| ensures StepAt(worlds, steps, i) {
      assert i == 0 || i == 1 || i == 2 || i == 3 || i == 4 || i == 5;
    }
  }

  /** So a resource gets at most one Job, in every run, if and only if no timer of an earlier one is pending when it
   *  is created. */
  lemma OneJobPerResourceExactly(w: World)
    requires Recreated(w)
    ensures (forall worlds: seq<World>, steps :: IsRunFrom(w, worlds, steps) ==> worlds[|steps|].creations <= 1) <==>
            w.strays == 0
  {
    if w.strays == 0 {
      assert w.(strays := 0) == w;
      forall worlds: seq<World>, steps | IsRunFrom(w, worlds, steps) ensures worlds[|steps|].creations <= 1 {
        assert IsRun(worlds, steps);
        RunKeepsInv(worlds, steps, |steps|);
      }
    } else {
      var worlds, steps := StrayTimerMakesTwo(w);
    }
  }

  /** The status only moves from blank through active to complete or failed; a terminal status is frozen
   *  with all it says; the start time is written once and is the creation time. */
  lemma StatusHistory(w: World, i: nat, j: nat)
    requires Reachable(w) && i <= j < |w.versions|
    ensures PhaseLeq(w.versions[i].status.phase, w.versions[j].status.phase)
    ensures Terminal(w.versions[i].status) ==> w.versions[j].status == w.versions[i].status
    ensures w.versions[i].status.startTime.Some? ==>
              w.versions[j].status.startTime == w.versions[i].status.startTime == Some(w.created)
  {
    ReachableInv(w);
    assert StatusLeq(w.versions[i].status, w.versions[j].status);
    assert Truthful(w, w.versions[i].status);
  }

  /** A terminal status tells the truth about the one Job, also after that Job has been cleaned up: how it ended and
   *  when, and, of a failed one, the error log of its pod, as far as it was there to be read. */
  lemma TerminalIsTrue(w: World, i: nat)
    requires Reachable(w) && i < |w.versions|
    ensures InRange(w)
    ensures w.versions[i].status.phase == Complete ==>
              && w.process.exit == Some(true) && (Slot(w).Some? ==> Slot(w).value.succeeded == 1)
              && (exists k :: 0 <= k < |w.slots| && w.slots[k].Some? && w.slots[k].value.succeeded == 1 &&
                              w.versions[i].status.endTime == w.slots[k].value.completionTime)
    ensures w.versions[i].status.phase == Failed ==>
              && (exists k :: 0 <= k < |w.slots| && w.slots[k].Some? && w.slots[k].value.failed == 1 &&
                              |w.slots[k].value.conditions| > 0 &&
                              w.versions[i].status.endTime == Some(w.slots[k].value.conditions[0]))
              && (Slot(w).Some? ==> Slot(w).value.failed == 1)
              && (exists v :: 0 <= v < |w.process.versions| &&
                              w.versions[i].status.message == if "err-log" in w.process.versions[v]
                                                              then w.process.versions[v]["err-log"] else "")
    ensures !Terminal(w.versions[i].status) ==> w.versions[i].status.endTime == None
    ensures w.versions[i].status.phase != Failed ==> w.versions[i].status.message == ""
    ensures w.versions[i].status.phase != Complete ==>
              w.versions[i].status.actual == 0 && w.versions[i].status.md5 == ""
  {
    ReachableInv(w);
    var s := w.versions[i].status;
    assert Truthful(w, s);
    if Terminal(s) {
      var k :| 0 <= k < |w.slots| && w.slots[k].Some? && EndedSo(w.slots[k].value, s.phase == Complete, s.endTime);
      assert Slot(w) == w.slots[|w.slots| - 1];
    }
    if s.phase == Failed {
      var v :| 0 <= v < |w.process.versions| && LogOf(w.process.versions[v]) == s.message;
    }
  }

  /** Which deletions of a Job wake the reconciler. */
  predicate WakesOnDelete(j: Job) {
    !Finished(j)
  }

  /** A pending deletion can only hit a finished Job; so it takes no Job away from its work, and does not wake
   *  the reconciler. */
  lemma OnlyFinishedJobsAreCleaned(w: World)
    requires Reachable(w) && InRange(w) && w.timers > 0 && Slot(w).Some?
    ensures Finished(Slot(w).value) && !WakesOnDelete(Slot(w).value)
  {
    ReachableInv(w);
    TerminalIsTrue(w, w.read);
  }

  /** What it means that the vault holds the backup. */
  lemma BackupWrittenOut(setup: Setup, vault: Behavior.Tree, md5: string)
    requires HoldsBackup(setup, vault, md5)
    ensures !setup.options.enable ==>
              && md5 == ""
              && forall p <- setup.source :: p != [] && (p[0] == "data" || p[0] == "chain_data") ==>
                   p in vault && vault[p] == setup.source[p]
    ensures setup.options.enable ==>
              && setup.options.output in vault && vault[setup.options.output].File?
              && var content := vault[setup.options.output].content;
                 && md5 == setup.md5(content) && content.Packed?
                 && forall p <- setup.source :: p != [] && (p[0] == "data" || p[0] == "chain_data") ==>
                      Behavior.Item(p, setup.source[p]) in content.items
  {
    forall p | p in setup.source && p != [] && (p[0] == "data" || p[0] == "chain_data")
      ensures if setup.options.enable then Behavior.Item(p, setup.source[p]) in vault[setup.options.output].content.items
              else p in vault && vault[p] == setup.source[p]
    {
      assert p in Behavior.Selection(setup.source);
      if setup.options.enable {
        var items := vault[setup.options.output].content.items;
        assert Behavior.Listed(items, |items|, p);
        var i :| 0 <= i < |items| && items[i].path == p;
        assert items[i] == Behavior.Item(p, setup.source[p]);
      }
    }
  }

  /** End to end, across both processes: a completed Backup, Duplicate or Snapshot shows the size its Job's process
   *  measured; a Snapshot whose size command failed shows zero. For a Backup or a Duplicate that is the size of the
   *  node's data; the vault holds that data, as an archive or as it is; and a Duplicate shows the digest of the
   *  archive in the vault, or none when there is no archive. */
  lemma ActualIsMeasured(w: World, i: nat)
    requires Reachable(w) && i < |w.versions| && w.versions[i].status.phase == Complete
    requires w.kind in {BackupKind, DuplicateKind, SnapshotKind}
    ensures w.process.report.Some?
    ensures var report, status := w.process.report.value, w.versions[i].status;
            && status.actual == (if report.usage.Some? then report.usage.value else 0)
            && (w.kind != SnapshotKind ==> w.setup.usage(w.setup.source) == Some(status.actual))
            && (w.kind == DuplicateKind ==> status.md5 == report.md5)
            && (w.kind != SnapshotKind && !w.setup.options.enable ==>
                  && report.md5 == ""
                  && forall p <- w.setup.source :: p != [] && (p[0] == "data" || p[0] == "chain_data") ==>
                       p in report.vault && report.vault[p] == w.setup.source[p])
            && (w.kind != SnapshotKind && w.setup.options.enable ==>
                  && w.setup.options.output in report.vault && report.vault[w.setup.options.output].File?
                  && var content := report.vault[w.setup.options.output].content;
                     && report.md5 == w.setup.md5(content) && content.Packed?
                     && forall p <- w.setup.source :: p != [] && (p[0] == "data" || p[0] == "chain_data") ==>
                          Behavior.Item(p, w.setup.source[p]) in content.items)
  {
    ReachableInv(w);
    assert Truthful(w, w.versions[i].status);
    if w.kind != SnapshotKind {
      BackupWrittenOut(w.setup, w.process.report.value.vault, w.process.report.value.md5);
    }
  }

  /** A process that replaced its annotations by an error log never leads to Complete. */
  lemma ErrorNeverCompletes(w: World, i: nat, v: nat)
    requires Reachable(w) && i < |w.versions|
    requires 1 <= v < |w.process.versions| && IsErrorLog(w.process.versions[v])
    ensures w.versions[i].status.phase != Complete
  {
    ReachableInv(w);
    TerminalIsTrue(w, i);
    ErrorLogExcludesSuccess(w.setup, w.node, OpOf(w.kind), w.process, v);
  }

  /** The Job succeeded, and its process has left nothing to show. */
  predicate Stuck(w: World)
    requires |w.slots| > 0
  {
    Reports(OpOf(w.kind)) && w.node == HelmNode && Slot(w).Some? && Slot(w).value.succeeded == 1
  }

  /** A Backup or Duplicate of a Helm node never completes, whatever happens; and once its Job has succeeded it
   *  does not fail either. */
  lemma SilentSuccess(w: World, i: nat)
    requires Reachable(w) && i < |w.versions| && Reports(OpOf(w.kind)) && w.node == HelmNode
    ensures InRange(w) && w.versions[i].status.phase != Complete
    ensures Stuck(w) ==> !Terminal(w.versions[i].status)
  {
    ReachableInv(w);
    var s := w.versions[i].status;
    assert Truthful(w, s);
  }
}
