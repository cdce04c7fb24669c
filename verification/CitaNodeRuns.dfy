/** Histories of one CitaNode: which transitions survive the rule that a status is only persisted together
 *  with a changed condition.
 */
module CitaNodeRuns {
  import opened Wrappers
  import opened CitaNode
  import ApiServer

  /** A user edits the spec, or a reconcile runs. */
  datatype Input = Edit(stopped: bool, containers: string) | Pass(f: Faults, seen: Seen)

  function Next(w: World, input: Input): World {
    match input
    case Edit(stopped, containers) => w.(node := w.node.(stopped := stopped, containers := containers))
    case Pass(f, seen) => Reconciled(w, f, seen).0
  }

  predicate Initial(w: World) {
    w.node.status == Blank && w.node.conditions == [] && w.sts == None
  }

  ghost predicate IsRun(ws: seq<World>, inputs: seq<Input>) {
    && |ws| == |inputs| + 1 && Initial(ws[0])
    && (forall i :: 0 <= i < |inputs| ==> ws[i + 1] == Next(ws[i], inputs[i]))
  }

  /** No write of the StatefulSet or of the status fails; reads may. */
  predicate WritesSucceed(f: Faults) {
    f.writeSts == Committed && f.writeStatus == Committed
  }

  ghost predicate Smooth(inputs: seq<Input>) {
    forall i :: 0 <= i < |inputs| && inputs[i].Pass? ==> WritesSucceed(inputs[i].f)
  }

  const NO_FAULTS := Faults(false, false, false, false, false, Committed, Committed, Committed)

  function LastExternal(w: World): Option<Condition> {
    Find(w.node.conditions, ExternalTrigger)
  }

  function LastReady(w: World): Option<Condition> {
    Find(w.node.conditions, PodReady)
  }

  predicate Settled(s: NodeStatus) {
    s == Running || s == Error || s == Stopped
  }

  /***** Single steps *****/

  /** The edges a status may move along by itself. */
  predicate InternalEdge(a: NodeStatus, b: NodeStatus) {
    (a, b) in {(Starting, Running), (Stopping, Stopped), (Running, Error), (Error, Running)}
  }

  /** Whatever fails, a reconcile makes at most one move: the first one, one of the four internal ones, or
   *  to what the StatefulSet's change calls for. Stopped is entered only from Stopping and only when the
   *  pod is gone. */
  lemma OneMovePerReconcile(w: World, f: Faults, seen: Seen)
    ensures var a, b := w.node.status, Reconciled(w, f, seen).0.node.status;
            a != b ==>
              || (a == Blank && b == Starting)
              || InternalEdge(a, b)
              || (w.sts.Some? && Verdict(w.node, w.sts.value) == Some(b))
    ensures Reconciled(w, f, seen).0.node.status == Stopped && w.node.status != Stopped ==>
              w.node.status == Stopping && seen.pod.None?
  {
  }

  /** A reconcile whose StatefulSet write is not needed or gets through leaves nothing to change there, and
   *  touches neither the spec nor anything but status, conditions and StatefulSet. */
  lemma DiffIsCleared(w: World, f: Faults, seen: Seen)
    requires w.node.status != Blank && !f.getNode && !f.resources && !f.getSts && f.writeSts != Rejected
    ensures var w' := Reconciled(w, f, seen).0;
            w'.sts.Some? && Verdict(w'.node, w'.sts.value) == None
    ensures Reconciled(w, f, seen).0.node.stopped == w.node.stopped
    ensures Reconciled(w, f, seen).0.node.containers == w.node.containers
  {
  }

  /** Upgrading and Stopped are left only through the spec: once the StatefulSet matches it, no sequence of
   *  reconciles changes anything. */
  lemma {:induction false} NoWayOutWithoutSpec(w: World, later: seq<Input>)
    requires (w.node.status == Upgrading || w.node.status == Stopped) && w.sts.Some?
    requires Verdict(w.node, w.sts.value) == None
    requires forall i :: 0 <= i < |later| ==> later[i].Pass?
    ensures After(w, later) == w
    decreases later
  {
    if later != [] {
      assert Next(w, later[0]) == w;
      NoWayOutWithoutSpec(w, later[1..]);
    }
  }

  function After(w: World, later: seq<Input>): World
    decreases later
  {
    if later == [] then w else After(Next(w, later[0]), later[1..])
  }

  /***** The invariant of smooth histories *****/

  /** The reason of the last external condition tells where the node is. */
  predicate Inv(w: World) {
    && (w.sts.Some? ==> w.sts.value.replicas == 0 || w.sts.value.replicas == 1)
    && (w.sts.None? ==> LastExternal(w) == None)
    && match LastExternal(w)
       case None => w.node.status in {Blank, Starting, Running, Error}
       case Some(c) =>
         || (c.reason == EXTERNAL_START_ACTION && w.node.status in {Starting, Running, Error} &&
             w.sts.value.replicas == 1)
         || (c.reason == EXTERNAL_STOP_ACTION && w.node.status in {Stopping, Stopped} && w.sts.value.replicas == 0)
         || (c.reason == EXTERNAL_UPDATE_ACTION && w.node.status == Upgrading)
  }

  /** What a move does to the last condition of either type. */
  lemma MovedConditions(w: World, to: NodeStatus, c: Condition, fate: Fate)
    ensures var w' := Moved(w, to, c, fate).0;
            && (w' == w || (w'.node.status == to && Find(w'.node.conditions, c.kind) == Some(c)))
            && (forall kind :: kind != c.kind ==> Find(w'.node.conditions, kind) == Find(w.node.conditions, kind))
            && w'.sts == w.sts
  {
    forall kind ensures Find(WithCondition(w.node.conditions, c), kind) ==
                        if kind == c.kind then Some(c) else Find(w.node.conditions, kind) {
      FindAfterSet(w.node.conditions, c, kind);
    }
  }

  lemma ReasonsDiffer()
    ensures Reason(Starting) != Reason(Stopping) && Reason(Stopping) != Reason(Upgrading)
    ensures Reason(Starting) != Reason(Upgrading)
  {
    assert |EXTERNAL_START_ACTION| == 19 && |EXTERNAL_STOP_ACTION| == 18 && |EXTERNAL_UPDATE_ACTION| == 17;
  }

  /** Between smooth steps no external transition is dropped: the condition it brings is never the one
   *  already there. */
  lemma ExternalChangesCondition(w: World, v: NodeStatus)
    requires Inv(w) && w.sts.Some? && Verdict(w.node, w.sts.value) == Some(v) && v != w.node.status
    ensures Changes(w.node.conditions, External(w.node.status, v))
  {
    ReasonsDiffer();
  }

  lemma InternalKeepsInv(w: World, f: Faults, seen: Seen)
    requires Inv(w)
    ensures Inv(Synced(w, w.node.status, f, seen).0)
  {
    if Internal(w.node.status, seen).Some? {
      var to := Internal(w.node.status, seen).value;
      MovedConditions(w, to, Settling(to), f.writeStatus);
    }
  }

  lemma ExternalKeepsInv(w: World, v: NodeStatus)
    requires Inv(w) && w.sts.Some? && Verdict(w.node, w.sts.value) == Some(v) && v != w.node.status
    ensures Inv(Moved(Applied(w, Committed), v, External(w.node.status, v), Committed).0)
  {
    ExternalChangesCondition(w, v);
    MovedConditions(Applied(w, Committed), v, External(w.node.status, v), Committed);
  }

  lemma StepKeepsInv(w: World, input: Input)
    requires Inv(w) && (input.Pass? ==> WritesSucceed(input.f))
    ensures Inv(Next(w, input))
  {
    if input.Pass? {
      ReasonsDiffer();
      var f, seen, w1 := input.f, input.seen, Applied(w, Committed);
      InternalKeepsInv(w, f, seen);
      if w.sts.None? {
        InternalKeepsInv(w1, f, seen);
      } else if Verdict(w.node, w.sts.value).Some? {
        var v := Verdict(w.node, w.sts.value).value;
        if v == w.node.status { InternalKeepsInv(w1, f, seen); } else { ExternalKeepsInv(w, v); }
      }
    }
  }

  lemma {:induction false} SmoothInv(ws: seq<World>, inputs: seq<Input>, i: nat)
    requires IsRun(ws, inputs) && Smooth(inputs) && i < |ws|
    ensures Inv(ws[i])
  {
    if i > 0 {
      SmoothInv(ws, inputs, i - 1);
      StepKeepsInv(ws[i - 1], inputs[i - 1]);
    }
  }

  /** No externally triggered transition is dropped in a smooth history: when the StatefulSet has to change
   *  and that calls for another status, the next reconcile that gets so far persists the status together
   *  with a condition that differs from the external condition before it. */
  lemma ExternalNeverDropped(ws: seq<World>, inputs: seq<Input>, i: nat)
    requires IsRun(ws, inputs) && Smooth(inputs) && i < |inputs| && inputs[i].Pass?
    requires !inputs[i].f.getNode && !inputs[i].f.resources && !inputs[i].f.getSts
    requires ws[i].node.status != Blank && ws[i].sts.Some? && Verdict(ws[i].node, ws[i].sts.value).Some?
    ensures ws[i + 1].sts == Some(Generate(ws[i].node))
    ensures ws[i].node.status != Verdict(ws[i].node, ws[i].sts.value).value ==>
              && ws[i + 1].node.status == Verdict(ws[i].node, ws[i].sts.value).value
              && LastExternal(ws[i + 1]) == Some(External(ws[i].node.status, ws[i + 1].node.status))
              && LastExternal(ws[i + 1]) != LastExternal(ws[i])
  {
    SmoothInv(ws, inputs, i);
    var w, v := ws[i], Verdict(ws[i].node, ws[i].sts.value).value;
    MovedConditions(Applied(w, Committed), v, External(w.node.status, v), Committed);
    if v != w.node.status { ExternalChangesCondition(w, v); }
  }

  /** A stopping or stopped node has no desired replica. */
  lemma StoppedMeansScaledDown(ws: seq<World>, inputs: seq<Input>, i: nat)
    requires IsRun(ws, inputs) && Smooth(inputs) && i < |ws|
    requires ws[i].node.status == Stopping || ws[i].node.status == Stopped
    ensures ws[i].sts.Some? && ws[i].sts.value.replicas == 0
  {
    SmoothInv(ws, inputs, i);
  }

  predicate ClaimsScaledDown(w: World) {
    w.node.status in {Stopping, Stopped} ==> w.sts.Some? && w.sts.value.replicas == 0
  }

  /** What the hypothesis on writes is needed for. After a reconcile, a stopping or stopped node has a desired replica
   *  in exactly two cases: the scale-down was refused and the status written nevertheless; or the node was to run
   *  again, was scaled up for that, and the status write was refused. */
  lemma ClaimFailsExactly(w: World, f: Faults, seen: Seen)
    requires Inv(w) && w.node.status != Blank && w.sts.Some?
    requires !f.getNode && !f.resources && !f.getSts
    ensures var verdict := Verdict(w.node, w.sts.value);
            !ClaimsScaledDown(Reconciled(w, f, seen).0) <==>
              || (verdict == Some(Stopping) && f.writeSts == Rejected && f.writeStatus != Rejected)
              || (verdict in {Some(Starting), Some(Upgrading)} && w.node.status in {Stopping, Stopped} &&
                  !w.node.stopped && f.writeSts != Rejected && f.writeStatus == Rejected)
  {
    if Verdict(w.node, w.sts.value).Some? {
      var v := Verdict(w.node, w.sts.value).value;
      if v != w.node.status { ExternalChangesCondition(w, v); }
    }
  }

  /** The first case: the error of the StatefulSet's update goes unnoticed. */
  lemma SwallowedUpdateError(w: World, f: Faults, seen: Seen)
    requires Inv(w) && w.node.status != Blank && w.node.status != Stopping && w.sts.Some?
    requires Verdict(w.node, w.sts.value) == Some(Stopping)
    requires !f.getNode && !f.resources && !f.getSts && f.writeStatus == Committed
    ensures var (w', ok) := Reconciled(w, f, seen);
            ok && w'.node.status == Stopping && (w'.sts.value.replicas == 0 <==> f.writeSts != Rejected)
  {
    ExternalChangesCondition(w, Stopping);
  }

  /** As long as the StatefulSet matches the spec, reconciles do not touch the external condition, and lead to no
   *  status that only an external transition brings. */
  lemma {:induction false} MatchedStaysMatched(w: World, v: NodeStatus, later: seq<Input>)
    requires w.node.status != Blank && w.sts.Some? && Verdict(w.node, w.sts.value) == None
    requires forall i :: 0 <= i < |later| ==> later[i].Pass?
    ensures LastExternal(After(w, later)) == LastExternal(w)
    ensures v in {Starting, Stopping, Upgrading} && w.node.status != v ==> After(w, later).node.status != v
    decreases later
  {
    if later != [] {
      var f, seen := later[0].f, later[0].seen;
      if Internal(w.node.status, seen).Some? {
        var to := Internal(w.node.status, seen).value;
        MovedConditions(w, to, Settling(to), f.writeStatus);
      }
      MatchedStaysMatched(Next(w, later[0]), v, later[1..]);
    }
  }

  /** A refused status write loses an external transition for good, whatever it was: the StatefulSet matches the spec
   *  by then, so no later reconcile finds anything to report. The condition is recorded if and only if the status
   *  write got through; and if it did not, the status never becomes the one called for without another edit. */
  lemma RefusedStatusLosesTransition(w: World, v: NodeStatus, f: Faults, seen: Seen, later: seq<Input>)
    requires Inv(w) && w.node.status != Blank && w.sts.Some?
    requires Verdict(w.node, w.sts.value) == Some(v) && v != w.node.status
    requires !f.getNode && !f.resources && !f.getSts && f.writeSts != Rejected
    requires forall i :: 0 <= i < |later| ==> later[i].Pass?
    ensures var last := After(Reconciled(w, f, seen).0, later);
            && (LastExternal(last) == Some(External(w.node.status, v)) <==> f.writeStatus != Rejected)
            && (LastExternal(last) == LastExternal(w) <==> f.writeStatus == Rejected)
            && (f.writeStatus == Rejected ==> last.node.status != v)
  {
    var w', applied := Reconciled(w, f, seen).0, Applied(w, f.writeSts);
    ExternalChangesCondition(w, v);
    MovedConditions(applied, v, External(w.node.status, v), f.writeStatus);
    assert w' == Moved(applied, v, External(w.node.status, v), f.writeStatus).0;
    MatchedStaysMatched(w', v, later);
  }

  /***** Internal transitions, in every history *****/

  /** The most recent of Running, Error and Stopped. */
  function LastSettled(ws: seq<World>): Option<NodeStatus> {
    if ws == [] then None
    else if Settled(ws[|ws| - 1].node.status) then Some(ws[|ws| - 1].node.status)
    else LastSettled(ws[..|ws| - 1])
  }

  /** The status that the PodReady condition stands for. */
  predicate Shows(w: World, s: Option<NodeStatus>) {
    match s
    case None => LastReady(w) == None
    case Some(s) => Settled(s) && LastReady(w) == Some(Settling(s))
  }

  /** w' has settled as it shows, or shows what w showed. */
  predicate ReadyFollows(w: World, w': World) {
    if Settled(w'.node.status) then Shows(w', Some(w'.node.status)) else LastReady(w') == LastReady(w)
  }

  lemma ReadyFollowsSync(w: World, value: NodeStatus, f: Faults, seen: Seen)
    requires ReadyFollows(w, w)
    requires value != w.node.status ==> !Settled(value)
    ensures ReadyFollows(w, Synced(w, value, f, seen).0)
  {
    if value != w.node.status {
      MovedConditions(w, value, External(w.node.status, value), f.writeStatus);
    } else if Internal(value, seen).Some? {
      var to := Internal(value, seen).value;
      MovedConditions(w, to, Settling(to), f.writeStatus);
    }
  }

  /** Whatever fails, the readiness condition changes only when a node settles, and then says how. */
  lemma ReadyFollowsStatus(w: World, f: Faults, seen: Seen)
    requires ReadyFollows(w, w)
    ensures ReadyFollows(w, Reconciled(w, f, seen).0)
  {
    var w1 := Applied(w, f.writeSts);
    assert ReadyFollows(w1, w1);
    ReadyFollowsSync(w, w.node.status, f, seen);
    ReadyFollowsSync(w1, w.node.status, f, seen);
    if w.sts.Some? && Verdict(w.node, w.sts.value).Some? {
      ReadyFollowsSync(w1, Verdict(w.node, w.sts.value).value, f, seen);
    }
  }

  lemma {:induction false} ReadyIsLastSettled(ws: seq<World>, inputs: seq<Input>, i: nat)
    requires IsRun(ws, inputs) && i < |ws|
    ensures Shows(ws[i], LastSettled(ws[..i + 1]))
  {
    if i > 0 {
      ReadyIsLastSettled(ws, inputs, i - 1);
      assert ws[..i + 1][..i] == ws[..i];
      if inputs[i - 1].Pass? {
        ReadyFollowsStatus(ws[i - 1], inputs[i - 1].f, inputs[i - 1].seen);
      }
    }
  }

  lemma SettlingsDiffer(a: NodeStatus, b: NodeStatus)
    requires Settled(a) && Settled(b)
    ensures Settling(a) == Settling(b) <==> a == b
  {
    assert |CONTAINER_ALL_READY| == 17 && |CITA_NODE_STOPPED| == 15 && |CONTAINER_NOT_READY| == 17;
    assert CONTAINER_ALL_READY[9] != CONTAINER_NOT_READY[9];
  }

  /** Also in the pass that creates the StatefulSet, and in one that changes it without calling for another status:
   *  an internal transition is dropped exactly when the node last settled in the very status it wants to
   *  reach; so between Running and Error none is ever dropped, Starting fails to become Running exactly
   *  when the node was Running last, and Stopping fails to become Stopped when it was Stopped last. */
  lemma InternalDroppedExactly(ws: seq<World>, inputs: seq<Input>, i: nat, to: NodeStatus)
    requires IsRun(ws, inputs) && i < |inputs| && inputs[i].Pass? && ws[i].node.status != Blank
    requires ws[i].sts.None? ==> inputs[i].f.writeSts == Committed
    requires ws[i].sts.Some? ==> Verdict(ws[i].node, ws[i].sts.value) in {None, Some(ws[i].node.status)}
    requires !inputs[i].f.getNode && !inputs[i].f.resources && !inputs[i].f.getSts
    requires CanLook(ws[i].node.status, inputs[i].f, inputs[i].seen) && inputs[i].f.writeStatus == Committed
    requires Internal(ws[i].node.status, inputs[i].seen) == Some(to)
    ensures ws[i + 1].node.status == (if LastSettled(ws[..i + 1]) == Some(to) then ws[i].node.status else to)
    ensures ws[i].node.status in {Running, Error} ==> ws[i + 1].node.status == to
  {
    ReadyIsLastSettled(ws, inputs, i);
    var last := LastSettled(ws[..i + 1]);
    if last.Some? { SettlingsDiffer(last.value, to); }
  }

  /** What settled last means. */
  lemma {:induction false} LastSettledExactly(ws: seq<World>, s: NodeStatus)
    ensures LastSettled(ws) == Some(s) <==>
            exists j :: 0 <= j < |ws| && ws[j].node.status == s && s in {Running, Error, Stopped} &&
                        forall k :: j < k < |ws| ==> ws[k].node.status !in {Running, Error, Stopped}
  {
    if ws != [] && !Settled(ws[|ws| - 1].node.status) {
      var shorter := ws[..|ws| - 1];
      LastSettledExactly(shorter, s);
      assert forall k :: 0 <= k < |shorter| ==> ws[k] == shorter[k];
    }
  }

  /** The condition a node settles with. */
  lemma SettlingWrittenOut(to: NodeStatus)
    requires to in {Running, Error, Stopped}
    ensures Settling(to) ==
            if to == Running then Condition(PodReady, true, "ContainerAllReady", "Containers are all ready")
            else if to == Error then Condition(PodReady, false, "ContainerNotReady", "Containers are not ready")
            else Condition(PodReady, false, "CitaNodeStopped", "CITA Node has stopped")
  {
  }

  /** A reconcile whose StatefulSet matches the spec, or is created by it: Starting becomes Running when all replicas
   *  there are are ready, Stopping becomes Stopped when the pod is gone, Running becomes Error when some listed
   *  container is not ready, and Error becomes Running when all are; but for a node that settled there last, and for
   *  calls that fail. Nothing else moves, the condition says so, and the reconcile reports success exactly if no call
   *  it needed went wrong. */
  lemma MovesExactly(ws: seq<World>, inputs: seq<Input>, i: nat, f: Faults, seen: Seen)
    requires IsRun(ws, inputs) && i < |inputs| && inputs[i] == Pass(f, seen) && ws[i].node.status != Blank
    requires !f.getNode && !f.resources && !f.getSts
    requires if ws[i].sts.None? then f.writeSts == Committed
             else ws[i].sts == Some(StatefulSet(if ws[i].node.stopped then 0 else 1, ws[i].node.containers))
    ensures var a, b, last := ws[i].node.status, ws[i + 1].node.status, LastSettled(ws[..i + 1]);
            var to := if a == Starting && !f.readSts && seen.current == seen.ready && last != Some(Running) then Running
                      else if a == Stopping && !f.readPod && seen.pod.None? && last != Some(Stopped) then Stopped
                      else if a == Running && !f.readPod && seen.pod.Some? &&
                              (exists j :: 0 <= j < |seen.pod.value| && !seen.pod.value[j]) then Error
                      else if a == Error && !f.readPod && seen.pod.Some? &&
                              (forall j :: 0 <= j < |seen.pod.value| ==> seen.pod.value[j]) then Running
                      else a;
            && b == (if f.writeStatus == Rejected then a else to)
            && (b != a ==> LastReady(ws[i + 1]) == Some(Settling(b)))
            && (b == a ==> ws[i + 1].node == ws[i].node)
            && (Reconciled(ws[i], f, seen).1 <==>
                  && (a == Starting ==> !f.readSts) && (a == Stopping ==> !f.readPod)
                  && (a == Running || a == Error ==> !f.readPod && seen.pod.Some?)
                  && (to != a ==> f.writeStatus == Committed))
    ensures ws[i + 1].sts == Some(StatefulSet(if ws[i].node.stopped then 0 else 1, ws[i].node.containers))
  {
    var w, last := ws[i].(sts := ws[i + 1].sts), LastSettled(ws[..i + 1]);
    ReadyIsLastSettled(ws, inputs, i);
    if CanLook(w.node.status, f, seen) && Internal(w.node.status, seen).Some? {
      var to := Internal(w.node.status, seen).value;
      if last.Some? { SettlingsDiffer(last.value, to); }
      MovedConditions(w, to, Settling(to), f.writeStatus);
    }
  }

  /** A reconcile that finds another StatefulSet than the spec asks for: other containers make it an upgrade, whatever
   *  the replicas; otherwise it is the replicas that say. The status and the condition are persisted together, unless
   *  the very same condition is there already. */
  lemma ExternalMovesExactly(w: World, f: Faults, seen: Seen, v: NodeStatus, reason: string, target: StatefulSet)
    requires w.node.status != Blank && w.sts.Some? && !f.getNode && !f.resources && !f.getSts
    requires target == StatefulSet(if w.node.stopped then 0 else 1, w.node.containers) && w.sts.value != target
    requires v == if w.sts.value.containers != target.containers then Upgrading
                  else if w.sts.value.replicas > target.replicas then Stopping else Starting
    requires reason == if v == Upgrading then "ContainerAllReady"
                       else if v == Stopping then "ExternalStopAction" else "ExternalStartAction"
    requires v != w.node.status
    ensures var w', c := Reconciled(w, f, seen).0, External(w.node.status, v);
            && w'.sts == Some(if f.writeSts == Rejected then w.sts.value else target)
            && (if LastExternal(w) == Some(c) || f.writeStatus == Rejected then w'.node == w.node
                else w'.node.status == v && LastExternal(w') == Some(c) && LastReady(w') == LastReady(w))
            && c.kind == ExternalTrigger && c.status && c.reason == reason
  {
    var applied := Applied(w, f.writeSts);
    assert Verdict(w.node, w.sts.value) == Some(v);
    MovedConditions(applied, v, External(w.node.status, v), f.writeStatus);
  }

  /** The message of an external condition. */
  lemma ExternalMessage(from: NodeStatus, to: NodeStatus)
    ensures External(from, to).message == "External action: [" + Name(from) + "] -> [" + Name(to) + "]"
    ensures Name(Starting) == "Starting" && Name(Running) == "Running" && Name(Stopping) == "Stopping"
    ensures Name(Stopped) == "Stopped" && Name(Upgrading) == "Upgrading" && Name(Error) == "Error" && Name(Blank) == ""
  {
  }

  /** The first reconcile of a node, whatever else there is. */
  lemma FirstMove(w: World, f: Faults, seen: Seen)
    requires w.node.status == Blank
    ensures Reconciled(w, f, seen).0 ==
            if f.getNode || f.writeDefault == Rejected then w else w.(node := w.node.(status := Starting))
    ensures Reconciled(w, f, seen).1 <==> !f.getNode && f.writeDefault == Committed
  {
  }

  /** A reconcile that does not get to the status: it fails, and at most the StatefulSet is created. */
  lemma EarlyEnd(w: World, f: Faults, seen: Seen)
    requires w.node.status != Blank
    requires f.getNode || f.resources || f.getSts || (w.sts.None? && f.writeSts != Committed)
    ensures Reconciled(w, f, seen).0 ==
            if f.getNode || f.resources || f.getSts || w.sts.Some? || f.writeSts == Rejected then w
            else w.(sts := Some(StatefulSet(if w.node.stopped then 0 else 1, w.node.containers)))
    ensures !Reconciled(w, f, seen).1
  {
  }

  /** A reconcile without faults, after an edit that scales the StatefulSet from one side to the other. */
  lemma ScaledByEdit(w: World, stopped: bool, seen: Seen)
    requires Inv(w) && w.sts == Some(Generate(w.node)) && w.node.stopped != stopped
    requires w.node.status != Blank && w.node.status != (if stopped then Stopping else Starting)
    ensures var w' := After(w, [Edit(stopped, w.node.containers), Pass(NO_FAULTS, seen)]);
            && w'.node.status == (if stopped then Stopping else Starting) && w'.node.stopped == stopped
            && w'.node.containers == w.node.containers
            && w'.sts == Some(Generate(w'.node)) && LastReady(w') == LastReady(w) && Inv(w')
  {
    var input := Pass(NO_FAULTS, seen);
    AfterTwo(w, Edit(stopped, w.node.containers), input);
    var e := Next(w, Edit(stopped, w.node.containers));
    var v := if stopped then Stopping else Starting;
    ExternalChangesCondition(e, v);
    MovedConditions(Applied(e, Committed), v, External(e.node.status, v), Committed);
    StepKeepsInv(e, input);
  }

  /** The witness: a running node that is stopped and started again before it was seen to have stopped
   *  never becomes Running again, however often it is reconciled and whatever is seen. */
  lemma QuickRestartIsNeverRunning(w: World, seen1: Seen, seen2: Seen, later: seq<Input>)
    requires w.node.status == Running && LastReady(w) == Some(Settling(Running)) && !w.node.stopped
    requires w.sts == Some(Generate(w.node)) && Inv(w)
    requires forall i :: 0 <= i < |later| ==> later[i].Pass?
    ensures var w1 := After(w, [Edit(true, w.node.containers), Pass(NO_FAULTS, seen1)]);
            var w2 := After(w1, [Edit(false, w.node.containers), Pass(NO_FAULTS, seen2)]);
            && w1.node.status == Stopping && w2.node.status == Starting
            && After(w2, later).node.status == Starting
  {
    ScaledByEdit(w, true, seen1);
    var w1 := After(w, [Edit(true, w.node.containers), Pass(NO_FAULTS, seen1)]);
    ScaledByEdit(w1, false, seen2);
    StaysStarting(After(w1, [Edit(false, w.node.containers), Pass(NO_FAULTS, seen2)]), later);
  }

  lemma AfterTwo(w: World, a: Input, b: Input)
    ensures After(w, [a, b]) == Next(Next(w, a), b)
  {
    assert [a, b][1..] == [b];
    assert After(Next(w, a), [b]) == After(Next(Next(w, a), b), []);
  }

  lemma {:induction false} StaysStarting(w: World, later: seq<Input>)
    requires w.node.status == Starting && LastReady(w) == Some(Settling(Running))
    requires w.sts == Some(Generate(w.node))
    requires forall i :: 0 <= i < |later| ==> later[i].Pass?
    ensures After(w, later).node.status == Starting
    decreases later
  {
    if later != [] {
      assert Next(w, later[0]) == w;
      StaysStarting(Next(w, later[0]), later[1..]);
    }
  }

  /** A StatefulSet that somebody else has scaled to 0 is scaled up again by the next reconcile, if its write gets
   *  through, unless the spec says that the node is stopped. */
  lemma ScaledUpAgainExactly(w: World, f: Faults, seen: Seen)
    requires w.node.status != Blank && w.sts.Some? && w.sts.value.replicas == 0
    requires !f.getNode && !f.resources && !f.getSts && f.writeSts != Rejected
    ensures Reconciled(w, f, seen).0.sts.Some?
    ensures Reconciled(w, f, seen).0.sts.value.replicas == if w.node.stopped then 0 else 1
  {
  }

  /** So for a node managed here, another actor keeps to what a stopped workload may rely on only if the spec of the
   *  node says that it is stopped. */
  lemma QuietNeedsStoppedSpec(w: World, f: Faults, seen: Seen, n: ApiServer.Name, s: ApiServer.Store, t: ApiServer.Store)
    requires w.node.status != Blank && w.sts.Some? && w.sts.value.replicas == 0
    requires !f.getNode && !f.resources && !f.getSts && f.writeSts != Rejected
    requires n in s.objects && s.objects[n].replicas == w.sts.value.replicas
    requires n in t.objects && Reconciled(w, f, seen).0.sts.Some?
    requires t.objects[n].replicas == Reconciled(w, f, seen).0.sts.value.replicas
    ensures ApiServer.Permits(ApiServer.Quiet, s, t) ==> w.node.stopped
  {
    ScaledUpAgainExactly(w, f, seen);
  }

  /** When Running is entered on the sight of nothing. A starting node becomes Running without any ready replica
   *  exactly if its StatefulSet has no replica at all; one in error becomes Running without any container seen
   *  ready exactly if the pod's status lists no container. */
  lemma RunningUnseenExactly(w: World, f: Faults, seen: Seen)
    requires w.node.status != Running && Reconciled(w, f, seen).0.node.status == Running
    ensures w.node.status == Starting || w.node.status == Error
    ensures w.node.status == Starting ==> (seen.ready == 0 <==> seen.current == 0)
    ensures w.node.status == Error ==>
              && seen.pod.Some?
              && ((forall i :: 0 <= i < |seen.pod.value| ==> !seen.pod.value[i]) <==> seen.pod.value == [])
  {
    if w.node.status == Error && seen.pod.Some? && seen.pod.value != [] { assert seen.pod.value[0]; }
  }

  /** Both happen: to a node just created, at the sight of a StatefulSet that has no replica yet, ... */
  lemma RunningWithoutPod(w: World, pod: Option<seq<bool>>)
    requires w.node.status == Starting && w.sts == None && LastReady(w) == None
    ensures Reconciled(w, NO_FAULTS, Seen(0, 0, pod)).0.node.status == Running
  {
  }

  /** ... and to a node in error whose pod has just been replaced, whatever the StatefulSet shows. */
  lemma RunningWithoutContainers(w: World, current: nat, ready: nat)
    requires w.node.status == Error && LastReady(w) == Some(Settling(Error))
    requires w.sts == Some(Generate(w.node))
    ensures Reconciled(w, NO_FAULTS, Seen(current, ready, Some([]))).0.node.status == Running
  {
    SettlingsDiffer(Error, Running);
  }
}
