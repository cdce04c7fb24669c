/** The CitaNode state machine: its persisted status and conditions, the StatefulSet it keeps in step with
 *  the spec, and the in-memory NodeMap through which the halves of a reconcile talk to each other.
 */
module CitaNode {
  import opened Wrappers

  type Key = string

  datatype NodeStatus = Blank | Starting | Running | Stopping | Stopped | Upgrading | Error

  datatype ConditionType = PodReady | ExternalTrigger

  datatype Condition = Condition(kind: ConditionType, status: bool, reason: string, message: string)

  const CONTAINER_NOT_READY := "ContainerNotReady"
  const CONTAINER_ALL_READY := "ContainerAllReady"
  const CITA_NODE_STOPPED := "CitaNodeStopped"
  const EXTERNAL_START_ACTION := "ExternalStartAction"
  const EXTERNAL_STOP_ACTION := "ExternalStopAction"
  const EXTERNAL_UPDATE_ACTION := "ContainerAllReady"  // the constant's value, whatever its name says

  /** stopped: the desired state is Stopped; containers: what the spec makes the pod's containers. */
  datatype Node = Node(stopped: bool, containers: string, status: NodeStatus, conditions: seq<Condition>)

  datatype StatefulSet = StatefulSet(replicas: int, containers: string)

  /** What is stored about one node. Only the operator writes the StatefulSet's spec. */
  datatype World = World(node: Node, sts: Option<StatefulSet>)

  /** What becomes of a write: Lost means committed, with an error for the caller. */
  datatype Fate = Committed | Rejected | Lost

  /** Which calls of one reconcile go wrong. */
  datatype Faults = Faults(
    getNode: bool, resources: bool, getSts: bool, readSts: bool, readPod: bool,
    writeDefault: Fate, writeSts: Fate, writeStatus: Fate)

  /** What the second half of a reconcile sees of the cluster: the StatefulSet's status, and the readiness
   *  of the containers of the pod, if there is a pod. The cluster may show anything at any time. */
  datatype Seen = Seen(current: nat, ready: nat, pod: Option<seq<bool>>)

  /***** Conditions *****/

  function Find(cs: seq<Condition>, kind: ConditionType): Option<Condition> {
    if cs == [] then None
    else if cs[0].kind == kind then Some(cs[0])
    else Find(cs[1..], kind)
  }

  /** The condition of that type is replaced, or a new one appended. */
  function WithCondition(cs: seq<Condition>, c: Condition): seq<Condition> {
    if cs == [] then [c]
    else if cs[0].kind == c.kind then [c] + cs[1..]
    else [cs[0]] + WithCondition(cs[1..], c)
  }

  lemma {:induction false} FindAfterSet(cs: seq<Condition>, c: Condition, kind: ConditionType)
    ensures Find(WithCondition(cs, c), kind) == if kind == c.kind then Some(c) else Find(cs, kind)
  {
    if cs != [] && cs[0].kind != c.kind {
      FindAfterSet(cs[1..], c, kind);
    }
  }

  /** What SetCondition answers. */
  predicate Changes(cs: seq<Condition>, c: Condition) {
    Find(cs, c.kind) != Some(c)
  }

  /** How an operator sees a node settle. */
  function Settling(s: NodeStatus): Condition
    requires s == Running || s == Error || s == Stopped
  {
    match s
    case Running => Condition(PodReady, true, CONTAINER_ALL_READY, "Containers are all ready")
    case Error => Condition(PodReady, false, CONTAINER_NOT_READY, "Containers are not ready")
    case Stopped => Condition(PodReady, false, CITA_NODE_STOPPED, "CITA Node has stopped")
  }

  function Name(s: NodeStatus): string {
    match s
    case Blank => ""
    case Starting => "Starting"
    case Running => "Running"
    case Stopping => "Stopping"
    case Stopped => "Stopped"
    case Upgrading => "Upgrading"
    case Error => "Error"
  }

  function Reason(s: NodeStatus): string {
    match s
    case Starting => EXTERNAL_START_ACTION
    case Stopping => EXTERNAL_STOP_ACTION
    case Upgrading => EXTERNAL_UPDATE_ACTION
    case _ => ""
  }

  function External(from: NodeStatus, to: NodeStatus): Condition {
    Condition(ExternalTrigger, true, Reason(to), "External action: [" + Name(from) + "] -> [" + Name(to) + "]")
  }

  /***** What a reconcile amounts to, without any cache *****/

  function Generate(n: Node): StatefulSet {
    StatefulSet(if n.stopped then 0 else 1, n.containers)
  }

  /** How the StatefulSet must change to match the spec. */
  function Verdict(n: Node, sts: StatefulSet): Option<NodeStatus> {
    if sts.containers != n.containers then Some(Upgrading)
    else if sts.replicas > Generate(n).replicas then Some(Stopping)
    else if sts.replicas < Generate(n).replicas then Some(Starting)
    else None
  }

  predicate AllReady(pod: seq<bool>) {
    forall i :: 0 <= i < |pod| ==> pod[i]
  }

  /** Where a status wants to go by itself. */
  function Internal(s: NodeStatus, seen: Seen): Option<NodeStatus> {
    match s
    case Starting => if seen.current == seen.ready then Some(Running) else None
    case Stopping => if seen.pod.None? then Some(Stopped) else None
    case Running => if seen.pod.Some? && !AllReady(seen.pod.value) then Some(Error) else None
    case Error => if seen.pod.Some? && AllReady(seen.pod.value) then Some(Running) else None
    case _ => None
  }

  /** The reads that a status needs to know where it wants to go. */
  predicate CanLook(s: NodeStatus, f: Faults, seen: Seen) {
    match s
    case Starting => !f.readSts
    case Stopping => !f.readPod
    case Running => !f.readPod && seen.pod.Some?
    case Error => !f.readPod && seen.pod.Some?
    case _ => true
  }

  /** Status and condition are written together, and only if the condition changes. */
  function Moved(w: World, to: NodeStatus, c: Condition, fate: Fate): (World, bool) {
    if !Changes(w.node.conditions, c) then (w, true)
    else if fate == Rejected then (w, false)
    else (w.(node := w.node.(status := to, conditions := WithCondition(w.node.conditions, c))), fate == Committed)
  }

  function Synced(w: World, value: NodeStatus, f: Faults, seen: Seen): (World, bool) {
    if value != w.node.status then Moved(w, value, External(w.node.status, value), f.writeStatus)
    else if !CanLook(value, f, seen) then (w, false)
    else
      match Internal(value, seen)
      case None => (w, true)
      case Some(to) => Moved(w, to, Settling(to), f.writeStatus)
  }

  /** The StatefulSet as the spec wants it, if the write gets through. */
  function Applied(w: World, fate: Fate): World {
    if fate == Rejected then w else w.(sts := Some(Generate(w.node)))
  }

  /** The world after a reconcile, and whether the reconcile reported success. An error of the
   *  StatefulSet's update is not among those reported. */
  function Reconciled(w: World, f: Faults, seen: Seen): (World, bool) {
    if f.getNode then (w, false)
    else if w.node.status == Blank then
      (if f.writeDefault == Rejected then w else w.(node := w.node.(status := Starting)), f.writeDefault == Committed)
    else if f.resources || f.getSts then (w, false)
    else if w.sts.None? then
      if f.writeSts != Committed then (Applied(w, f.writeSts), false)
      else Synced(Applied(w, f.writeSts), w.node.status, f, seen)
    else
      match Verdict(w.node, w.sts.value)
      case None => Synced(w, w.node.status, f, seen)
      case Some(v) => Synced(Applied(w, f.writeSts), v, f, seen)
  }

  /***** The reconciler *****/

  class Server {
    var worlds: map<Key, World>

    constructor (worlds: map<Key, World>)
      ensures this.worlds == worlds
    {
      this.worlds := worlds;
    }
  }

  class Reconciler {
    const api: Server
    var nodeMap: map<Key, NodeStatus>

    constructor (api: Server, nodeMap: map<Key, NodeStatus>)
      ensures this.api == api && this.nodeMap == nodeMap
    {
      this.api := api;
      this.nodeMap := nodeMap;
    }

    /** The status write, of the node as changed locally. */
    method UpdateStatus(key: Key, node: Node, fate: Fate) returns (ok: bool)
      requires key in api.worlds
      modifies api
      ensures ok <==> fate == Committed
      ensures api.worlds ==
                if fate == Rejected then old(api.worlds) else old(api.worlds)[key := old(api.worlds[key]).(node := node)]
    {
      if fate != Rejected {
        api.worlds := api.worlds[key := api.worlds[key].(node := node)];
      }
      ok := fate == Committed;
    }

    method SetDefaultStatus(key: Key, node: Node, fate: Fate) returns (updated: bool, ok: bool)
      requires key in api.worlds && node == api.worlds[key].node
      modifies api
      ensures updated || !ok <==> node.status == Blank
      ensures ok <==> node.status != Blank || fate == Committed
      ensures api.worlds ==
                if node.status != Blank || fate == Rejected then old(api.worlds)
                else old(api.worlds)[key := old(api.worlds[key]).(node := node.(status := Starting))]
    {
      if node.status == Blank {
        ok := UpdateStatus(key, node.(status := Starting), fate);
        return ok, ok;
      }
      return false, true;
    }

    /** The verdict comes back together with the error of the update. */
    method ReconcileStatefulSet(key: Key, node: Node, f: Faults) returns (nv: Option<NodeStatus>, ok: bool)
      requires key in api.worlds && node == api.worlds[key].node
      modifies api
      ensures var w := old(api.worlds[key]);
              if f.getSts then !ok && nv == None && api.worlds == old(api.worlds)
              else if w.sts.None? then
                && nv == None && ok == (f.writeSts == Committed)
                && api.worlds == old(api.worlds)[key := Applied(w, f.writeSts)]
              else
                && nv == Verdict(node, w.sts.value)
                && ok == (nv.None? || f.writeSts == Committed)
                && api.worlds == old(api.worlds)[key := if nv.None? then w else Applied(w, f.writeSts)]
    {
      if f.getSts { return None, false; }
      var w := api.worlds[key];
      if w.sts.None? {
        if f.writeSts != Rejected {
          api.worlds := api.worlds[key := w.(sts := Some(Generate(node)))];
        }
        return None, f.writeSts == Committed;
      }
      var prior, cur := w.sts.value, Generate(node);
      if prior.containers == cur.containers {
        if prior.replicas == cur.replicas {
          return None, true;
        } else if prior.replicas > cur.replicas {
          nv := Some(Stopping);
        } else {
          nv := Some(Starting);
        }
      } else {
        nv := Some(Upgrading);
      }
      prior := prior.(containers := cur.containers);
      prior := prior.(replicas := cur.replicas);
      if f.writeSts != Rejected {
        api.worlds := api.worlds[key := w.(sts := Some(prior))];
      }
      ok := f.writeSts == Committed;
    }

    /** Leaves the verdict, if there is one, in the NodeMap. */
    method ReconcileAllResource(key: Key, node: Node, f: Faults) returns (ok: bool)
      requires key in api.worlds && node == api.worlds[key].node && key in nodeMap && nodeMap[key] == node.status
      modifies api, this
      ensures key in api.worlds && key in nodeMap && nodeMap - {key} == old(nodeMap) - {key}
      ensures var w := old(api.worlds[key]);
              if f.resources || f.getSts then !ok && api.worlds == old(api.worlds)
              else if w.sts.None? then
                && ok == (f.writeSts == Committed)
                && api.worlds == old(api.worlds)[key := Applied(w, f.writeSts)] && nodeMap == old(nodeMap)
              else
                var nv := Verdict(node, w.sts.value);
                && ok
                && api.worlds == old(api.worlds)[key := if nv.None? then w else Applied(w, f.writeSts)]
                && nodeMap[key] == if nv.Some? then nv.value else node.status
    {
      if f.resources { return false; }
      var nv;
      nv, ok := ReconcileStatefulSet(key, node, f);
      if !ok && nv.None? { return false; }
      if nv.None? { return true; }
      if nodeMap[key] != nv.value {
        nodeMap := nodeMap[key := nv.value];
      }
      return true;
    }

    method SetStatusAndCondition(key: Key, wanted: NodeStatus, node: Node, c: Condition, fate: Fate) returns (ok: bool)
      requires key in api.worlds && node == api.worlds[key].node
      modifies api
      ensures var (w, done) := Moved(old(api.worlds[key]), wanted, c, fate);
              ok == done && api.worlds == old(api.worlds)[key := w]
    {
      var cur := node.(status := wanted);
      var changed := Changes(cur.conditions, c);
      cur := cur.(conditions := WithCondition(cur.conditions, c));
      if changed {
        ok := UpdateStatus(key, cur, fate);
        return;
      }
      return true;
    }

    /** Brings the persisted status towards what the NodeMap says. */
    method SyncStatus(key: Key, node: Node, f: Faults, seen: Seen) returns (ok: bool)
      requires key in api.worlds && node == api.worlds[key].node && key in nodeMap
      modifies api
      ensures var (w, done) := Synced(old(api.worlds[key]), nodeMap[key], f, seen);
              ok == done && api.worlds == old(api.worlds)[key := w]
    {
      var value := nodeMap[key];
      if value != node.status {
        ok := SetStatusAndCondition(key, value, node, External(node.status, value), f.writeStatus);
        return;
      }
      if value == Starting {
        if f.readSts { return false; }
        if seen.current == seen.ready {
          ok := SetStatusAndCondition(key, Running, node, Settling(Running), f.writeStatus);
          return;
        }
      }
      if value == Stopping {
        if f.readPod { return false; }
        if seen.pod.None? {
          ok := SetStatusAndCondition(key, Stopped, node, Settling(Stopped), f.writeStatus);
          return;
        }
      }
      if value == Running {
        if f.readPod || seen.pod.None? { return false; }
        for i := 0 to |seen.pod.value|
          invariant forall j :: 0 <= j < i ==> seen.pod.value[j]
          invariant api.worlds == old(api.worlds)
        {
          if !seen.pod.value[i] {
            ok := SetStatusAndCondition(key, Error, node, Settling(Error), f.writeStatus);
            return;
          }
        }
      }
      if value == Error {
        if f.readPod || seen.pod.None? { return false; }
        var allReady := true;
        for i := 0 to |seen.pod.value|
          invariant allReady && forall j :: 0 <= j < i ==> seen.pod.value[j]
        {
          if !seen.pod.value[i] {
            allReady := false;
            break;
          }
        }
        if allReady {
          ok := SetStatusAndCondition(key, Running, node, Settling(Running), f.writeStatus);
          return;
        }
      }
      return true;
    }

    /** Whatever the NodeMap held before, a reconcile does what the cache-free function says, to its own
     *  node alone, and leaves the NodeMap's other keys as they were. */
    method Reconcile(key: Key, f: Faults, seen: Seen) returns (ok: bool)
      modifies api, this
      ensures key in old(api.worlds) ==>
                && ok == Reconciled(old(api.worlds[key]), f, seen).1
                && api.worlds == old(api.worlds)[key := Reconciled(old(api.worlds[key]), f, seen).0]
      ensures key !in old(api.worlds) ==> api.worlds == old(api.worlds) && (ok <==> !f.getNode)
      ensures nodeMap - {key} == old(nodeMap) - {key}
      ensures f.getNode || key !in old(api.worlds) ==> key !in nodeMap
    {
      if f.getNode || key !in api.worlds {
        nodeMap := nodeMap - {key};
        return !f.getNode;
      }
      var node := api.worlds[key].node;
      var updated;
      updated, ok := SetDefaultStatus(key, node, f.writeDefault);
      if updated || !ok { return; }
      nodeMap := nodeMap[key := node.status];
      ok := ReconcileAllResource(key, node, f);
      if !ok { return; }
      ok := SyncStatus(key, node, f, seen);
    }
  }
}
