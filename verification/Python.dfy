/** The node kind deployed as a Deployment: pkg/node/python. Writes are attempted once. */
module Python {
  import opened Wrappers
  import opened ApiServer
  import opened Envelope

  const POLL_TICKS := 20

  class Node {
    const api: Cluster
    const name: Name

    constructor (api: Cluster, name: Name)
      ensures this.api == api && this.name == name
    {
      this.api := api;
      this.name := name;
    }

    method WriteReplicas(replicas: int) returns (r: Outcome, ghost committed: bool)
      requires api.Valid()
      modifies api
      ensures api.Valid()
      ensures api.calls == if committed then old(api.calls) + [Scale(name, replicas)] else old(api.calls)
      ensures api.updates <= old(api.updates) + 1
      ensures committed <==> r.Success? || r == Failure(LostReply)
      ensures api.reliable ==> VolumesKept(old(api.store), api.store, {})
      ensures api.reliable && name in old(api.store).objects ==>
                r.Success? && name in api.store.objects && api.store.objects[name].replicas == replicas
      ensures r != Failure(Panicked)
    {
      var got := api.Get(name);
      if got.Err? { return Failure(got.error), false; }
      var dep := got.value.(replicas := replicas);
      r, committed := api.Update(name, dep, Scale(name, replicas));
    }

    /** One poll: the readiness, and then the number of pods, which must differ from one. What is seen of the
     *  readiness is noted the first time. */
    method Poll(ghost seen: bool) returns (done: Result<bool>, ghost sees: bool)
      requires api.Valid()
      modifies api
      ensures api.Valid() && (seen ==> sees)
      ensures done != Ok(true) ==>
                api.calls == if sees && !seen then old(api.calls) + [SawStopped(name)] else old(api.calls)
      ensures done == Ok(true) ==> sees
      ensures done == Ok(true) ==>
                api.calls == (if !seen then old(api.calls) + [SawStopped(name)] else old(api.calls)) + [SawDrained(name)]
      ensures api.reliable ==> VolumesKept(old(api.store), api.store, {})
      ensures api.reliable && ScaledDown(old(api.store), name) ==> done == Ok(true)
      ensures api.gets == old(api.gets) + 1 && (api.reliable && name in old(api.store).objects ==> done.Ok?)
    {
      sees := seen;
      var found := api.Get(name);
      if found.Err? { return Err(found.error), sees; }
      if found.value.ready != 0 { return Ok(false), sees; }
      if !seen { api.Note(SawStopped(name)); }
      sees := true;
      var pods := api.CountPods(name);
      if pods.Err? { return Err(pods.error), sees; }
      if pods.value == 1 { return Ok(false), sees; }
      api.Note(SawDrained(name));
      done := Ok(true);
    }

    /** Also waits for the terminating pod. */
    method CheckStopped() returns (r: Outcome)
      requires api.Valid()
      modifies api
      ensures api.Valid()
      ensures r.Success? ==> api.calls == old(api.calls) + [SawStopped(name)] + [SawDrained(name)]
      ensures r.Failure? ==>
                r.error == Timeout && (api.calls == old(api.calls) || api.calls == old(api.calls) + [SawStopped(name)])
      ensures api.reliable ==> VolumesKept(old(api.store), api.store, {})
      ensures api.reliable && ScaledDown(old(api.store), name) ==> r.Success?
      ensures r != Failure(Panicked)
      ensures api.reliable && name in old(api.store).objects && r.Failure? ==> api.gets == old(api.gets) + 20
    {
      ghost var seen := false;
      for tick := 0 to POLL_TICKS
        invariant api.Valid()
        invariant api.calls == if seen then old(api.calls) + [SawStopped(name)] else old(api.calls)
        invariant api.reliable ==> VolumesKept(old(api.store), api.store, {})
        invariant api.reliable && ScaledDown(old(api.store), name) ==> tick == 0
        invariant tick == 0 ==> api.store == old(api.store)
        invariant api.gets == old(api.gets) + tick
        invariant api.reliable && name in old(api.store).objects ==> name in api.store.objects
      {
        var done;
        done, seen := Poll(seen);
        if done.Err? { return Failure(Timeout); }
        if done.value { return Success; }
      }
      return Failure(Timeout);
    }

    /** The opening of the envelope: stop, then wait. */
    method Halt(ghost script: seq<Call>, ghost before: seq<Call>) returns (r: Outcome)
      requires api.Valid() && before == api.calls
      requires |script| >= 3 && script[0] == Scale(name, 0)
      requires script[1] == SawStopped(name) && script[2] == SawDrained(name)
      modifies api
      ensures api.Valid() && Begins(script, before, api.calls)
      ensures |api.calls| <= |before| + 3 && (r.Success? ==> |api.calls| == |before| + 3)
      ensures api.reliable ==> VolumesKept(old(api.store), api.store, {})
      ensures api.reliable && name in old(api.store).objects ==> r.Success?
      ensures r != Failure(Panicked)
    {
      ghost var committed;
      r, committed := WriteReplicas(0);
      if committed { BeginsNext(script, before, before, api.calls, 0); }
      if r.Failure? { return; }
      ghost var mid := api.calls;
      r := CheckStopped();
      if api.calls != mid { BeginsNext(script, before, mid, mid + [SawStopped(name)], 1); }
      if r.Success? { BeginsNext(script, before, mid + [SawStopped(name)], api.calls, 2); }
    }

    /** The end of the envelope; if the call was made and there is an error, then the reply was lost. */
    method StartAgain(ghost script: seq<Call>, ghost before: seq<Call>) returns (r: Outcome)
      requires api.Valid() && script != [] && script[|script| - 1] == Scale(name, 1)
      requires Begins(script, before, api.calls) && |api.calls| == |before| + |script| - 1
      modifies api
      ensures api.Valid() && Begins(script, before, api.calls) && |api.calls| >= |before| + |script| - 1
      ensures |api.calls| == |before| + |script| <==> r.Success? || r == Failure(LostReply)
      ensures api.reliable && name in old(api.store).objects ==> r.Success?
      ensures r != Failure(Panicked)
    {
      ghost var mid, committed := api.calls, false;
      r, committed := WriteReplicas(1);
      if committed { BeginsNext(script, before, mid, api.calls, |script| - 1); }
    }

    /** One operation between stop and start; the script is known by its shape. */
    method Enclosed(op: Operation, data: Data, pod: Pod, ghost script: seq<Call>)
      returns (r: Outcome, report: Option<Report>)
      requires api.Valid() && pod.Valid() && IsSound(data)
      requires IsPlan(script, StopAndStart, name, PythonNode, op, 3)
      modifies api, pod, data.dest
      ensures api.Valid() && pod.Valid()
      ensures Follows(script, old(api.calls), api.calls)
      ensures r.Success? ==> api.calls == old(api.calls) + script
      ensures forall i :: |old(api.calls)| <= i < |api.calls| && api.calls[i].Work? && !api.calls[i].ok ==>
                r.Failure? && i == |api.calls| - 1
      ensures |api.calls| == |old(api.calls)| + |script| ==> r.Success? || r == Failure(LostReply)
      ensures Reported(old(pod.versions), pod.versions, op, report)
      ensures r.Success? && Reports(op) ==>
                report.Some? && pod.versions == old(pod.versions) + [Notes(op, report.value)]
      ensures report.Some? ==>
                Reports(op) && Honest(SetupOf(data), op, report.value) && report.value.vault == data.dest.tree
      ensures api.reliable && name in old(api.store).objects && report.Some? && pod.reliable ==> r.Success?
      ensures api.reliable && name in old(api.store).objects && r.Failure? ==>
                |api.calls| > |old(api.calls)| + 3 && Fails(script, old(api.calls), api.calls)
      ensures r != Failure(Panicked)
    {
      report := None;
      ghost var before := api.calls;
      r := Halt(script, before);
      OnlyTheLastFails(script, before, api.calls);
      if r.Failure? { return; }
      r, report := PerformTasks(api, op, data, pod, script, before, 3);
      OnlyTheLastFails(script, before, api.calls);
      if r.Failure? { return; }
      r := StartAgain(script, before);
      OnlyTheLastFails(script, before, api.calls);
    }

    /** One operation, by its plan. */
    method Planned(op: Operation, action: Action, data: Data, pod: Pod, ghost script: seq<Call>, ghost p: nat)
      returns (r: Outcome, report: Option<Report>)
      requires api.Valid() && pod.Valid() && IsSound(data)
      requires action == Direct ==> p == 0 && script == Works(op)
      requires action == StopAndStart ==> IsPlan(script, StopAndStart, name, PythonNode, op, p)
      modifies api, pod, data.dest
      ensures api.Valid() && pod.Valid()
      ensures Follows(script, old(api.calls), api.calls)
      ensures r.Success? ==> api.calls == old(api.calls) + script
      ensures forall i :: |old(api.calls)| <= i < |api.calls| && api.calls[i].Work? && !api.calls[i].ok ==>
                r.Failure? && i == |api.calls| - 1
      ensures action == StopAndStart && |api.calls| == |old(api.calls)| + |script| ==>
                r.Success? || r == Failure(LostReply)
      ensures Reported(old(pod.versions), pod.versions, op, report)
      ensures r.Success? && Reports(op) ==>
                report.Some? && pod.versions == old(pod.versions) + [Notes(op, report.value)]
      ensures report.Some? ==>
                Reports(op) && Honest(SetupOf(data), op, report.value) && report.value.vault == data.dest.tree
      ensures api.reliable && name in old(api.store).objects && report.Some? && pod.reliable ==> r.Success?
      ensures api.reliable && name in old(api.store).objects && r.Failure? ==>
                && |api.calls| > |old(api.calls)| + p
                && api.calls[|api.calls| - 1].Work? && !api.calls[|api.calls| - 1].ok
      ensures r != Failure(Panicked)
    {
      match action
      case Direct => r, report := PerformDirectly(api, op, data, pod);
      case StopAndStart => r, report := Enclosed(op, data, pod, script);
    }

    /** SnapshotRecover is not implemented for this kind. */
    method Operate(op: Operation, action: Action, data: Data, pod: Pod)
      returns (r: Outcome, report: Option<Report>)
      requires api.Valid() && pod.Valid() && IsSound(data)
      modifies api, pod, data.dest
      ensures api.Valid() && pod.Valid()
      ensures op.SnapshotRecover? ==> r == Failure(Panicked) && api.run == old(api.run)
      ensures Follows(Script(action, name, PythonNode, op), old(api.calls), api.calls)
      ensures r.Success? ==> api.calls == old(api.calls) + Script(action, name, PythonNode, op)
      ensures forall i :: |old(api.calls)| <= i < |api.calls| && api.calls[i].Work? && !api.calls[i].ok ==>
                r.Failure? && i == |api.calls| - 1
      ensures action == StopAndStart && |api.calls| == |old(api.calls)| + |Script(action, name, PythonNode, op)| ==>
                r.Success? || r == Failure(LostReply)
      ensures Reported(old(pod.versions), pod.versions, op, report)
      ensures r.Success? && Reports(op) ==>
                report.Some? && pod.versions == old(pod.versions) + [Notes(op, report.value)]
      ensures report.Some? ==>
                Reports(op) && Honest(SetupOf(data), op, report.value) && report.value.vault == data.dest.tree
      ensures api.reliable && name in old(api.store).objects && report.Some? && pod.reliable ==> r.Success?
      ensures api.reliable && name in old(api.store).objects && !op.SnapshotRecover? && r.Failure? ==>
                && |api.calls| > |old(api.calls)| + |Opening(action, name, PythonNode)|
                && api.calls[|api.calls| - 1].Work? && !api.calls[|api.calls| - 1].ok
      ensures r == Failure(Panicked) ==> op.SnapshotRecover?
    {
      if op == SnapshotRecover { return Failure(Panicked), None; }
      ScriptIsPlan(action, name, PythonNode, op);
      ghost var script, p := Script(action, name, PythonNode, op), |Opening(action, name, PythonNode)|;
      r, report := Planned(op, action, data, pod, script, p);
    }
  }
}
