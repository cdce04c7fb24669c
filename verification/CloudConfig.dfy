/** The node kind deployed as one StatefulSet: pkg/node/cloud_config. */
module CloudConfig {
  import opened Wrappers
  import opened ApiServer
  import opened Envelope

  const RETRY_STEPS := 5  // retry.DefaultRetry
  const POLL_TICKS := 20  // every 3 seconds for 60 seconds

  /** Decoded objects are shared by reference: copying a volume copies the reference to its source. */
  class ConfigMapSource {
    var name: string

    constructor (name: string)
      ensures this.name == name
    {
      this.name := name;
    }
  }

  datatype VolumeRef = VolumeRef(name: string, configMap: ConfigMapSource?)

  ghost predicate Separate(refs: seq<VolumeRef>) {
    forall i, j :: 0 <= i < j < |refs| && refs[i].configMap != null ==> refs[i].configMap != refs[j].configMap
  }

  function Encoded(refs: seq<VolumeRef>): (vs: seq<Volume>)
    reads set i | 0 <= i < |refs| && refs[i].configMap != null :: refs[i].configMap
    ensures |vs| == |refs|
  {
    seq(|refs|, i requires 0 <= i < |refs|
                  reads set i | 0 <= i < |refs| && refs[i].configMap != null :: refs[i].configMap
                => var r := refs[i]; Volume(r.name, if r.configMap == null then None else Some(r.configMap.name)))
  }

  method Decode(vs: seq<Volume>) returns (refs: seq<VolumeRef>)
    ensures Separate(refs) && Encoded(refs) == vs
    ensures forall i :: 0 <= i < |refs| && refs[i].configMap != null ==> fresh(refs[i].configMap)
  {
    refs := [];
    for i := 0 to |vs|
      invariant |refs| == i
      invariant Separate(refs)
      invariant forall k :: 0 <= k < i && refs[k].configMap != null ==> fresh(refs[k].configMap)
      invariant Encoded(refs) == vs[..i]
    {
      ghost var before := Encoded(refs);
      var cm: ConfigMapSource? := null;
      if vs[i].configMap.Some? {
        cm := new ConfigMapSource(vs[i].configMap.value);
      }
      refs := refs + [VolumeRef(vs[i].name, cm)];
      assert Encoded(refs)[..i] == before;
      assert Encoded(refs) == before + [vs[i]];
    }
  }

  /** The account reference of every account volume is replaced through the shared reference. */
  method Rebind(vs: seq<Volume>, account: string) returns (r: Result<seq<Volume>>)
    ensures r.Ok? ==> r.value == WithAccount(vs, account)
    ensures r.Err? <==> exists i :: 0 <= i < |vs| && IsAccount(vs[i]) && vs[i].configMap.None?
    ensures r.Err? ==> r.error == Panicked
  {
    var refs := Decode(vs);
    assert forall k :: 0 <= k < |vs| ==> Encoded(refs)[k] == vs[k];
    for i := 0 to |refs|
      invariant |refs| == |vs| && Separate(refs)
      invariant forall k :: 0 <= k < |refs| && refs[k].configMap != null ==> fresh(refs[k].configMap)
      invariant forall k :: 0 <= k < |vs| ==> Encoded(refs)[k] == if k < i then Rebound(vs[k], account) else vs[k]
      invariant forall k :: 0 <= k < i && IsAccount(vs[k]) ==> vs[k].configMap.Some?
    {
      var vol := refs[i];
      assert Encoded(refs)[i] == vs[i];
      if vol.name == ACCOUNT_VOLUME {
        if vol.configMap == null { return Err(Panicked); }
        vol.configMap.name := account;
      }
    }
    assert Encoded(refs) == WithAccount(vs, account);
    return Ok(Encoded(refs));
  }

  class Node {
    const api: Cluster
    const name: Name

    constructor (api: Cluster, name: Name)
      ensures this.api == api && this.name == name
    {
      this.api := api;
      this.name := name;
    }

    /** One read-modify-write of the desired replicas, retried on conflict. */
    method WriteReplicas(replicas: int) returns (r: Outcome, ghost committed: bool)
      requires api.Valid()
      modifies api
      ensures api.Valid()
      ensures api.calls == if committed then old(api.calls) + [Scale(name, replicas)] else old(api.calls)
      ensures api.updates <= old(api.updates) + 5
      ensures r == Failure(Conflict) ==> api.updates == old(api.updates) + 5
      ensures committed <==> r.Success? || r == Failure(LostReply)
      ensures api.reliable ==> VolumesKept(old(api.store), api.store, {})
      ensures api.reliable && name in old(api.store).objects ==>
                r.Success? && name in api.store.objects && api.store.objects[name].replicas == replicas
      ensures r != Failure(Panicked)
    {
      for attempt := 0 to RETRY_STEPS
        invariant api.Valid()
        invariant api.calls == old(api.calls) && api.updates == old(api.updates) + attempt
        invariant api.reliable ==> attempt == 0 && api.store == old(api.store)
      {
        var got := api.Get(name);
        if got.Err? { return Failure(got.error), false; }
        var sts := got.value.(replicas := replicas);
        r, committed := api.Update(name, sts, Scale(name, replicas));
        if r != Failure(Conflict) { return; }
      }
      return Failure(Conflict), false;
    }

    method Stop() returns (r: Outcome, ghost committed: bool)
      requires api.Valid()
      modifies api
      ensures api.Valid()
      ensures api.calls == if committed then old(api.calls) + [Scale(name, 0)] else old(api.calls)
      ensures api.updates <= old(api.updates) + 5
      ensures r == Failure(Conflict) ==> api.updates == old(api.updates) + 5
      ensures committed <==> r.Success? || r == Failure(LostReply)
      ensures api.reliable ==> VolumesKept(old(api.store), api.store, {})
      ensures api.reliable && name in old(api.store).objects ==>
                r.Success? && name in api.store.objects && api.store.objects[name].replicas == 0
      ensures r != Failure(Panicked)
    {
      r, committed := WriteReplicas(0);
    }

    method Start() returns (r: Outcome, ghost committed: bool)
      requires api.Valid()
      modifies api
      ensures api.Valid()
      ensures api.calls == if committed then old(api.calls) + [Scale(name, 1)] else old(api.calls)
      ensures api.updates <= old(api.updates) + 5
      ensures r == Failure(Conflict) ==> api.updates == old(api.updates) + 5
      ensures committed <==> r.Success? || r == Failure(LostReply)
      ensures api.reliable ==> VolumesKept(old(api.store), api.store, {})
      ensures api.reliable && name in old(api.store).objects ==>
                r.Success? && name in api.store.objects && api.store.objects[name].replicas == 1
      ensures r != Failure(Panicked)
    {
      r, committed := WriteReplicas(1);
    }

    /** Any error of the poll, a failed read included, is reported as a timeout. */
    method CheckStopped() returns (r: Outcome)
      requires api.Valid()
      modifies api
      ensures api.Valid()
      ensures r.Success? ==> api.calls == old(api.calls) + [SawStopped(name)]
      ensures r.Failure? ==> r.error == Timeout && api.calls == old(api.calls)
      ensures api.reliable ==> VolumesKept(old(api.store), api.store, {})
      ensures api.reliable && ScaledDown(old(api.store), name) ==> r.Success?
      ensures r != Failure(Panicked)
      ensures api.reliable && name in old(api.store).objects && r.Failure? ==> api.gets == old(api.gets) + 20
    {
      for tick := 0 to POLL_TICKS
        invariant api.Valid()
        invariant api.calls == old(api.calls)
        invariant api.reliable ==> VolumesKept(old(api.store), api.store, {})
        invariant api.reliable && ScaledDown(old(api.store), name) ==> tick == 0
        invariant tick == 0 ==> api.store == old(api.store)
        invariant api.gets == old(api.gets) + tick
        invariant api.reliable && name in old(api.store).objects ==> name in api.store.objects
      {
        var found := api.Get(name);
        if found.Err? { return Failure(Timeout); }
        if found.value.ready == 0 {
          api.Note(SawStopped(name));
          return Success;
        }
      }
      return Failure(Timeout);
    }

    method GetAccountConfigmap() returns (r: Result<string>)
      requires api.Valid()
      modifies api
      ensures api.Valid()
      ensures r.Ok? ==> api.calls == old(api.calls) + [ReadAccount(name, r.value)]
      ensures r.Err? ==> api.calls == old(api.calls)
      ensures api.reliable ==> VolumesKept(old(api.store), api.store, {})
      ensures api.reliable && Usable(old(api.store), name) ==> r == Ok(Account(old(api.store).objects[name].volumes))
    {
      var got := api.Get(name);
      if got.Err? { return Err(got.error); }
      var volumes := got.value.volumes;
      for i := 0 to |volumes|
        invariant api.Valid() && api.calls == old(api.calls)
        invariant name in api.store.objects && api.store.objects[name].volumes == volumes
        invariant Account(volumes) == Account(volumes[i..])
        invariant api.reliable ==> VolumesKept(old(api.store), api.store, {})
      {
        if IsAccount(volumes[i]) {
          if volumes[i].configMap.None? { return Err(Panicked); }
          api.Note(ReadAccount(name, volumes[i].configMap.value));
          return Ok(volumes[i].configMap.value);
        }
      }
      api.Note(ReadAccount(name, ""));
      return Ok("");
    }

    method UpdateAccountConfigmap(account: string) returns (r: Outcome, ghost committed: bool)
      requires api.Valid()
      modifies api
      ensures api.Valid()
      ensures api.calls == if committed then old(api.calls) + [SetAccount(name, account)] else old(api.calls)
      ensures api.updates <= old(api.updates) + 5
      ensures r == Failure(Conflict) ==> api.updates == old(api.updates) + 5
      ensures committed <==> r.Success? || r == Failure(LostReply)
      ensures api.reliable ==> VolumesKept(old(api.store), api.store, {name})
      ensures api.reliable && Usable(old(api.store), name) ==>
                (r.Success? <==> account != "" || !HasAccount(old(api.store).objects[name].volumes))
    {
      for attempt := 0 to RETRY_STEPS
        invariant api.Valid()
        invariant api.calls == old(api.calls) && api.updates == old(api.updates) + attempt
        invariant api.reliable ==> attempt == 0 && api.store == old(api.store)
      {
        var got := api.Get(name);
        if got.Err? { return Failure(got.error), false; }
        var volumes := Rebind(got.value.volumes, account);
        if volumes.Err? { return Failure(volumes.error), false; }
        var sts := got.value.(volumes := volumes.value);
        AccountAcceptable(got.value, account);
        r, committed := api.Update(name, sts, SetAccount(name, account));
        if r != Failure(Conflict) { return; }
      }
      return Failure(Conflict), false;
    }

    /** Stop the node and wait; the two calls sit at place p of the script. */
    method Halt(ghost script: seq<Call>, ghost before: seq<Call>, ghost p: nat) returns (r: Outcome)
      requires api.Valid() && Begins(script, before, api.calls) && |api.calls| == |before| + p
      requires p + 2 <= |script| && script[p] == Scale(name, 0) && script[p + 1] == SawStopped(name)
      modifies api
      ensures api.Valid() && Begins(script, before, api.calls)
      ensures |before| + p <= |api.calls| <= |before| + p + 2
      ensures r.Success? ==> |api.calls| == |before| + p + 2
      ensures api.reliable ==> VolumesKept(old(api.store), api.store, {})
      ensures api.reliable && name in old(api.store).objects ==> r.Success?
      ensures r != Failure(Panicked)
    {
      ghost var mid, committed := api.calls, false;
      r, committed := Stop();
      if committed { BeginsNext(script, before, mid, api.calls, p); }
      if r.Failure? { return; }
      mid := api.calls;
      r := CheckStopped();
      if r.Success? { BeginsNext(script, before, mid, api.calls, p + 1); }
    }

    /** The end of the envelope; if the call was made and there is an error, then the reply was lost. */
    method StartAgain(ghost script: seq<Call>, ghost before: seq<Call>) returns (r: Outcome)
      requires api.Valid() && script != [] && script[|script| - 1] == Scale(name, 1)
      requires Begins(script, before, api.calls) && |api.calls| == |before| + |script| - 1
      modifies api
      ensures api.Valid() && Begins(script, before, api.calls) && |api.calls| >= |before| + |script| - 1
      ensures |api.calls| == |before| + |script| <==> r.Success? || r == Failure(LostReply)
      ensures api.reliable && name in old(api.store).objects ==> r.Success?
      ensures r != Failure(Panicked)
    {
      ghost var mid, committed := api.calls, false;
      r, committed := Start();
      if committed { BeginsNext(script, before, mid, api.calls, |script| - 1); }
    }

    /** One operation between stop and start; the script is known by its shape. */
    method Enclosed(op: Operation, data: Data, pod: Pod, ghost script: seq<Call>)
      returns (r: Outcome, report: Option<Report>)
      requires api.Valid() && pod.Valid() && IsSound(data)
      requires IsPlan(script, StopAndStart, name, CloudConfigNode, op, 2)
      modifies api, pod, data.dest
      ensures api.Valid() && pod.Valid()
      ensures Follows(script, old(api.calls), api.calls)
      ensures r.Success? ==> api.calls == old(api.calls) + script
      ensures forall i :: |old(api.calls)| <= i < |api.calls| && api.calls[i].Work? && !api.calls[i].ok ==>
                r.Failure? && i == |api.calls| - 1
      ensures |api.calls| == |old(api.calls)| + |script| ==> r.Success? || r == Failure(LostReply)
      ensures Reported(old(pod.versions), pod.versions, op, report)
      ensures r.Success? && Reports(op) ==>
                report.Some? && pod.versions == old(pod.versions) + [Notes(op, report.value)]
      ensures report.Some? ==>
                Reports(op) && Honest(SetupOf(data), op, report.value) && report.value.vault == data.dest.tree
      ensures api.reliable && name in old(api.store).objects && report.Some? && pod.reliable ==> r.Success?
      ensures api.reliable && name in old(api.store).objects && r.Failure? ==>
                |api.calls| > |old(api.calls)| + 2 && Fails(script, old(api.calls), api.calls)
      ensures r != Failure(Panicked)
    {
      report := None;
      ghost var before := api.calls;
      r := Halt(script, before, 0);
      OnlyTheLastFails(script, before, api.calls);
      if r.Failure? { return; }
      r, report := PerformTasks(api, op, data, pod, script, before, 2);
      OnlyTheLastFails(script, before, api.calls);
      if r.Failure? { return; }
      r := StartAgain(script, before);
      OnlyTheLastFails(script, before, api.calls);
    }

    /** One operation, by its plan. */
    method Planned(op: Operation, action: Action, data: Data, pod: Pod, ghost script: seq<Call>, ghost p: nat)
      returns (r: Outcome, report: Option<Report>)
      requires api.Valid() && pod.Valid() && IsSound(data)
      requires action == Direct ==> p == 0 && script == Works(op)
      requires action == StopAndStart ==> IsPlan(script, StopAndStart, name, CloudConfigNode, op, p)
      modifies api, pod, data.dest
      ensures api.Valid() && pod.Valid()
      ensures Follows(script, old(api.calls), api.calls)
      ensures r.Success? ==> api.calls == old(api.calls) + script
      ensures forall i :: |old(api.calls)| <= i < |api.calls| && api.calls[i].Work? && !api.calls[i].ok ==>
                r.Failure? && i == |api.calls| - 1
      ensures action == StopAndStart && |api.calls| == |old(api.calls)| + |script| ==>
                r.Success? || r == Failure(LostReply)
      ensures Reported(old(pod.versions), pod.versions, op, report)
      ensures r.Success? && Reports(op) ==>
                report.Some? && pod.versions == old(pod.versions) + [Notes(op, report.value)]
      ensures report.Some? ==>
                Reports(op) && Honest(SetupOf(data), op, report.value) && report.value.vault == data.dest.tree
      ensures api.reliable && name in old(api.store).objects && report.Some? && pod.reliable ==> r.Success?
      ensures api.reliable && name in old(api.store).objects && r.Failure? ==>
                && |api.calls| > |old(api.calls)| + p
                && api.calls[|api.calls| - 1].Work? && !api.calls[|api.calls| - 1].ok
      ensures r != Failure(Panicked)
    {
      match action
      case Direct => r, report := PerformDirectly(api, op, data, pod);
      case StopAndStart => r, report := Enclosed(op, data, pod, script);
    }

    /** ChangeOwner, Restore, Fallback, Snapshot, SnapshotRecover and Backup share this shape. All calls were made,
     *  and yet there is an error, only if the reply to the start was lost. */
    method Operate(op: Operation, action: Action, data: Data, pod: Pod)
      returns (r: Outcome, report: Option<Report>)
      requires api.Valid() && pod.Valid() && IsSound(data)
      modifies api, pod, data.dest
      ensures api.Valid() && pod.Valid()
      ensures Follows(Script(action, name, CloudConfigNode, op), old(api.calls), api.calls)
      ensures r.Success? ==> api.calls == old(api.calls) + Script(action, name, CloudConfigNode, op)
      ensures forall i :: |old(api.calls)| <= i < |api.calls| && api.calls[i].Work? && !api.calls[i].ok ==>
                r.Failure? && i == |api.calls| - 1
      ensures action == StopAndStart && |api.calls| == |old(api.calls)| + |Script(action, name, CloudConfigNode, op)| ==>
                r.Success? || r == Failure(LostReply)
      ensures Reported(old(pod.versions), pod.versions, op, report)
      ensures r.Success? && Reports(op) ==>
                report.Some? && pod.versions == old(pod.versions) + [Notes(op, report.value)]
      ensures report.Some? ==>
                Reports(op) && Honest(SetupOf(data), op, report.value) && report.value.vault == data.dest.tree
      ensures api.reliable && name in old(api.store).objects && report.Some? && pod.reliable ==> r.Success?
      ensures api.reliable && name in old(api.store).objects && r.Failure? ==>
                && |api.calls| > |old(api.calls)| + |Opening(action, name, CloudConfigNode)|
                && api.calls[|api.calls| - 1].Work? && !api.calls[|api.calls| - 1].ok
      ensures r != Failure(Panicked)
    {
      ScriptIsPlan(action, name, CloudConfigNode, op);
      ghost var script, p := Script(action, name, CloudConfigNode, op), |Opening(action, name, CloudConfigNode)|;
      r, report := Planned(op, action, data, pod, script, p);
    }
  }
}
