/** The node kind that shares one StatefulSet per chain: pkg/node/helm. Stopping a node stops the whole
 *  chain, and the count found then is remembered for the start.
 */
module Helm {
  import opened Wrappers
  import opened ApiServer
  import opened Envelope

  const POLL_TICKS := 20

  class Node {
    const api: Cluster
    const chain: Name
    var replicas: Option<int>

    constructor (api: Cluster, chain: Name)
      ensures this.api == api && this.chain == chain && replicas == None
    {
      this.api := api;
      this.chain := chain;
      this.replicas := None;
    }

    method Stop() returns (r: Outcome, ghost made: nat)
      requires api.Valid()
      modifies this, api
      ensures api.Valid()
      ensures made <= 2 && (made > 0 ==> replicas.Some?)
      ensures made == 0 ==> api.calls == old(api.calls)
      ensures made == 1 ==> api.calls == old(api.calls) + [ReadScale(chain, replicas.value)]
      ensures made == 2 ==> api.calls == old(api.calls) + [ReadScale(chain, replicas.value)] + [Scale(chain, 0)]
      ensures r.Success? ==> made == 2
      ensures api.reliable && chain in old(api.store).objects ==>
                && r.Success? && replicas == Some(old(api.store).objects[chain].replicas)
                && chain in api.store.objects && api.store.objects[chain].replicas == 0
      ensures r != Failure(Panicked)
    {
      var got := api.Get(chain);
      if got.Err? { return Failure(got.error), 0; }
      replicas := Some(got.value.replicas);
      api.Note(ReadScale(chain, got.value.replicas));
      var sts := got.value.(replicas := 0);
      ghost var committed;
      r, committed := api.Update(chain, sts, Scale(chain, 0));
      made := if committed then 2 else 1;
    }

    method CheckStopped() returns (r: Outcome)
      requires api.Valid()
      modifies api
      ensures api.Valid()
      ensures r.Success? ==> api.calls == old(api.calls) + [SawStopped(chain)]
      ensures r.Failure? ==> r.error == Timeout && api.calls == old(api.calls)
      ensures api.reliable && ScaledDown(old(api.store), chain) ==> r.Success? && chain in api.store.objects
      ensures r != Failure(Panicked)
      ensures api.reliable && chain in old(api.store).objects && r.Failure? ==> api.gets == old(api.gets) + 20
    {
      for tick := 0 to POLL_TICKS
        invariant api.Valid()
        invariant api.calls == old(api.calls)
        invariant api.reliable && ScaledDown(old(api.store), chain) ==> tick == 0
        invariant tick == 0 ==> api.store == old(api.store)
        invariant api.gets == old(api.gets) + tick
        invariant api.reliable && chain in old(api.store).objects ==> chain in api.store.objects
      {
        var found := api.Get(chain);
        if found.Err? { return Failure(Timeout); }
        if found.value.ready == 0 {
          api.Note(SawStopped(chain));
          return Success;
        }
      }
      return Failure(Timeout);
    }

    method Start() returns (r: Outcome, ghost committed: bool)
      requires api.Valid() && replicas.Some?
      modifies api
      ensures api.Valid()
      ensures api.calls == if committed then old(api.calls) + [Scale(chain, replicas.value)] else old(api.calls)
      ensures r.Success? ==> committed
      ensures api.reliable && chain in old(api.store).objects ==>
                r.Success? && chain in api.store.objects && api.store.objects[chain].replicas == replicas.value
      ensures r != Failure(Panicked)
    {
      var got := api.Get(chain);
      if got.Err? { return Failure(got.error), false; }
      var sts := got.value.(replicas := replicas.value);
      r, committed := api.Update(chain, sts, Scale(chain, replicas.value));
    }

    /** The opening of the envelope, which fixes the count to return to. */
    method Halt(op: Operation) returns (r: Outcome, ghost count: int)
      requires api.Valid()
      modifies this, api
      ensures api.Valid()
      ensures Begins(HelmScript(chain, count, op), old(api.calls), api.calls)
      ensures r.Success? ==> |api.calls| == |old(api.calls)| + 3 && replicas == Some(count)
      ensures api.reliable && chain in old(api.store).objects ==>
                r.Success? && count == old(api.store).objects[chain].replicas && chain in api.store.objects
      ensures r != Failure(Panicked)
    {
      ghost var before, made := api.calls, 0;
      r, made := Stop();
      count := if made > 0 then replicas.value else 0;
      ghost var script := HelmScript(chain, count, op);
      HelmScriptShape(chain, count, op);
      if made > 0 { BeginsNext(script, before, before, before + [ReadScale(chain, count)], 0); }
      if made > 1 { BeginsNext(script, before, before + [ReadScale(chain, count)], api.calls, 1); }
      if r.Failure? { return; }
      ghost var mid := api.calls;
      r := CheckStopped();
      if r.Failure? { return; }
      BeginsNext(script, before, mid, api.calls, 2);
    }

    /** The envelope of this kind, around one restore or fallback; the script is known by its shape. */
    method Enclosed(op: Operation, data: Data, pod: Pod) returns (r: Outcome, ghost count: int)
      requires api.Valid() && pod.Valid() && IsSound(data) && (op.Restore? || op.Fallback?)
      modifies this, api, pod, data.dest
      ensures api.Valid() && pod.Valid() && pod.versions == old(pod.versions)
      ensures Follows(HelmScript(chain, count, op), old(api.calls), api.calls)
      ensures r.Success? ==> api.calls == old(api.calls) + HelmScript(chain, count, op)
      ensures forall i :: |old(api.calls)| <= i < |api.calls| && api.calls[i].Work? && !api.calls[i].ok ==>
                r.Failure? && i == |api.calls| - 1
      ensures api.reliable && chain in old(api.store).objects ==>
                && |api.calls| > |old(api.calls)| + 3 && count == old(api.store).objects[chain].replicas
                && (r.Failure? ==> Fails(HelmScript(chain, count, op), old(api.calls), api.calls))
      ensures r != Failure(Panicked)
    {
      ghost var before := api.calls;
      r, count := Halt(op);
      ghost var script := HelmScript(chain, count, op);
      HelmScriptShape(chain, count, op);
      OnlyTheLastFails(script, before, api.calls);
      if r.Failure? { return; }
      r := Finish(op, data, pod, script, before, count);
      OnlyTheLastFails(script, before, api.calls);
    }

    /** The work, and the start. */
    method Finish(op: Operation, data: Data, pod: Pod, ghost script: seq<Call>, ghost before: seq<Call>, ghost count: int)
      returns (r: Outcome)
      requires api.Valid() && pod.Valid() && IsSound(data) && !Reports(op)
      requires |script| == 4 + |Works(op)| && WorksAt(script, op, 3) && script[|script| - 1] == Scale(chain, count)
      requires Begins(script, before, api.calls) && |api.calls| == |before| + 3 && replicas == Some(count)
      modifies api, pod, data.dest
      ensures api.Valid() && pod.Valid() && pod.versions == old(pod.versions)
      ensures |api.calls| > |before| + 3 && Follows(script, before, api.calls)
      ensures r.Success? ==> Begins(script, before, api.calls) && |api.calls| == |before| + |script|
      ensures api.reliable && chain in old(api.store).objects && r.Failure? ==> Fails(script, before, api.calls)
      ensures r != Failure(Panicked)
    {
      var report;
      r, report := PerformTasks(api, op, data, pod, script, before, 3);
      if r.Failure? { return; }
      ghost var mid, committed := api.calls, false;
      r, committed := Start();
      if committed { BeginsNext(script, before, mid, api.calls, |script| - 1); }
    }

    /** Restore honours the action; Fallback always stops and starts. The other operations are not
     *  implemented for this kind, except Backup, which does nothing. */
    method Operate(op: Operation, action: Action, data: Data, pod: Pod) returns (r: Outcome, ghost count: int)
      requires api.Valid() && pod.Valid() && IsSound(data)
      modifies this, api, pod, data.dest
      ensures api.Valid() && pod.Valid() && pod.versions == old(pod.versions)
      ensures op.Backup? ==> r.Success? && api.run == old(api.run) && data.dest.tree == old(data.dest.tree)
      ensures op.ChangeOwner? || op.Snapshot? || op.SnapshotRecover? ==> r == Failure(Panicked) && api.run == old(api.run)
      ensures op.Restore? && action.Direct? ==>
                && Follows(Works(op), old(api.calls), api.calls)
                && (r.Success? ==> api.calls == old(api.calls) + Works(op))
      ensures op.Fallback? || (op.Restore? && action.StopAndStart?) ==>
                && Follows(HelmScript(chain, count, op), old(api.calls), api.calls)
                && (r.Success? ==> api.calls == old(api.calls) + HelmScript(chain, count, op))
      ensures forall i :: |old(api.calls)| <= i < |api.calls| && api.calls[i].Work? && !api.calls[i].ok ==>
                r.Failure? && i == |api.calls| - 1
      ensures api.reliable && chain in old(api.store).objects && (op.Restore? || op.Fallback?) && r.Failure? ==>
                && |api.calls| > |old(api.calls)|
                && api.calls[|api.calls| - 1].Work? && !api.calls[|api.calls| - 1].ok
      ensures r == Failure(Panicked) ==> !op.Backup? && !op.Restore? && !op.Fallback?
    {
      count := 0;
      match op {
        case Backup => return Success, 0;
        case Fallback => r, count := Enclosed(op, data, pod);
        case Restore =>
          if action == StopAndStart {
            r, count := Enclosed(op, data, pod);
          } else {
            var report;
            r, report := PerformDirectly(api, op, data, pod);
          }
        case _ => return Failure(Panicked), 0;
      }
    }
  }

  /***** Runs *****/

  ghost predicate Stage(k: nat, total: nat, chain: Name, count: int, s: Store) {
    chain in s.objects ==>
      var w := s.objects[chain];
      && (k == 1 ==> w.replicas == count)
      && (2 <= k < total ==> w.replicas == 0)
      && (3 <= k < total ==> w.ready == 0)
      && (k == total ==> w.replicas == count)
  }

  ghost predicate Encloses(script: seq<Call>, chain: Name, count: int) {
    && |script| >= 4 && script[0] == ReadScale(chain, count) && script[1] == Scale(chain, 0)
    && script[2] == SawStopped(chain) && script[|script| - 1] == Scale(chain, count)
    && (forall i :: 3 <= i < |script| - 1 ==> script[i].Work?)
  }

  lemma ScriptEncloses(chain: Name, count: int, op: Operation)
    ensures Encloses(HelmScript(chain, count, op), chain, count)
  {
  }

  lemma StageStep(k: nat, chain: Name, count: int, script: seq<Call>, s: Store, step: Step, t: Store)
    requires Allowed(Quiet, s, step, t) && Encloses(script, chain, count)
    requires k <= |script| && Stage(k, |script|, chain, count, s)
    requires step.Ours? ==> k < |script| && Matches(step.call, script[k])
    ensures Stage(if step.Ours? then k + 1 else k, |script|, chain, count, t)
  {
  }

  lemma {:induction false} Stages(run: Run, chain: Name, count: int, script: seq<Call>, i: nat)
    requires IsRun(Quiet, run) && i <= |run.steps|
    requires Encloses(script, chain, count) && Follows(script, [], Calls(run.steps))
    ensures Stage(|Calls(run.steps[..i])|, |script|, chain, count, run.states[i])
    decreases i
  {
    if i > 0 {
      NextInScript(run.steps, script, i - 1);
      Stages(run, chain, count, script, i - 1);
      var k := |Calls(run.steps[..i - 1])|;
      StageStep(k, chain, count, script, run.states[i - 1], run.steps[i - 1], run.states[i]);
    } else {
      assert run.steps[..0] == [];
    }
  }

  /** Once the chain's count has been read, that count is back at the end of a complete operation. */
  lemma CountIsRestored(run: Run, chain: Name, count: int, op: Operation, i: nat)
    requires IsRun(Quiet, run) && Calls(run.steps) == HelmScript(chain, count, op)
    requires i < |run.steps| && run.steps[i] == Ours(ReadScale(chain, count))
    ensures chain in run.states[i].objects && run.states[i].objects[chain].replicas == count
    ensures chain in Last(run).objects ==> Last(run).objects[chain].replicas == count
  {
    assert Allowed(Quiet, run.states[i], run.steps[i], run.states[i + 1]);
    ScriptEncloses(chain, count, op);
    Stages(run, chain, count, HelmScript(chain, count, op), |run.steps|);
    assert run.steps[..|run.steps|] == run.steps;
  }

  /** The work begins only when no replica of the chain is desired and none is ready. */
  lemma WorkOnlyWhenStopped(run: Run, chain: Name, count: int, op: Operation, i: nat)
    requires IsRun(Quiet, run) && Follows(HelmScript(chain, count, op), [], Calls(run.steps))
    requires i < |run.steps| && run.steps[i].Ours? && run.steps[i].call.Work? && chain in run.states[i].objects
    ensures run.states[i].objects[chain].replicas == 0 && run.states[i].objects[chain].ready == 0
  {
    var script := HelmScript(chain, count, op);
    ScriptEncloses(chain, count, op);
    Stages(run, chain, count, script, i);
    NextInScript(run.steps, script, i);
  }
}
