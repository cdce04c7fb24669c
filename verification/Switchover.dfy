/** The account switchover of two nodes: pkg/switchover. Both nodes are stopped, their account config
 *  maps are exchanged, and both are started again; any of the ten calls may be the last.
 */
module Switchover {
  import opened Wrappers
  import opened ApiServer
  import opened Envelope
  import CloudConfig

  /** The calls of a complete switchover, given the accounts it read. */
  function Script(src: Name, dst: Name, a: string, b: string): seq<Call> {
    [Scale(src, 0), SawStopped(src), Scale(dst, 0), SawStopped(dst),
     ReadAccount(src, a), ReadAccount(dst, b), SetAccount(src, b), SetAccount(dst, a),
     Scale(src, 1), Scale(dst, 1)]
  }

  /** Only the first four calls are the same whatever the accounts. */
  lemma BeginsSameStart(script: seq<Call>, other: seq<Call>, before: seq<Call>, now: seq<Call>, p: nat)
    requires Begins(script, before, now) && |now| <= |before| + p
    requires p <= |script| && p <= |other| && script[..p] == other[..p]
    ensures Begins(other, before, now)
  {
    assert forall i :: 0 <= i < p ==> script[..p][i] == other[..p][i];
  }

  function AccountOf(s: Store, n: Name): string {
    if n in s.objects then Account(s.objects[n].volumes) else ""
  }

  ghost predicate BothUsable(s: Store, src: Name, dst: Name) {
    Usable(s, src) && Usable(s, dst) && src != dst
  }

  /** Both nodes have an account volume, or neither has. */
  ghost predicate Alike(s: Store, src: Name, dst: Name)
    requires src in s.objects && dst in s.objects
  {
    HasAccount(s.objects[src].volumes) <==> HasAccount(s.objects[dst].volumes)
  }

  /** The server lets that workload have that account. */
  ghost predicate Takes(s: Store, n: Name, account: string)
    requires n in s.objects
  {
    account != "" || !HasAccount(s.objects[n].volumes)
  }

  /** Stop both nodes, one after the other. */
  method StopBoth(source: CloudConfig.Node, dest: CloudConfig.Node, ghost script: seq<Call>, ghost before: seq<Call>)
    returns (r: Outcome)
    requires source.api == dest.api && source.api.Valid() && before == source.api.calls
    requires |script| >= 4 && script[0] == Scale(source.name, 0) && script[1] == SawStopped(source.name)
    requires script[2] == Scale(dest.name, 0) && script[3] == SawStopped(dest.name)
    modifies source.api
    ensures source.api.Valid() && Begins(script, before, source.api.calls) && |source.api.calls| <= |before| + 4
    ensures r.Success? ==> |source.api.calls| == |before| + 4
    ensures source.api.reliable ==> VolumesKept(old(source.api.store), source.api.store, {})
    ensures source.api.reliable && {source.name, dest.name} <= old(source.api.store).objects.Keys ==> r.Success?
  {
    r := source.Halt(script, before, 0);
    if r.Failure? { return; }
    r := dest.Halt(script, before, 2);
  }

  /** Read the two accounts. */
  method ReadAccounts(source: CloudConfig.Node, dest: CloudConfig.Node, ghost before: seq<Call>)
    returns (r: Outcome, a: string, b: string)
    requires source.api == dest.api && source.api.Valid()
    requires Begins(Script(source.name, dest.name, "", ""), before, source.api.calls)
    requires |source.api.calls| == |before| + 4
    modifies source.api
    ensures source.api.Valid() && Begins(Script(source.name, dest.name, a, b), before, source.api.calls)
    ensures r.Success? ==> |source.api.calls| == |before| + 6
    ensures r.Failure? ==> |source.api.calls| <= |before| + 5
    ensures source.api.reliable ==> VolumesKept(old(source.api.store), source.api.store, {})
    ensures source.api.reliable && BothUsable(old(source.api.store), source.name, dest.name) ==>
              && r.Success?
              && a == AccountOf(old(source.api.store), source.name) && b == AccountOf(old(source.api.store), dest.name)
  {
    a, b := "", "";
    var x := source.GetAccountConfigmap();
    if x.Err? { return Failure(x.error), "", ""; }
    a := x.value;
    ghost var mid := source.api.calls;
    BeginsSameStart(Script(source.name, dest.name, "", ""), Script(source.name, dest.name, a, ""),
                     before, mid[..|before| + 4], 4);
    BeginsNext(Script(source.name, dest.name, a, ""), before, mid[..|before| + 4], mid, 4);
    var y := dest.GetAccountConfigmap();
    if y.Err? { return Failure(y.error), a, ""; }
    b := y.value;
    BeginsSameStart(Script(source.name, dest.name, a, ""), Script(source.name, dest.name, a, b), before, mid, 5);
    BeginsNext(Script(source.name, dest.name, a, b), before, mid, source.api.calls, 5);
    r := Success;
  }

  method WriteAccounts(source: CloudConfig.Node, dest: CloudConfig.Node, a: string, b: string, ghost before: seq<Call>)
    returns (r: Outcome)
    requires source.api == dest.api && source.api.Valid()
    requires Begins(Script(source.name, dest.name, a, b), before, source.api.calls)
    requires |source.api.calls| == |before| + 6
    modifies source.api
    ensures source.api.Valid() && Begins(Script(source.name, dest.name, a, b), before, source.api.calls)
    ensures r.Success? ==> |source.api.calls| == |before| + 8
    ensures source.api.reliable ==> VolumesKept(old(source.api.store), source.api.store, {source.name, dest.name})
    ensures source.api.reliable && BothUsable(old(source.api.store), source.name, dest.name) ==>
              (r.Success? <==> Takes(old(source.api.store), source.name, b) && Takes(old(source.api.store), dest.name, a))
  {
    ghost var script, mid, committed := Script(source.name, dest.name, a, b), source.api.calls, false;
    r, committed := source.UpdateAccountConfigmap(b);
    if committed { BeginsNext(script, before, mid, source.api.calls, 6); }
    if r.Failure? { return; }
    mid := source.api.calls;
    r, committed := dest.UpdateAccountConfigmap(a);
    if committed { BeginsNext(script, before, mid, source.api.calls, 7); }
  }

  method StartBoth(source: CloudConfig.Node, dest: CloudConfig.Node, ghost script: seq<Call>, ghost before: seq<Call>)
    returns (r: Outcome)
    requires source.api == dest.api && source.api.Valid()
    requires Begins(script, before, source.api.calls) && |source.api.calls| == |before| + 8
    requires |script| == 10 && script[8] == Scale(source.name, 1) && script[9] == Scale(dest.name, 1)
    modifies source.api
    ensures source.api.Valid() && Begins(script, before, source.api.calls)
    ensures r.Success? ==> |source.api.calls| == |before| + 10
    ensures source.api.reliable && {source.name, dest.name} <= old(source.api.store).objects.Keys ==> r.Success?
  {
    ghost var mid, committed := source.api.calls, false;
    r, committed := source.Start();
    if committed { BeginsNext(script, before, mid, source.api.calls, 8); }
    if r.Failure? { return; }
    mid := source.api.calls;
    r, committed := dest.Start();
    if committed { BeginsNext(script, before, mid, source.api.calls, 9); }
  }

  /***** Runs *****/

  /** No two nodes hold the same account. */
  ghost predicate Distinct(s: Store) {
    forall m, n :: m in s.objects && n in s.objects && m != n &&
                   HasAccount(s.objects[m].volumes) && HasAccount(s.objects[n].volumes) ==>
      Account(s.objects[m].volumes) != Account(s.objects[n].volumes)
  }

  ghost predicate Down(w: Workload) {
    w.replicas == 0 && w.ready == 0
  }

  /** Two nodes that hold the same account are both down. */
  ghost predicate Safe(s: Store) {
    forall m, n :: m in s.objects && n in s.objects && m != n &&
                   HasAccount(s.objects[m].volumes) && HasAccount(s.objects[n].volumes) &&
                   Account(s.objects[m].volumes) == Account(s.objects[n].volumes) ==>
      Down(s.objects[m]) && Down(s.objects[n])
  }

  lemma {:induction false} AccountIsFirst(vs: seq<Volume>, i: nat)
    requires UniqueNames(vs) && i < |vs| && vs[i].name == "node-account"
    ensures Account(vs) == if vs[i].configMap.Some? then vs[i].configMap.value else ""
  {
    if i > 0 { AccountIsFirst(vs[1..], i - 1); }
  }

  lemma WithAccountHas(vs: seq<Volume>, account: string)
    ensures HasAccount(WithAccount(vs, account)) <==> HasAccount(vs)
  {
    var rebound := WithAccount(vs, account);
    if HasAccount(vs) {
      var i :| 0 <= i < |vs| && IsAccount(vs[i]) && vs[i].configMap.Some?;
      assert IsAccount(rebound[i]) && rebound[i].configMap.Some?;
    }
    if HasAccount(rebound) {
      var i :| 0 <= i < |rebound| && IsAccount(rebound[i]) && rebound[i].configMap.Some?;
      assert IsAccount(vs[i]) && vs[i].configMap.Some?;
    }
  }

  /** Writing an account, then reading it. */
  lemma WithAccountReads(vs: seq<Volume>, account: string)
    requires UniqueNames(vs) && HasAccount(vs)
    ensures Account(WithAccount(vs, account)) == account
  {
    var i :| 0 <= i < |vs| && IsAccount(vs[i]) && vs[i].configMap.Some?;
    AccountIsFirst(WithAccount(vs, account), i);
  }

  /** Writing the original account back. */
  lemma WithAccountUndone(vs: seq<Volume>, account: string)
    requires UniqueNames(vs)
    ensures WithAccount(WithAccount(vs, account), Account(vs)) == vs
  {
    forall i | 0 <= i < |vs|
      ensures WithAccount(WithAccount(vs, account), Account(vs))[i] == vs[i]
    {
      if IsAccount(vs[i]) { AccountIsFirst(vs, i); }
    }
  }

  ghost predicate Subject(s: Store, n: Name) {
    n in s.objects && UniqueNames(s.objects[n].volumes) && HasAccount(s.objects[n].volumes)
  }

  /** Two distinct nodes, each with an account volume; that is what a switchover is for. */
  ghost predicate Proper(s0: Store, src: Name, dst: Name) {
    src != dst && Subject(s0, src) && Subject(s0, dst)
  }

  /** The volumes of node n after k calls. */
  ghost function VolumesAfter(k: nat, s0: Store, src: Name, dst: Name, n: Name): seq<Volume>
    requires n in s0.objects
  {
    if n == src && k >= 7 then WithAccount(s0.objects[n].volumes, AccountOf(s0, dst))
    else if n == dst && k >= 8 then WithAccount(s0.objects[n].volumes, AccountOf(s0, src))
    else s0.objects[n].volumes
  }

  /** The desired replicas of node n after k calls. */
  ghost function ReplicasAfter(k: nat, s0: Store, src: Name, dst: Name, n: Name): int
    requires n in s0.objects
  {
    if n == src then (if k == 0 then s0.objects[n].replicas else if k < 9 then 0 else 1)
    else if n == dst then (if k <= 2 then s0.objects[n].replicas else if k < 10 then 0 else 1)
    else s0.objects[n].replicas
  }

  /** Where a switchover from s0 stands after k calls: scale and volumes of every node are determined. */
  ghost predicate Stage(k: nat, s0: Store, src: Name, dst: Name, a: string, b: string, s: Store) {
    && (k >= 5 ==> a == AccountOf(s0, src))
    && (k >= 6 ==> b == AccountOf(s0, dst))
    && forall n :: n in s.objects ==>
         && n in s0.objects
         && s.objects[n].volumes == VolumesAfter(k, s0, src, dst, n)
         && s.objects[n].replicas == ReplicasAfter(k, s0, src, dst, n)
         && (n == src && 2 <= k < 9 ==> s.objects[n].ready == 0)
         && (n == dst && 4 <= k < 10 ==> s.objects[n].ready == 0)
  }

  /** Our k-th call moves every node from where it is after k calls to where it is after k + 1. */
  lemma CallStage(k: nat, s0: Store, src: Name, dst: Name, a: string, b: string, s: Store, c: Call, t: Store)
    requires src != dst && k < 10 && c == Script(src, dst, a, b)[k]
    requires Allowed(Quiet, s, Ours(c), t) && Stage(k, s0, src, dst, a, b, s)
    ensures Stage(k + 1, s0, src, dst, a, b, t)
  {
    if c.SetAccount? { assert s.objects[c.node].volumes == s0.objects[c.node].volumes; }
  }

  lemma OthersStage(k: nat, s0: Store, src: Name, dst: Name, a: string, b: string, s: Store, t: Store)
    requires src != dst && k <= 10
    requires Allowed(Quiet, s, Others, t) && Stage(k, s0, src, dst, a, b, s)
    ensures Stage(k, s0, src, dst, a, b, t)
  {
  }

  lemma {:induction false} Stages(run: Run, src: Name, dst: Name, a: string, b: string, i: nat)
    requires IsRun(Quiet, run) && i <= |run.steps| && src != dst
    requires Calls(run.steps) <= Script(src, dst, a, b)
    ensures |Calls(run.steps[..i])| <= 10
    ensures Stage(|Calls(run.steps[..i])|, run.states[0], src, dst, a, b, run.states[i])
    decreases i
  {
    if i > 0 {
      NextInScript(run.steps, Script(src, dst, a, b), i - 1);
      Stages(run, src, dst, a, b, i - 1);
      var k := |Calls(run.steps[..i - 1])|;
      if run.steps[i - 1].Ours? {
        CallStage(k, run.states[0], src, dst, a, b, run.states[i - 1], run.steps[i - 1].call, run.states[i]);
      } else {
        OthersStage(k, run.states[0], src, dst, a, b, run.states[i - 1], run.states[i]);
      }
    } else {
      assert run.steps[..0] == [];
    }
  }

  /** The account of every node after k calls. */
  lemma StageAccount(k: nat, s0: Store, src: Name, dst: Name, a: string, b: string, s: Store, n: Name)
    requires Proper(s0, src, dst) && Stage(k, s0, src, dst, a, b, s) && n in s.objects
    ensures HasAccount(s.objects[n].volumes) <==> HasAccount(s0.objects[n].volumes)
    ensures AccountOf(s, n) == if n == src && k >= 7 then AccountOf(s0, dst)
                               else if n == dst && k >= 8 then AccountOf(s0, src)
                               else AccountOf(s0, n)
  {
    var partner := AccountOf(s0, if n == src then dst else src);
    WithAccountHas(s0.objects[n].volumes, partner);
    if n == src || n == dst { WithAccountReads(s0.objects[n].volumes, partner); }
  }

  /** Between the two account writes source and destination hold the same account, and both are down;
   *  at every other stage all accounts differ. */
  lemma StageIsSafe(k: nat, s0: Store, src: Name, dst: Name, a: string, b: string, s: Store)
    requires Proper(s0, src, dst) && Distinct(s0) && k <= 10 && Stage(k, s0, src, dst, a, b, s)
    ensures Safe(s)
  {
    forall m, n | m in s.objects && n in s.objects && m != n &&
                  HasAccount(s.objects[m].volumes) && HasAccount(s.objects[n].volumes) &&
                  Account(s.objects[m].volumes) == Account(s.objects[n].volumes)
      ensures Down(s.objects[m]) && Down(s.objects[n])
    {
      StageAccount(k, s0, src, dst, a, b, s, m);
      StageAccount(k, s0, src, dst, a, b, s, n);
      assert {m, n} == {src, dst} && k == 7;
    }
  }

  /** Safety: in every state of every run, wherever the switchover is cut short and whatever the other
   *  writers interleave, nodes that share an account are down. */
  lemma SwitchIsSafe(run: Run, src: Name, dst: Name, a: string, b: string, i: nat)
    requires IsRun(Quiet, run) && i < |run.states|
    requires Calls(run.steps) <= Script(src, dst, a, b)
    requires Proper(run.states[0], src, dst) && Distinct(run.states[0])
    ensures Safe(run.states[i])
    ensures var s := run.states[i].objects;
            forall m, n :: && m in s && n in s && m != n && HasAccount(s[m].volumes) && HasAccount(s[n].volumes)
                           && Account(s[m].volumes) == Account(s[n].volumes)
                           ==> s[m].replicas == 0 && s[m].ready == 0 && s[n].replicas == 0 && s[n].ready == 0
  {
    Stages(run, src, dst, a, b, i);
    StageIsSafe(|Calls(run.steps[..i])|, run.states[0], src, dst, a, b, run.states[i]);
  }

  /** t is s with the accounts of the two nodes exchanged, both scaled to one, and no other node's
   *  volumes or scale touched; nodes may have been deleted meanwhile. */
  ghost predicate Exchanged(s: Store, t: Store, src: Name, dst: Name) {
    forall n :: n in t.objects ==>
      && n in s.objects
      && var v, w := s.objects[n], t.objects[n];
         && (n == src ==> w.volumes == WithAccount(v.volumes, AccountOf(s, dst)) && w.replicas == 1)
         && (n == dst ==> w.volumes == WithAccount(v.volumes, AccountOf(s, src)) && w.replicas == 1)
         && (n != src && n != dst ==> w.volumes == v.volumes && w.replicas == v.replicas)
  }

  lemma SwitchExchanges(run: Run, src: Name, dst: Name, a: string, b: string)
    requires IsRun(Quiet, run) && src != dst && Calls(run.steps) == Script(src, dst, a, b)
    ensures Exchanged(run.states[0], Last(run), src, dst)
    ensures forall n <- Last(run).objects ::
              && n in run.states[0].objects
              && var v, w := run.states[0].objects[n], Last(run).objects[n];
                 && w.replicas == (if n == src || n == dst then 1 else v.replicas) && |w.volumes| == |v.volumes|
                 && (n != src && n != dst ==> w.volumes == v.volumes)
                 && (n == src || n == dst ==>
                       var account := AccountOf(run.states[0], if n == src then dst else src);
                       forall j :: 0 <= j < |v.volumes| ==>
                         w.volumes[j] == if v.volumes[j].name == "node-account" && v.volumes[j].configMap.Some?
                                         then Volume(v.volumes[j].name, Some(account)) else v.volumes[j])
  {
    Stages(run, src, dst, a, b, |run.steps|);
    assert run.steps[..|run.steps|] == run.steps;
  }

  lemma SwitchKeepsPromises(run: Run, src: Name, dst: Name, a: string, b: string)
    requires IsRun(Quiet, run) && Calls(run.steps) <= Script(src, dst, a, b)
    requires Proper(run.states[0], src, dst) && Distinct(run.states[0])
    ensures forall i :: 0 <= i < |run.states| ==> Safe(run.states[i])
    ensures Calls(run.steps) == Script(src, dst, a, b) ==> Exchanged(run.states[0], Last(run), src, dst)
  {
    forall i | 0 <= i < |run.states| ensures Safe(run.states[i]) {
      SwitchIsSafe(run, src, dst, a, b, i);
    }
    if Calls(run.steps) == Script(src, dst, a, b) { SwitchExchanges(run, src, dst, a, b); }
  }

  /** The accounts are exactly exchanged, and a second switchover restores every volume of every node. */
  lemma SwitchTwiceRestores(s: Store, t: Store, u: Store, src: Name, dst: Name)
    requires Proper(s, src, dst)
    requires Exchanged(s, t, src, dst) && Exchanged(t, u, src, dst)
    requires src in u.objects && dst in u.objects
    ensures AccountOf(t, src) == AccountOf(s, dst) && AccountOf(t, dst) == AccountOf(s, src)
    ensures forall n :: n in u.objects ==> u.objects[n].volumes == s.objects[n].volumes
  {
    WithAccountReads(s.objects[src].volumes, AccountOf(s, dst));
    WithAccountReads(s.objects[dst].volumes, AccountOf(s, src));
    WithAccountUndone(s.objects[src].volumes, AccountOf(s, dst));
    WithAccountUndone(s.objects[dst].volumes, AccountOf(s, src));
  }

  /** The step at which a call was made. */
  lemma {:induction false} StepOfCall(steps: seq<Step>, k: nat) returns (i: nat)
    requires k < |Calls(steps)|
    ensures i < |steps| && steps[i].Ours? && steps[i].call == Calls(steps)[k] && |Calls(steps[..i])| == k
    decreases |steps|
  {
    var shorter := steps[..|steps| - 1];
    if k < |Calls(shorter)| {
      i := StepOfCall(shorter, k);
      assert shorter[..i] == steps[..i];
    } else {
      i := |steps| - 1;
    }
  }

  lemma RefusesNameless(vs: seq<Volume>, account: string)
    ensures HasAccount(vs) && account == "" ==>
              exists i :: 0 <= i < |vs| && WithAccount(vs, account)[i].configMap == Some("")
  {
    if HasAccount(vs) && account == "" {
      var i :| 0 <= i < |vs| && IsAccount(vs[i]) && vs[i].configMap.Some?;
      assert WithAccount(vs, account)[i].configMap == Some("");
    }
  }

  /** What the server accepted when an account was written: n is the source and k is 6, or n is the destination
   *  and k is 7. */
  lemma AccountAccepted(run: Run, src: Name, dst: Name, a: string, b: string, n: Name, k: nat)
    requires IsRun(Quiet, run) && src != dst && Calls(run.steps) == Script(src, dst, a, b)
    requires (n == src && k == 6) || (n == dst && k == 7)
    ensures n in run.states[0].objects
    ensures HasAccount(run.states[0].objects[n].volumes) ==> AccountOf(run.states[0], if n == src then dst else src) != ""
  {
    var i := StepOfCall(run.steps, k);
    Stages(run, src, dst, a, b, i);
    var s, c := run.states[i], run.steps[i].call;
    assert Allowed(Quiet, s, run.steps[i], run.states[i + 1]);
    assert c.SetAccount? && c.node == n && n in s.objects;
    assert s.objects[n].volumes == run.states[0].objects[n].volumes;
    RefusesNameless(s.objects[n].volumes, c.account);
  }

  /** A switchover can only be complete if both nodes have an account volume or neither has: an account without
   *  a name is not accepted. And when it is complete, each node has the account that the other one had. */
  lemma ExchangeNeedsVolumes(run: Run, src: Name, dst: Name, a: string, b: string)
    requires IsRun(Quiet, run) && src != dst && Calls(run.steps) == Script(src, dst, a, b)
    requires src in Last(run).objects && dst in Last(run).objects
    ensures src in run.states[0].objects && dst in run.states[0].objects && Alike(run.states[0], src, dst)
    ensures UniqueNames(run.states[0].objects[src].volumes) && UniqueNames(run.states[0].objects[dst].volumes) ==>
              && AccountOf(Last(run), src) == AccountOf(run.states[0], dst)
              && AccountOf(Last(run), dst) == AccountOf(run.states[0], src)
  {
    var s := run.states[0];
    AccountAccepted(run, src, dst, a, b, src, 6);
    AccountAccepted(run, src, dst, a, b, dst, 7);
    NoAccountReadsEmpty(s.objects[src].volumes);
    NoAccountReadsEmpty(s.objects[dst].volumes);
    SwitchExchanges(run, src, dst, a, b);
    if UniqueNames(s.objects[src].volumes) && UniqueNames(s.objects[dst].volumes) {
      ExchangedAccount(s.objects[src].volumes, AccountOf(s, dst));
      ExchangedAccount(s.objects[dst].volumes, AccountOf(s, src));
    }
  }

  /** A switchover that comes to its end anywhere between stopping the second node and starting the first leaves
   *  both nodes down; so does one between two nodes of which only one has an account volume. */
  lemma UnfinishedLeavesBothDown(run: Run, src: Name, dst: Name, a: string, b: string)
    requires IsRun(Quiet, run) && src != dst && Calls(run.steps) <= Script(src, dst, a, b)
    requires 4 <= |Calls(run.steps)| <= 8
    ensures src in Last(run).objects ==> Down(Last(run).objects[src])
    ensures dst in Last(run).objects ==> Down(Last(run).objects[dst])
  {
    Stages(run, src, dst, a, b, |run.steps|);
    assert run.steps[..|run.steps|] == run.steps;
  }

  lemma ExchangedAccount(vs: seq<Volume>, account: string)
    requires UniqueNames(vs)
    ensures Account(WithAccount(vs, account)) == if HasAccount(vs) then account else ""
  {
    if HasAccount(vs) {
      WithAccountReads(vs, account);
    } else {
      WithAccountHas(vs, account);
      NoAccountReadsEmpty(WithAccount(vs, account));
    }
  }

  lemma {:induction false} NoAccountReadsEmpty(vs: seq<Volume>)
    ensures !HasAccount(vs) ==> Account(vs) == ""
  {
    if vs != [] && !HasAccount(vs) {
      assert !(IsAccount(vs[0]) && vs[0].configMap.Some?);
      assert forall i :: 0 <= i < |vs[1..]| ==> vs[1..][i] == vs[i + 1];
      NoAccountReadsEmpty(vs[1..]);
    }
  }

  /***** The whole *****/

  /** Two usable nodes, as the server knows them. */
  lemma AlikeByName(s: Store, src: Name, dst: Name)
    requires WellFormed(s) && BothUsable(s, src, dst)
    ensures HasAccount(s.objects[src].volumes) <==> AccountOf(s, src) != ""
    ensures HasAccount(s.objects[dst].volumes) <==> AccountOf(s, dst) != ""
  {
    AccountHasName(s.objects[src].volumes);
    AccountHasName(s.objects[dst].volumes);
  }

  /** The middle part: read and write the accounts. */
  method Exchange(source: CloudConfig.Node, dest: CloudConfig.Node, ghost before: seq<Call>)
    returns (r: Outcome, a: string, b: string)
    requires source.api == dest.api && source.api.Valid()
    requires Begins(Script(source.name, dest.name, "", ""), before, source.api.calls)
    requires |source.api.calls| == |before| + 4
    modifies source.api
    ensures source.api.Valid() && Begins(Script(source.name, dest.name, a, b), before, source.api.calls)
    ensures r.Success? ==> |source.api.calls| == |before| + 8
    ensures source.api.reliable ==> VolumesKept(old(source.api.store), source.api.store, {source.name, dest.name})
    ensures source.api.reliable && BothUsable(old(source.api.store), source.name, dest.name) ==>
              (r.Success? <==> Alike(old(source.api.store), source.name, dest.name))
  {
    if BothUsable(source.api.store, source.name, dest.name) { AlikeByName(source.api.store, source.name, dest.name); }
    r, a, b := ReadAccounts(source, dest, before);
    if r.Failure? { return; }
    r := WriteAccounts(source, dest, a, b, before);
  }

  /** Whatever fails, the calls made are a beginning of the script; success means all of it. On a reliable
   *  cluster, two usable nodes are exchanged exactly if both have an account volume or neither has. */
  method Attempt(source: CloudConfig.Node, dest: CloudConfig.Node, ghost before: seq<Call>)
    returns (r: Outcome, a: string, b: string)
    requires source.api == dest.api && source.api.Valid() && before == source.api.calls
    modifies source.api
    ensures source.api.Valid() && Begins(Script(source.name, dest.name, a, b), before, source.api.calls)
    ensures r.Success? ==> |source.api.calls| == |before| + 10
    ensures source.api.reliable && BothUsable(old(source.api.store), source.name, dest.name) ==>
              (r.Success? <==> Alike(old(source.api.store), source.name, dest.name))
  {
    a, b := "", "";
    ghost var plain := Script(source.name, dest.name, "", "");
    r := StopBoth(source, dest, plain, before);
    if r.Failure? { return; }
    r, a, b := Exchange(source, dest, before);
    if r.Failure? { return; }
    r := StartBoth(source, dest, Script(source.name, dest.name, a, b), before);
  }

  /** The whole. In a process that does nothing else, and with no other writer of scale and accounts, every state on
   *  the way is safe, and success means that the accounts are exchanged. */
  method Switch(source: CloudConfig.Node, dest: CloudConfig.Node) returns (r: Outcome, a: string, b: string)
    requires source.api == dest.api && source.api.Valid()
    modifies source.api
    ensures source.api.Valid()
    ensures old(source.api.calls) <= source.api.calls <= old(source.api.calls) + Script(source.name, dest.name, a, b)
    ensures r.Success? ==> source.api.calls == old(source.api.calls) + Script(source.name, dest.name, a, b)
    ensures source.api.reliable && BothUsable(old(source.api.store), source.name, dest.name) ==>
              (r.Success? <==> Alike(old(source.api.store), source.name, dest.name))
    ensures old(source.api.calls) == [] && source.api.rely == Quiet &&
            Proper(source.api.start, source.name, dest.name) && Distinct(source.api.start) ==>
              && (forall i :: 0 <= i < |source.api.run.states| ==> Safe(source.api.run.states[i]))
              && (r.Success? ==> Exchanged(source.api.start, source.api.store, source.name, dest.name))
  {
    ghost var before := source.api.calls;
    r, a, b := Attempt(source, dest, before);
    BeginsIsPrefix(Script(source.name, dest.name, a, b), before, source.api.calls);
    if before == [] && source.api.rely == Quiet &&
       Proper(source.api.start, source.name, dest.name) && Distinct(source.api.start) {
      SwitchKeepsPromises(source.api.run, source.name, dest.name, a, b);
    }
  }
}
