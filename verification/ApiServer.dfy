/** The API server as a versioned object store, shared with other writers.
 *
 *  A workload is what the operator reads and writes of a StatefulSet or a Deployment. Every
 *  committed change takes a fresh revision; an Update is refused unless the version it carries
 *  is the version in the store. Between any two calls of ours other writers may act, within the
 *  cluster's rely relation, and every call may fail.
 */
module ApiServer {
  import opened Wrappers

  type Name = string

  const ACCOUNT_VOLUME := "node-account"

  datatype Volume = Volume(name: string, configMap: Option<string>)

  datatype Workload = Workload(
    version: nat,          // resource version
    replicas: int,         // desired replicas
    ready: nat,            // ready replicas, as reported in the status
    pods: nat,             // pods of the node that still exist, terminating ones included
    volumes: seq<Volume>,
    rest: string)          // every other field

  datatype Store = Store(objects: map<Name, Workload>, revision: nat)

  /** The server validates that a reference to a config map has a name. */
  predicate Acceptable(w: Workload) {
    forall i :: 0 <= i < |w.volumes| ==> w.volumes[i].configMap != Some("")
  }

  predicate WellFormed(s: Store) {
    forall n <- s.objects :: s.objects[n].version <= s.revision && Acceptable(s.objects[n])
  }

  /** t can follow s: whatever is in t is either untouched since s or carries a newer version. */
  predicate Later(s: Store, t: Store) {
    && s.revision <= t.revision
    && forall n <- t.objects ::
         (n in s.objects && t.objects[n] == s.objects[n]) || s.revision < t.objects[n].version
  }

  lemma LaterTransitive(s: Store, t: Store, u: Store)
    requires Later(s, t) && Later(t, u)
    ensures Later(s, u)
  {
  }

  /** Committing w under n; writing back an equal object changes nothing, as in the real server. */
  function Commit(s: Store, n: Name, w: Workload): Store
    requires n in s.objects
  {
    if w.(version := s.objects[n].version) == s.objects[n] then s
    else Store(s.objects[n := w.(version := s.revision + 1)], s.revision + 1)
  }

  /***** Accounts *****/

  predicate IsAccount(v: Volume) {
    v.name == ACCOUNT_VOLUME
  }

  ghost predicate HasAccount(vs: seq<Volume>) {
    exists i :: 0 <= i < |vs| && IsAccount(vs[i]) && vs[i].configMap.Some?
  }

  /** Volume names are unique within a pod; the API server validates it. */
  ghost predicate UniqueNames(vs: seq<Volume>) {
    forall i, j :: 0 <= i < j < |vs| ==> vs[i].name != vs[j].name
  }

  /** The config map of the first account volume, "" when there is none. */
  function Account(vs: seq<Volume>): string {
    if vs == [] then ""
    else if IsAccount(vs[0]) then (if vs[0].configMap.Some? then vs[0].configMap.value else "")
    else Account(vs[1..])
  }

  function Rebound(v: Volume, account: string): Volume {
    if IsAccount(v) && v.configMap.Some? then v.(configMap := Some(account)) else v
  }

  /** Every account volume now refers to the given config map. */
  function WithAccount(vs: seq<Volume>, account: string): (r: seq<Volume>)
    ensures |r| == |vs|
    ensures forall i :: 0 <= i < |vs| ==> r[i] == Rebound(vs[i], account)
  {
    seq(|vs|, i requires 0 <= i < |vs| => Rebound(vs[i], account))
  }

  /***** What this process does, and what everybody does *****/

  datatype Task = MakeDir | RunBackup | RunRestore | RunFallback | RunSnapshot | RunRecover | RunChown | Annotate

  datatype Call =
    | Scale(node: Name, replicas: int)        // a committed write of the desired replicas
    | SetAccount(node: Name, account: string) // a committed write of the account reference
    | SawStopped(node: Name)                  // a poll that saw no ready replica
    | SawDrained(node: Name)                  // a count of the Deployment's pods that differed from one
    | ReadAccount(node: Name, account: string)
    | ReadScale(node: Name, replicas: int)
    | Work(task: Task, ok: bool)              // an attempt at a task, and whether it succeeded

  datatype Step = Others | Ours(call: Call)

  predicate IsWrite(c: Call) {
    c.Scale? || c.SetAccount?
  }

  function Modified(c: Call, w: Workload): Workload
    requires IsWrite(c)
  {
    match c
    case Scale(_, r) => w.(replicas := r)
    case SetAccount(_, a) => w.(volumes := WithAccount(w.volumes, a))
  }

  /** What a call that does not write found in the store. */
  ghost predicate Observed(c: Call, s: Store)
    requires !IsWrite(c)
  {
    match c
    case Work(_, _) => true
    case SawStopped(n) => n in s.objects && s.objects[n].ready == 0
    case SawDrained(n) => n in s.objects ==> s.objects[n].pods != 1
    case ReadAccount(n, a) => n in s.objects && a == Account(s.objects[n].volumes)
    case ReadScale(n, r) => n in s.objects && r == s.objects[n].replicas
  }

  /** What the other writers may do between our calls: anything at all, or (Quiet) anything except that
   *  they neither create nor scale a workload nor touch its volumes; and then, as long as no replica is
   *  desired, no replica becomes ready and no pod appears. */
  datatype Rely = Unrestricted | Quiet

  predicate Permits(rely: Rely, s: Store, t: Store) {
    rely == Quiet ==>
      forall n <- t.objects ::
        && n in s.objects
        && var w, w' := s.objects[n], t.objects[n];
           && w'.replicas == w.replicas
           && w'.volumes == w.volumes
           && (w.replicas == 0 ==> w'.ready <= w.ready && w'.pods <= w.pods)
  }

  ghost predicate Allowed(rely: Rely, s: Store, step: Step, t: Store) {
    match step
    case Others => Permits(rely, s, t) && Later(s, t) && WellFormed(t)
    case Ours(c) =>
      if IsWrite(c) then
        && c.node in s.objects && Acceptable(Modified(c, s.objects[c.node]))
        && t == Commit(s, c.node, Modified(c, s.objects[c.node]))
      else t == s && Observed(c, s)
  }

  /** Every state the cluster went through, and the steps between them. */
  datatype Run = Run(states: seq<Store>, steps: seq<Step>)

  ghost predicate IsRun(rely: Rely, run: Run) {
    && |run.states| == |run.steps| + 1
    && (forall i :: 0 <= i < |run.steps| ==> Allowed(rely, run.states[i], run.steps[i], run.states[i + 1]))
  }

  ghost function Last(run: Run): Store
    requires |run.states| > 0
  {
    run.states[|run.states| - 1]
  }

  ghost function Calls(steps: seq<Step>): seq<Call> {
    if steps == [] then []
    else
      var before := Calls(steps[..|steps| - 1]);
      if steps[|steps| - 1].Ours? then before + [steps[|steps| - 1].call] else before
  }

  ghost function Grown(run: Run, step: Step, t: Store): Run {
    Run(run.states + [t], run.steps + [step])
  }

  lemma GrownIsRun(rely: Rely, run: Run, step: Step, t: Store)
    requires IsRun(rely, run) && Allowed(rely, Last(run), step, t)
    ensures IsRun(rely, Grown(run, step, t))
    ensures Calls(Grown(run, step, t).steps) == Calls(run.steps) + (if step.Ours? then [step.call] else [])
  {
    assert (run.steps + [step])[..|run.steps|] == run.steps;
  }

  /** The run with one more write of ours, which the server accepts. */
  ghost function Written(run: Run, c: Call): Run
    requires |run.states| > 0 && IsWrite(c) && c.node in Last(run).objects
  {
    Grown(run, Ours(c), Commit(Last(run), c.node, Modified(c, Last(run).objects[c.node])))
  }

  lemma WrittenIsRun(rely: Rely, run: Run, c: Call)
    requires IsRun(rely, run) && IsWrite(c) && c.node in Last(run).objects && WellFormed(Last(run))
    requires Acceptable(Modified(c, Last(run).objects[c.node]))
    ensures IsRun(rely, Written(run, c)) && WellFormed(Last(Written(run, c)))
    ensures Calls(Written(run, c).steps) == Calls(run.steps) + [c]
  {
    GrownIsRun(rely, run, Ours(c), Last(Written(run, c)));
  }

  /** The last step is our call, and it found that workload. */
  ghost predicate JustWritten(run: Run, c: Call, found: Workload)
    requires IsWrite(c)
  {
    && |run.states| == |run.steps| + 1 >= 2 && run.steps[|run.steps| - 1] == Ours(c)
    && c.node in run.states[|run.steps| - 1].objects && run.states[|run.steps| - 1].objects[c.node] == found
  }

  /** A workload of the same version is the same workload. */
  lemma SameVersionSameWorkload(s: Store, t: Store, n: Name)
    requires WellFormed(s) && Later(s, t) && n in s.objects && n in t.objects
    requires t.objects[n].version == s.objects[n].version
    ensures t.objects[n] == s.objects[n]
  {
  }

  /** Our writes are atomic and touch one field: at the moment of the commit nothing else differs from the
   *  state just before, whatever the other writers did between the attempts. */
  lemma WriteTouchesOneField(rely: Rely, run: Run, i: nat)
    requires IsRun(rely, run) && i < |run.steps| && run.steps[i].Ours? && IsWrite(run.steps[i].call)
    ensures var s, t, c := run.states[i].objects, run.states[i + 1].objects, run.steps[i].call;
            && c.node in s && t.Keys == s.Keys
            && (forall n :: n in s && n != c.node ==> t[n] == s[n])
            && var v, w := s[c.node], t[c.node];
               && w.ready == v.ready && w.pods == v.pods && w.rest == v.rest && |w.volumes| == |v.volumes|
               && (c.Scale? ==> w.replicas == c.replicas && w.volumes == v.volumes)
               && (c.SetAccount? ==> w.replicas == v.replicas)
               && (c.SetAccount? ==>
                     forall j :: 0 <= j < |v.volumes| ==>
                       w.volumes[j] == if v.volumes[j].name == "node-account" && v.volumes[j].configMap.Some?
                                       then Volume(v.volumes[j].name, Some(c.account)) else v.volumes[j])
  {
    assert Allowed(rely, run.states[i], run.steps[i], run.states[i + 1]);
  }

  /** A workload on which every operation can work: it is there, and its account volumes are config maps. */
  ghost predicate Usable(s: Store, n: Name) {
    && n in s.objects
    && (forall i :: 0 <= i < |s.objects[n].volumes| && IsAccount(s.objects[n].volumes[i]) ==>
          s.objects[n].volumes[i].configMap.Some?)
  }

  /** Every workload is still there, and but for those excepted it has the volumes it had. */
  ghost predicate VolumesKept(s: Store, t: Store, except: set<Name>) {
    forall n <- s.objects :: n in t.objects && (n !in except ==> t.objects[n].volumes == s.objects[n].volumes)
  }

  predicate ScaledDown(s: Store, n: Name) {
    n in s.objects && s.objects[n].replicas == 0
  }

  /** What happens by itself: replicas and pods of a workload that desires none go away. */
  function Drained(s: Store): Store {
    Store(map n | n in s.objects ::
            (var w := s.objects[n];
             if w.replicas == 0 && (w.ready != 0 || w.pods != 0)
             then w.(ready := 0, pods := 0, version := s.revision + 1)
             else w),
          s.revision + 1)
  }

  lemma DrainedIsAllowed(rely: Rely, s: Store)
    requires WellFormed(s)
    ensures Allowed(rely, s, Others, Drained(s)) && VolumesKept(s, Drained(s), {})
  {
  }

  lemma CommitKeepsVolumes(s: Store, c: Call)
    requires IsWrite(c) && c.node in s.objects
    ensures VolumesKept(s, Commit(s, c.node, Modified(c, s.objects[c.node])), if c.Scale? then {} else {c.node})
  {
  }

  /** The server accepts an account without a name only where no volume takes it. */
  lemma AccountAcceptable(w: Workload, account: string)
    requires Acceptable(w)
    ensures Acceptable(w.(volumes := WithAccount(w.volumes, account))) <==> account != "" || !HasAccount(w.volumes)
  {
    var vs := WithAccount(w.volumes, account);
    if account == "" && HasAccount(w.volumes) {
      var i :| 0 <= i < |w.volumes| && IsAccount(w.volumes[i]) && w.volumes[i].configMap.Some?;
      assert vs[i].configMap == Some("");
    } else {
      assert forall i :: 0 <= i < |vs| ==> vs[i] == Rebound(w.volumes[i], account);
    }
  }

  /** A usable workload has an account volume exactly if its account has a name. */
  lemma {:induction false} AccountHasName(vs: seq<Volume>)
    requires forall i :: 0 <= i < |vs| ==> vs[i].configMap != Some("")
    requires forall i :: 0 <= i < |vs| && IsAccount(vs[i]) ==> vs[i].configMap.Some?
    ensures HasAccount(vs) <==> Account(vs) != ""
  {
    if vs != [] && !IsAccount(vs[0]) {
      var rest := vs[1..];
      AccountHasName(rest);
      assert forall i :: 0 <= i < |rest| ==> rest[i] == vs[i + 1];
      if HasAccount(vs) {
        var i :| 0 <= i < |vs| && IsAccount(vs[i]) && vs[i].configMap.Some?;
        assert rest[i - 1] == vs[i];
      }
    }
  }

  /** A reliable cluster refuses only what is not acceptable, and nobody else acts, except that stopped workloads
   *  drain. */
  class Cluster {
    const rely: Rely
    const reliable: bool
    ghost const start: Store
    var store: Store
    ghost var run: Run
    ghost var calls: seq<Call>
    ghost var gets: nat     // how many objects were read, successfully or not
    ghost var updates: nat  // how many updates were sent, successful or not

    ghost predicate Valid()
      reads this`store, this`run, this`calls
    {
      && WellFormed(store)
      && IsRun(rely, run)
      && run.states[0] == start
      && Last(run) == store
      && calls == Calls(run.steps)
    }

    constructor (rely: Rely, reliable: bool, store: Store)
      requires WellFormed(store)
      ensures Valid() && this.rely == rely && this.reliable == reliable && this.start == store && this.store == store
      ensures calls == [] && gets == 0 && updates == 0
    {
      this.rely := rely;
      this.reliable := reliable;
      this.start := store;
      this.store := store;
      this.run := Run([store], []);
      this.calls := [];
      this.gets := 0;
      this.updates := 0;
    }

    /** Any number of steps of the other writers. */
    method Interfere()
      requires Valid()
      modifies this`store, this`run
      ensures Valid()
      ensures calls == old(calls)
      ensures Later(old(store), store)
      ensures reliable ==> store == Drained(old(store)) && VolumesKept(old(store), store, {})
    {
      if reliable {
        DrainedIsAllowed(rely, store);
        GrownIsRun(rely, run, Others, Drained(store));
        run := Grown(run, Others, Drained(store));
        store := Drained(store);
        return;
      }
      var fuel: nat := *;
      while fuel > 0
        invariant Valid() && calls == old(calls)
        invariant Later(old(store), store)
      {
        var next: Store := *;
        if Permits(rely, store, next) && Later(store, next) && WellFormed(next) {
          GrownIsRun(rely, run, Others, next);
          LaterTransitive(old(store), store, next);
          run := Grown(run, Others, next);
          store := next;
        }
        fuel := fuel - 1;
      }
    }

    method Fault() returns (f: bool)
      ensures reliable ==> !f
    {
      f := *;
      f := f && !reliable;
    }

    method Get(n: Name) returns (r: Result<Workload>)
      requires Valid()
      modifies this`store, this`run, this`gets
      ensures Valid() && calls == old(calls) && gets == old(gets) + 1
      ensures r.Ok? ==> n in store.objects && r.value == store.objects[n]
      ensures r.Err? ==> r.error == NotFound || r.error == Refused
      ensures reliable ==> store == Drained(old(store)) && VolumesKept(old(store), store, {})
      ensures reliable && n in old(store).objects ==> r.Ok?
    {
      gets := gets + 1;
      Interfere();
      var fault := Fault();
      if fault { return Err(Refused); }
      if n !in store.objects { return Err(NotFound); }
      return Ok(store.objects[n]);
    }

    /** How many pods the node has; of a workload that is gone, any number may be left. */
    method CountPods(n: Name) returns (r: Result<nat>)
      requires Valid()
      modifies this`store, this`run
      ensures Valid() && calls == old(calls)
      ensures r.Ok? && n in store.objects ==> r.value == store.objects[n].pods
      ensures reliable ==> store == Drained(old(store)) && VolumesKept(old(store), store, {}) && r.Ok?
    {
      Interfere();
      var fault := Fault();
      if fault { return Err(Refused); }
      if n in store.objects { return Ok(store.objects[n].pods); }
      var left: nat := *;
      return Ok(left);
    }

    /** The server takes the object: it is a modification of what is there. */
    method Accept(n: Name, w: Workload, ghost c: Call)
      requires Valid() && IsWrite(c) && n == c.node && n in store.objects
      requires w == Modified(c, store.objects[n]) && Acceptable(w)
      modifies this`store, this`run, this`calls
      ensures Valid() && calls == old(calls) + [c] && store == Commit(old(store), n, w)
      ensures JustWritten(run, c, old(store).objects[n])
    {
      WrittenIsRun(rely, run, c);
      run := Written(run, c);
      calls := calls + [c];
      store := Commit(store, n, w);
    }

    /** Optimistic update: w is a modification, described by c, of the object just read. It is committed only
     *  onto that very object. */
    method Update(n: Name, w: Workload, ghost c: Call) returns (r: Outcome, ghost committed: bool)
      requires Valid() && IsWrite(c)
      requires n == c.node && n in store.objects && w == Modified(c, store.objects[n])
      modifies this
      ensures Valid()
      ensures calls == if committed then old(calls) + [c] else old(calls)
      ensures updates == old(updates) + 1
      ensures committed <==> r.Success? || r == Failure(LostReply)
      ensures r.Failure? ==> r.error in {NotFound, Conflict, Refused, LostReply}
      ensures committed ==> JustWritten(run, c, old(store).objects[n]) && Acceptable(w)
      ensures reliable ==> VolumesKept(old(store), store, if c.Scale? then {} else {n})
      ensures reliable && Acceptable(w) ==> r.Success? && store == Commit(old(store), n, w)
      ensures reliable && !Acceptable(w) ==> r == Failure(Refused) && store == old(store)
    {
      updates := updates + 1;
      if reliable {
        CommitKeepsVolumes(store, c);
      } else {
        Interfere();
      }
      committed := false;
      var fault := Fault();
      if fault { return Failure(Refused), false; }
      if n !in store.objects { return Failure(NotFound), false; }
      if store.objects[n].version != w.version { return Failure(Conflict), false; }
      if !Acceptable(w) { return Failure(Refused), false; }
      SameVersionSameWorkload(old(store), store, n);
      Accept(n, w, c);
      committed := true;
      var lost := Fault();
      r := if lost then Failure(LostReply) else Success;
    }

    /** Book-keeping of a call of ours that does not write. */
    ghost method Note(c: Call)
      requires Valid() && Allowed(rely, store, Ours(c), store)
      modifies this`run, this`calls
      ensures Valid()
      ensures calls == old(calls) + [c]
    {
      GrownIsRun(rely, run, Ours(c), store);
      run := Grown(run, Ours(c), store);
      calls := calls + [c];
    }
  }
}
