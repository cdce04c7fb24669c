/** The reconcilers of the eight Job kinds, as one worker over the world of one resource. */
module JobReconciler {
  import opened Wrappers
  import opened Envelope
  import opened Process
  import opened JobWorld

  datatype Verdict = Requeue | Done | Error

  /** What still has to be filled in or created before a reconcile stops asking for another. */
  function Measure(w: World): nat
    requires |w.versions| > 0 && w.creations <= 1
  {
    Blanks(w.kind, Current(w).spec) + Unset(Current(w).status) + (1 - w.creations)
  }

  /** What the worker may rely on while the others act: nothing it has read is rewritten. */
  ghost predicate Advanced(w: World, w': World) {
    && w'.kind == w.kind && w'.node == w.node && w'.setup == w.setup && w'.created == w.created && w'.edits == w.edits
    && w.versions <= w'.versions && w.slots <= w'.slots
    && w.process.versions <= w'.process.versions
    && w'.creations == w.creations && w'.read == w.read
    && w.slotSeen <= w'.slotSeen
    && (!w.edits ==> w'.versions == w.versions)
  }

  /** If the version read is still current, writing defaults is still called for, and does some of what is to be
   *  done. */
  lemma DefaultsLowerMeasure(w: World, w': World, s: Step)
    requires InRange(w) && InRange(w') && Advanced(w, w') && Fresh(w') && w.creations <= 1
    requires (s.WriteSpec? || s.WriteDefaultStatus?) && (Fresh(w) ==> Enabled(w, s))
    ensures Enabled(w', s) && Measure(Apply(w', s)) < Measure(w)
  {
    assert Current(w') == Current(w);
  }

  /** The mirror step s, seen from the version the worker read. */
  predicate Mirrors(w: World, s: Step)
    requires InRange(w) && s.WriteMirror?
  {
    && Unset(w.versions[w.read].status) == 0 && !Terminal(w.versions[w.read].status)
    && s.slot <= w.slotSeen && w.slots[s.slot].Some? && s.version < |w.process.versions|
    && Mirrored(w.kind, w.versions[w.read].status, w.slots[s.slot].value, w.process.versions[s.version]).Some?
  }

  function Mirror(w: World, s: Step): Status
    requires InRange(w) && s.WriteMirror? && Mirrors(w, s)
  {
    Mirrored(w.kind, w.versions[w.read].status, w.slots[s.slot].value, w.process.versions[s.version]).value
  }

  /** What a reconcile of a reliable server leaves of Job and process. */
  ghost predicate KeepsUp(w: World, w': World)
    requires |w.slots| > 0 && |w'.slots| > 0
  {
    && w'.kind == w.kind && w'.node == w.node && w'.setup == w.setup && w'.process == w.process
    && (w'.slots == w.slots || (Slot(w).None? && Slot(w') == Some(NEW_JOB)))
  }

  /** The server with its caches. A reliable one has no faults, no lag, and nobody else acting during a
   *  reconcile; that is what convergence is claimed for. */
  class Server {
    const reliable: bool
    const edits: bool
    var w: World

    ghost predicate Valid()
      reads this
    {
      && Reachable(w) && InRange(w) && w.creations <= 1
      && w.edits == edits && (reliable ==> !edits)
    }

    constructor (w: World, reliable: bool)
      requires Initial(w) && (reliable ==> !w.edits)
      ensures Valid() && this.w == w && this.reliable == reliable
    {
      this.w := w;
      this.edits := w.edits;
      this.reliable := reliable;
      ReachableStart(w);
    }

    method Do(s: Step)
      requires Valid() && Enabled(w, s)
      modifies this
      ensures Valid() && w == Apply(old(w), s)
    {
      ReachableStep(w, s);
      w := Apply(w, s);
    }

    method Interfere()
      requires Valid()
      modifies this
      ensures Valid() && Advanced(old(w), w)
      ensures reliable ==> w == old(w).(versionSeen := |w.versions| - 1, slotSeen := |w.slots| - 1)
    {
      if reliable {
        Do(MoveCaches(|w.versions| - 1, |w.slots| - 1));
        return;
      }
      var fuel: nat := *;
      while fuel > 0
        invariant Valid() && Advanced(old(w), w)
      {
        var s: Step := *;
        if ByOthers(s) && Enabled(w, s) { Do(s); }
        fuel := fuel - 1;
      }
    }

    method Fault() returns (f: bool)
      ensures reliable ==> !f
    {
      f := *;
      if reliable { f := false; }
    }

    /** The cached resource, on which the rest of the reconcile acts. */
    method ReadResource() returns (r: Resource)
      requires Valid()
      modifies this
      ensures Valid() && Advanced(old(w).(read := w.read), w)
      ensures r == w.versions[w.read]
      ensures reliable ==> Fresh(w) && KeepsUp(old(w), w) && w.slots == old(w).slots
    {
      Interfere();
      Do(Read);
      r := w.versions[w.read];
    }

    method GetJob() returns (r: Result<Job>, at: nat)
      requires Valid()
      modifies this
      ensures Valid() && Advanced(old(w), w)
      ensures at <= w.slotSeen < |w.slots|
      ensures r.Ok? ==> w.slots[at] == Some(r.value)
      ensures r == Err(NotFound) ==> w.slots[at] == None
      ensures reliable ==> w.slots == old(w).slots && at == |w.slots| - 1 && w.process == old(w).process
      ensures reliable ==> w.timers == old(w).timers
      ensures reliable ==> r.Ok? || r == Err(NotFound)
    {
      Interfere();
      at := w.slotSeen;
      var f := Fault();
      if f { return Err(Refused), at; }
      r := if w.slots[w.slotSeen].Some? then Ok(w.slots[w.slotSeen].value) else Err(NotFound);
    }

    /** The pods of the Job; a single one carries some version of the process's annotations. */
    method ListPods() returns (r: Result<seq<Annotations>>, v: nat)
      requires Valid()
      modifies this
      ensures Valid() && Advanced(old(w), w) && v < |w.process.versions|
      ensures r.Ok? && |r.value| == 1 ==> r.value[0] == w.process.versions[v]
      ensures reliable ==> w.slots == old(w).slots && w.process == old(w).process
      ensures reliable ==> r.Ok? && |r.value| == 1 && v == |w.process.versions| - 1
    {
      Interfere();
      v := |w.process.versions| - 1;
      if reliable { return Ok([w.process.versions[v]]), v; }
      var f := Fault();
      var several: bool, lag: int := *, *;
      if f { return Err(Refused), v; }
      if several { r := *; if r.Ok? && |r.value| == 1 { r := Ok([]); } return r, v; }
      if 0 <= lag < |w.process.versions| { v := lag; }
      return Ok([w.process.versions[v]]), v;
    }

    /** One optimistic write of defaults; an error may still have committed. */
    method WriteDefaults(s: Step) returns (ok: bool)
      requires Valid() && (s.WriteSpec? || s.WriteDefaultStatus?)
      requires Fresh(w) ==> Enabled(w, s)
      modifies this
      ensures Valid()
      ensures ok && !edits ==> Measure(w) < old(Measure(w))
      ensures reliable && old(Fresh(w)) ==> ok
      ensures reliable ==> KeepsUp(old(w), w) && w.slots == old(w).slots
    {
      Interfere();
      var f := Fault();
      if f || !Fresh(w) { return false; }
      DefaultsLowerMeasure(old(w), w, s);
      Do(s);
      f := Fault();  // a lost reply
      ok := !f;
    }

    /** The same for what the Job looks like. */
    method WriteStatus(s: Step) returns (ok: bool)
      requires Valid() && s.WriteMirror? && Mirrors(w, s)
      modifies this
      ensures Valid()
      ensures ok ==> Current(w).status == Mirror(old(w), s)
      ensures reliable && old(Fresh(w)) ==> ok
      ensures reliable ==> KeepsUp(old(w), w) && w.slots == old(w).slots
    {
      Interfere();
      var f := Fault();
      if f || !Fresh(w) { return false; }
      Do(s);
      f := Fault();
      ok := !f;
    }

    method Create() returns (ok: bool)
      requires Valid() && Unset(w.versions[w.read].status) == 0 && !Terminal(w.versions[w.read].status)
      modifies this
      ensures Valid()
      ensures ok && !edits ==> Measure(w) < old(Measure(w))
      ensures reliable && old(Slot(w)).None? ==> ok
      ensures reliable ==> KeepsUp(old(w), w)
    {
      Interfere();
      var f := Fault();
      if f || Slot(w).Some? { return false; }  // AlreadyExists
      Do(CreateJob);
      f := Fault();
      ok := !f;
    }
  }

  lemma DefaultedHasNoBlanks(k: Kind, spec: Spec)
    ensures Blanks(k, Defaulted(k, spec)) == 0
  {
  }

  /** Fills in the blanks under an update flag, controller by controller: what is not blank stays as it is, and a
   *  blank action, uid or gid gets what the command line takes for one that is not given. */
  method SetDefaultSpec(k: Kind, spec: Spec) returns (s: Spec, updateFlag: bool)
    ensures s == Defaulted(k, spec)
    ensures updateFlag <==> Blanks(k, spec) > 0
    ensures Blanks(k, s) == 0
    ensures s.rest == spec.rest
    ensures spec.action != "" || k == SwitchoverKind ==> s.action == spec.action
    ensures spec.action == "" && k != SwitchoverKind ==> s.action == "StopAndStart"
    ensures s.image == if spec.image != "" then spec.image else "citacloud/cita-node-job:v0.0.2"
    ensures s.pullPolicy == if spec.pullPolicy != "" then spec.pullPolicy else "IfNotPresent"
    ensures s.ttl == if spec.ttl != 0 then spec.ttl else 30
    ensures s.uid == if spec.uid == 0 && k == ChangeOwnerKind then 1000 else spec.uid
    ensures s.gid == if spec.gid == 0 && k == ChangeOwnerKind then 1000 else spec.gid
    ensures updateFlag <==>
              || (spec.action == "" && k != SwitchoverKind) || spec.image == "" || spec.ttl == 0
              || (spec.pullPolicy == "" && k != FallbackKind)
              || ((spec.uid == 0 || spec.gid == 0) && k == ChangeOwnerKind)
  {
    s, updateFlag := spec, false;
    if k != SwitchoverKind && s.action == "" { s, updateFlag := s.(action := "StopAndStart"), true; }
    if s.image == "" { s, updateFlag := s.(image := "citacloud/cita-node-job:v0.0.2"), true; }
    if s.pullPolicy == "" {
      s := s.(pullPolicy := "IfNotPresent");
      if k != FallbackKind { updateFlag := true; }
    }
    if s.ttl == 0 { s, updateFlag := s.(ttl := 30), true; }
    if k == ChangeOwnerKind {
      if s.uid == 0 { s, updateFlag := s.(uid := 1000), true; }
      if s.gid == 0 { s, updateFlag := s.(gid := 1000), true; }
    }
    DefaultedHasNoBlanks(k, spec);
  }

  method SetDefaultStatus(status: Status, created: Time) returns (s: Status, updateFlag: bool)
    ensures s == DefaultedStatus(status, created)
    ensures updateFlag <==> Unset(status) > 0
    ensures s == Status(if status.phase == Blank then Active else status.phase,
                        if status.startTime == None then Some(created) else status.startTime,
                        status.endTime, status.message, status.actual, status.md5)
    ensures updateFlag <==> status.phase == Blank || status.startTime == None
  {
    s, updateFlag := status, false;
    if s.phase == Blank { s, updateFlag := s.(phase := Active), true; }
    if s.startTime == None { s, updateFlag := s.(startTime := Some(created)), true; }
  }

  class Reconciler {
    const api: Server

    constructor (api: Server)
      ensures this.api == api
    {
      this.api := api;
    }

    /** The log and the time of a failed Job. */
    method LookFailed(status: Status, j: Job) returns (early: Option<Verdict>, cur: Status, version: nat)
      requires api.Valid() && j.active != 1 && j.failed == 1 && |j.conditions| > 0
      modifies api
      ensures api.Valid() && Advanced(old(api.w), api.w)
      ensures early.Some? ==> early.value == Error
      ensures early.None? ==> version < |api.w.process.versions|
      ensures early.None? ==> Mirrored(api.w.kind, status, j, api.w.process.versions[version]) == Some(cur)
      ensures api.reliable ==> early.None? && api.w.slots == old(api.w).slots && api.w.process == old(api.w).process
    {
      cur := status;
      var pods;
      pods, version := api.ListPods();
      if pods.Err? || |pods.value| != 1 { return Some(Error), cur, version; }
      var a := pods.value[0];
      cur := cur.(message := if ERROR_LOG in a then a[ERROR_LOG] else "", phase := Failed);
      cur := cur.(endTime := Some(j.conditions[0]));
      early := None;
    }

    /** The size and the digest that the pod of a successful Job reports. */
    method LookSucceeded(status: Status, j: Job) returns (early: Option<Verdict>, cur: Status, version: nat)
      requires api.Valid() && Finished(j) && Plausible(j) && j.succeeded == 1
      requires api.w.process.exit == Some(true)
      modifies api
      ensures api.Valid() && Advanced(old(api.w), api.w)
      ensures early.Some? ==> early.value != Requeue
      ensures early.None? ==> version < |api.w.process.versions|
      ensures early.None? ==> Mirrored(api.w.kind, status, j, api.w.process.versions[version]) == Some(cur)
      ensures api.reliable ==> api.w.slots == old(api.w).slots && api.w.process == old(api.w).process
      ensures api.reliable ==>
                early == if Reports(OpOf(api.w.kind)) && api.w.node == HelmNode then Some(Error) else None
    {
      early, cur, version := None, status.(phase := Complete), 0;
      if Reports(OpOf(api.w.kind)) {
        ReachableInv(api.w);
        ReportParses(api.w);
        var pods;
        pods, version := api.ListPods();
        if pods.Err? { return Some(Error), cur, version; }
        if |pods.value| != 1 { return Some(Done), cur, version; }  // logged, but no error is returned
        var size := ParsedSize(api.w.kind, pods.value[0]);
        if size.None? { return Some(Error), cur, version; }
        cur := cur.(actual := size.value);
        if api.w.kind == DuplicateKind { cur := cur.(md5 := ParsedMd5(pods.value[0])); }
      }
      cur := cur.(endTime := j.completionTime);
    }

    /** Looks at the Job, and at its pod where the branch needs it: either the status to compare with the
     *  present one, or an early verdict. */
    method Look(status: Status) returns (early: Option<Verdict>, cur: Status, at: nat, version: nat)
      requires api.Valid()
      modifies api
      ensures api.Valid() && Advanced(old(api.w), api.w)
      ensures early.Some? ==> early.value != Requeue
      ensures early.None? ==>
                && at <= api.w.slotSeen && api.w.slots[at].Some? && version < |api.w.process.versions|
                && Mirrored(api.w.kind, status, api.w.slots[at].value, api.w.process.versions[version]) == Some(cur)
      ensures api.reliable ==> api.w.slots == old(api.w).slots && api.w.process == old(api.w).process
      ensures api.reliable && Slot(api.w).Some? ==>
                early == (if Stuck(api.w) then Some(Error) else None) && at == |api.w.slots| - 1
    {
      early, cur, version := None, status, 0;
      var job;
      job, at := api.GetJob();
      if job.Err? { return Some(Error), cur, at, 0; }
      var j := job.value;
      SlotIsPlausible(api.w, at);
      if j.active == 1 {
        cur := cur.(phase := Active);
      } else if j.failed == 1 {
        early, cur, version := LookFailed(status, j);
      } else if j.succeeded == 1 {
        early, cur, version := LookSucceeded(status, j);
      }
    }

    /** Brings the status up to date with the Job. */
    method Mirror(status: Status) returns (r: Verdict)
      requires api.Valid() && status == api.w.versions[api.w.read].status
      requires Unset(status) == 0 && !Terminal(status)
      modifies api
      ensures api.Valid() && r != Requeue
      ensures api.reliable && old(Fresh(api.w)) && old(Slot(api.w)).Some? ==>
                if Stuck(api.w) then r == Error
                else r == Done && (Finished(old(Slot(api.w)).value) ==> Terminal(Current(api.w).status))
      ensures api.reliable ==> KeepsUp(old(api.w), api.w) && api.w.slots == old(api.w).slots
    {
      var early, cur, at, version := Look(status);
      if early.Some? { return early.value; }
      SlotIsPlausible(api.w, at);
      if cur != status {
        var ok := api.WriteStatus(WriteMirror(at, version));
        return if ok then Done else Error;
      }
      return Done;
    }

    /** Defaults of the spec: None when nothing has to be filled in. */
    method PrepareSpec(spec: Spec) returns (early: Option<Verdict>)
      requires api.Valid() && spec == api.w.versions[api.w.read].spec
      modifies api
      ensures api.Valid() && early != Some(Done)
      ensures early.None? ==> api.w == old(api.w) && Blanks(api.w.kind, spec) == 0
      ensures early == Some(Requeue) && !api.edits ==> Measure(api.w) < old(Measure(api.w))
      ensures api.reliable && old(Fresh(api.w)) ==> early != Some(Error)
      ensures api.reliable ==> KeepsUp(old(api.w), api.w) && api.w.slots == old(api.w).slots
    {
      var filled, raised := SetDefaultSpec(api.w.kind, spec);
      if !raised { return None; }
      var ok := api.WriteDefaults(WriteSpec);
      early := Some(if ok then Requeue else Error);
    }

    /** Defaults of the status. */
    method PrepareStatus(status: Status) returns (early: Option<Verdict>)
      requires api.Valid() && status == api.w.versions[api.w.read].status
      modifies api
      ensures api.Valid() && early != Some(Done)
      ensures early.None? ==> api.w == old(api.w) && Unset(status) == 0
      ensures early == Some(Requeue) && !api.edits ==> Measure(api.w) < old(Measure(api.w))
      ensures api.reliable && old(Fresh(api.w)) ==> early != Some(Error)
      ensures api.reliable ==> KeepsUp(old(api.w), api.w) && api.w.slots == old(api.w).slots
    {
      var filled, unset := SetDefaultStatus(status, api.w.created);
      if !unset { return None; }
      var ok := api.WriteDefaults(WriteDefaultStatus);
      early := Some(if ok then Requeue else Error);
    }

    /** The first half of a reconcile: defaults of spec and status, and what must exist beforehand. */
    method Prepare() returns (early: Option<Verdict>, status: Status)
      requires api.Valid()
      modifies api
      ensures api.Valid()
      ensures early == Some(Requeue) && !api.edits ==> Measure(api.w) < old(Measure(api.w))
      ensures early != Some(Done)
      ensures early.None? ==> Advanced(old(api.w).(read := api.w.read), api.w)
      ensures early.None? ==> status == api.w.versions[api.w.read].status && Unset(status) == 0
      ensures early.None? ==> Blanks(api.w.kind, api.w.versions[api.w.read].spec) == 0
      ensures api.reliable ==> early != Some(Error)
      ensures api.reliable ==> KeepsUp(old(api.w), api.w) && api.w.slots == old(api.w).slots
      ensures api.reliable && early.None? ==> Fresh(api.w)
    {
      var cr := api.ReadResource();
      status := cr.status;
      early := PrepareSpec(cr.spec);
      if early.Some? { return; }
      if api.w.kind == RestoreKind {
        var missing := api.Fault();  // the Backup or Snapshot named by the spec
        if missing { return Some(Error), status; }
      }
      early := PrepareStatus(status);
      if early.Some? { return; }
      var f := api.Fault();  // the role binding; for a switchover also the nodes' config maps
      early := if f then Some(Error) else None;
    }

    method CreateMissing() returns (r: Verdict)
      requires api.Valid() && Unset(api.w.versions[api.w.read].status) == 0
      requires !Terminal(api.w.versions[api.w.read].status)
      modifies api
      ensures api.Valid() && r != Done
      ensures r == Requeue && !api.edits ==> Measure(api.w) < old(Measure(api.w))
      ensures api.reliable && old(Slot(api.w)).None? ==> r == Requeue
      ensures api.reliable ==> KeepsUp(old(api.w), api.w)
    {
      var f := api.Fault();  // the Job, or the claim created before it, cannot be made
      if f { return Error; }
      var ok := api.Create();
      r := if ok then Requeue else Error;
    }

    /** The Job of a resource that is not at its end. */
    method AttendOpen(found: Result<Job>, status: Status) returns (r: Verdict)
      requires api.Valid() && status == api.w.versions[api.w.read].status && Unset(status) == 0 && !Terminal(status)
      requires api.reliable ==> if Slot(api.w).Some? then found.Ok? else found == Err(NotFound)
      modifies api
      ensures api.Valid()
      ensures r == Requeue && !api.edits ==> Measure(api.w) < old(Measure(api.w))
      ensures found.Err? && found != Err(NotFound) ==> r == Error && api.w == old(api.w)
      ensures api.reliable && old(Fresh(api.w)) && r == Error ==> Stuck(api.w)
      ensures api.reliable && old(Fresh(api.w)) && r == Done ==> Slot(api.w).Some? && SettledBy(old(api.w), api.w)
      ensures api.reliable ==> KeepsUp(old(api.w), api.w)
    {
      if found == Err(NotFound) {
        r := CreateMissing();
        return;
      }
      if found.Err? { return Error; }
      r := Mirror(status);
    }

    /** The second half: schedule the deletion of a finished Job, create a missing one, or mirror it. */
    method Attend(status: Status) returns (r: Verdict)
      requires api.Valid() && status == api.w.versions[api.w.read].status && Unset(status) == 0
      modifies api
      ensures api.Valid()
      ensures r == Requeue && !api.edits ==> Measure(api.w) < old(Measure(api.w))
      ensures api.reliable && old(Fresh(api.w)) && r == Error ==> Stuck(api.w)
      ensures api.reliable && Terminal(status) && old(Slot(api.w)).Some? ==> api.w.timers == old(api.w).timers + 1
      ensures api.reliable && old(Fresh(api.w)) && r == Done ==>
                && (Terminal(Current(api.w).status) || Slot(api.w).Some?)
                && SettledBy(old(api.w), api.w)
      ensures api.reliable ==> KeepsUp(old(api.w), api.w)
    {
      var found, at := api.GetJob();
      if Terminal(status) {
        if found.Ok? {
          api.Do(ScheduleDelete);
        }
        return Done;
      }
      r := AttendOpen(found, status);
    }

    /** One reconcile. Every write on the way is a step of the world; any call may fail, and an error may
     *  hide a committed write. Asking for a requeue means that something is no longer to be done. */
    method Reconcile() returns (r: Verdict)
      requires api.Valid()
      modifies api
      ensures api.Valid()
      ensures r == Requeue && !api.edits ==> Measure(api.w) < old(Measure(api.w))
      ensures api.reliable && r == Error ==> Stuck(api.w)
      ensures api.reliable ==> KeepsUp(old(api.w), api.w)
      ensures api.reliable && r == Done ==>
                && (Terminal(Current(api.w).status) || Slot(api.w).Some?)
                && SettledBy(old(api.w), api.w)
    {
      var early, status := Prepare();
      if early.Some? { return early.value; }
      r := Attend(status);
    }

    /** Requeues end by themselves: without edits, reconciling while a requeue is asked for terminates,
     *  after at most as many rounds as there were things to do. */
    method Drain() returns (r: Verdict, rounds: int)
      requires api.Valid() && !api.edits
      modifies api
      ensures api.Valid() && r != Requeue
      ensures rounds <= old(Measure(api.w)) + 1
      ensures api.reliable ==> KeepsUp(old(api.w), api.w) && (r == Error ==> Stuck(api.w))
      ensures api.reliable ==> Terminal(Current(api.w).status) || Slot(api.w).Some?
      ensures api.reliable && r == Done ==> SettledBy(old(api.w), api.w)
    {
      r := Reconcile();
      rounds := 1;
      while r == Requeue
        invariant api.Valid()
        invariant r == Requeue ==> rounds + Measure(api.w) <= old(Measure(api.w))
        invariant r != Requeue ==> rounds <= old(Measure(api.w)) + 1
        invariant api.reliable ==> KeepsUp(old(api.w), api.w) && (r == Error ==> Stuck(api.w))
        invariant api.reliable && r == Done ==>
                    (Terminal(Current(api.w).status) || Slot(api.w).Some?) && SettledBy(old(api.w), api.w)
        decreases r == Requeue, Measure(api.w)
      {
        r := Reconcile();
        rounds := rounds + 1;
      }
    }

    /** The process ends, and the Job controller records it, unless that has happened already. */
    method ComeToAnEnd(ended: Process, finished: Job)
      requires api.Valid() && Slot(api.w).Some?
      requires Continues(api.w.process, ended) && Possible(api.w.setup, api.w.node, OpOf(api.w.kind), ended)
      requires Plausible(finished) && Finished(finished) && (finished.succeeded == 1 ==> ended.exit == Some(true))
      modifies api
      ensures api.Valid() && Slot(api.w).Some? && Finished(Slot(api.w).value)
      ensures Measure(api.w) == old(Measure(api.w)) && api.w.kind == old(api.w).kind
    {
      SlotNeedsCreation(api.w);
      if !Finished(Slot(api.w).value) {
        api.Do(MoveProcess(ended));
        api.Do(MoveJob(finished));
      }
    }

    /** Convergence: on a reliable server, once the process has ended and the Job controller has recorded it, a
     *  bounded number of reconciles brings the resource to its end, if and only if the Job did not succeed without
     *  a trace, as that of a Helm node's backup does. */
    method Converge(ended: Process, finished: Job) returns (rounds: int)
      requires api.Valid() && api.reliable
      requires Continues(api.w.process, ended) && Possible(api.w.setup, api.w.node, OpOf(api.w.kind), ended)
      requires Plausible(finished) && Finished(finished) && (finished.succeeded == 1 ==> ended.exit == Some(true))
      modifies api
      ensures api.Valid()
      ensures Current(api.w).status.phase in {Complete, Failed} <==>
                !(&& api.w.kind in {BackupKind, DuplicateKind, SnapshotKind} && api.w.node == HelmNode
                  && Slot(api.w).Some? && Slot(api.w).value.succeeded == 1)
      ensures rounds <= 20
    {
      var r, more;
      r, rounds := Drain();
      if !Terminal(Current(api.w).status) {
        ComeToAnEnd(ended, finished);
        r, more := Drain();
        rounds := rounds + more;
      }
      if Stuck(api.w) { SilentSuccess(api.w, |api.w.versions| - 1); }
    }
  }

  /** A finished Job, seen by a reconcile, has made the status terminal. */
  predicate SettledBy(w: World, w': World)
    requires |w.versions| > 0 && |w.slots| > 0 && |w'.versions| > 0
  {
    Slot(w).Some? && Finished(Slot(w).value) ==> Terminal(Current(w').status)
  }
}
