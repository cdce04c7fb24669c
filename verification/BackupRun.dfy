/** A Backup from its resource to what its Job does: the defaults, the arguments, the command line, and the node. */
module BackupRun {
  import opened Wrappers
  import opened ApiServer
  import opened Decimal
  import opened Envelope
  import Behavior
  import CloudConfig
  import Commands
  import Flags
  import Helm
  import JobReconciler
  import JobWorld
  import Process
  import Python

  /** Both are values the command line knows; no action is as good as one. */
  predicate Known(spec: JobWorld.Spec, target: Commands.Target) {
    && (spec.action == "" || spec.action == "StopAndStart" || spec.action == "Direct")
    && (target.deployMethod == "helm" || target.deployMethod == "python" || target.deployMethod == "cloud-config")
  }

  function ActionOf(spec: JobWorld.Spec): Action {
    if spec.action == "Direct" then Direct else StopAndStart
  }

  /** The calls are those of the script, and all of them if the process ends well. */
  ghost predicate Obeys(action: Action, n: Name, kind: NodeKind, before: seq<Call>, now: seq<Call>, ok: bool) {
    Follows(Script(action, n, kind, Backup), before, now) && (ok ==> now == before + Script(action, n, kind, Backup))
  }

  /** The arguments of the Job for a Backup: the spec's action is printed once its defaults are filled in. */
  method JobArguments(spec: JobWorld.Spec, target: Commands.Target) returns (args: seq<string>, action: string)
    ensures action == if spec.action == "" then "StopAndStart" else spec.action
    ensures args == Flags.Print(Commands.BackupSettings(target.(action := action)))
  {
    var filled, raised := JobReconciler.SetDefaultSpec(JobWorld.BackupKind, spec);
    action := filled.action;
    args := Flags.Print(Commands.BackupSettings(target.(action := action)));
  }

  /** The backup command understands its arguments. */
  method Parse(target: Commands.Target, args: seq<string>) returns (o: Commands.BackupOptions)
    requires args == Flags.Print(Commands.BackupSettings(target))
    ensures o.target == target && !o.compress
  {
    var flags := new Flags.FlagSet(Commands.BackupFlags());
    var error := flags.Parse(args);
    Commands.BackupRoundTrip(target);
    o := Commands.BackupOf(flags.values);
  }

  /** What a backup that ended well has left. */
  lemma Delivered(setup: Setup, kind: NodeKind, p: Process.Process, dest: Behavior.Tree)
    requires Process.Possible(setup, kind, Backup, p) && p.exit == Some(true) && kind != HelmNode
    requires !setup.options.enable && (p.report.Some? ==> p.report.value.vault == dest)
    ensures forall p <- setup.source :: p != [] && (p[0] == "data" || p[0] == "chain_data") ==>
              p in dest && dest[p] == setup.source[p]
    ensures setup.usage(setup.source).Some?
    ensures p.versions[|p.versions| - 1] ==
            map["backup-size" := FormatInt(setup.usage(setup.source).value), "md5" := ""]
  {
    JobWorld.BackupWrittenOut(setup, dest, p.report.value.md5);
  }

  /** The process on a node whose backup does something. */
  method Execute(kind: NodeKind, how: Action, name: Name, api: Cluster, data: Data, pod: Pod)
    returns (ok: bool, ghost p: Process.Process)
    requires api.Valid() && pod.Valid() && IsSound(data) && kind != HelmNode
    requires |pod.versions| == 1 && Process.HasNoSize(pod.annotations)
    modifies api, pod, data.dest
    ensures Obeys(how, name, kind, old(api.calls), api.calls, ok)
    ensures pod.Valid() && p.versions == pod.versions && p.exit == Some(ok)
    ensures Process.Possible(SetupOf(data), kind, Backup, p)
    ensures p.report.Some? ==> p.report.value.vault == data.dest.tree
    ensures api.reliable && name in old(api.store).objects && !ok ==>
              && |api.calls| > |old(api.calls)|
              && api.calls[|api.calls| - 1].Work? && !api.calls[|api.calls| - 1].ok
    ensures pod.reliable && !ok ==> pod.annotations.Keys == {"err-log"}
  {
    if kind == CloudConfigNode {
      var node := new CloudConfig.Node(api, name);
      ok, p := Process.ExecuteCloudConfig(node, Backup, how, data, pod);
    } else {
      var node := new Python.Node(api, name);
      ok, p := Process.ExecutePython(node, Backup, how, data, pod);
    }
  }

  /** The work itself, once the node and the action are known. */
  method Work(kind: NodeKind, how: Action, target: Commands.Target, api: Cluster, data: Data, pod: Pod)
    returns (ok: bool)
    requires api.Valid() && pod.Valid() && IsSound(data) && !data.options.enable
    requires |pod.versions| == 1 && Process.HasNoSize(pod.annotations)
    modifies api, pod, data.dest
    ensures kind != HelmNode ==> Obeys(how, target.node, kind, old(api.calls), api.calls, ok)
    ensures kind == HelmNode ==>
              ok && api.run == old(api.run) && data.dest.tree == old(data.dest.tree) && pod.versions == old(pod.versions)
    ensures ok && kind != HelmNode ==>
              && (forall p <- data.source.tree :: p != [] && (p[0] == "data" || p[0] == "chain_data") ==>
                    p in data.dest.tree && data.dest.tree[p] == data.source.tree[p])
              && data.behavior.usage(data.source.tree).Some?
              && pod.annotations ==
                   map["backup-size" := FormatInt(data.behavior.usage(data.source.tree).value), "md5" := ""]
    ensures api.reliable && kind != HelmNode && target.node in old(api.store).objects && !ok ==>
              && |api.calls| > |old(api.calls)|
              && api.calls[|api.calls| - 1].Work? && !api.calls[|api.calls| - 1].ok
    ensures pod.reliable && !ok ==> pod.annotations.Keys == {"err-log"}
  {
    ghost var p, count;
    if kind == HelmNode {
      var node := new Helm.Node(api, target.chain);
      ok, p, count := Process.ExecuteHelm(node, Backup, how, data, pod);
    } else {
      ok, p := Execute(kind, how, target.node, api, data, pod);
      if ok { Delivered(SetupOf(data), kind, p, data.dest.tree); }
    }
  }

  /** A whole Backup, of a node of any kind. Without an action, or with StopAndStart, it stops the node, waits, copies
   *  and starts it again; with Direct it only copies; with anything else, or an unknown deploy method, it does nothing
   *  and fails. When it ends well, the vault has all of the node's data and the pod says its size; but the node of a
   *  Helm chain is left alone, and nothing is said. */
  method Run(spec: JobWorld.Spec, target: Commands.Target, api: Cluster, behavior: Behavior.Behavior,
             source: Behavior.Volume, dest: Behavior.Volume, pod: Pod)
    returns (ok: bool)
    requires api.Valid() && pod.Valid() && source != dest && Behavior.WellFormed(source.tree)
    requires |pod.versions| == 1 && Process.HasNoSize(pod.annotations)
    modifies api, pod, dest
    ensures Known(spec, target) && target.deployMethod == "cloud-config" ==>
              Obeys(ActionOf(spec), target.node, CloudConfigNode, old(api.calls), api.calls, ok)
    ensures Known(spec, target) && target.deployMethod == "python" ==>
              Obeys(ActionOf(spec), target.node, PythonNode, old(api.calls), api.calls, ok)
    ensures !Known(spec, target) ==> !ok && api.run == old(api.run) && dest.tree == old(dest.tree)
    ensures target.deployMethod == "helm" ==>
              api.run == old(api.run) && dest.tree == old(dest.tree) && pod.versions == old(pod.versions)
    ensures ok && target.deployMethod != "helm" ==>
              && (forall p <- source.tree :: p != [] && (p[0] == "data" || p[0] == "chain_data") ==>
                    p in dest.tree && dest.tree[p] == source.tree[p])
              && behavior.usage(source.tree).Some?
              && pod.annotations ==
                   map["backup-size" := FormatInt(behavior.usage(source.tree).value), "md5" := ""]
    ensures api.reliable && Known(spec, target) && target.node in old(api.store).objects && !ok ==>
              && target.deployMethod != "helm" && |api.calls| > |old(api.calls)|
              && api.calls[|api.calls| - 1].Work? && !api.calls[|api.calls| - 1].ok
              && (pod.reliable ==> pod.annotations.Keys == {"err-log"})
  {
    var args, action := JobArguments(spec, target);
    var options := Parse(target.(action := action), args);
    var dispatched := Commands.Dispatch(true, options.target);
    if dispatched.None? { return false; }
    var data := Data(behavior, source, dest, Behavior.CompressOptions(options.compress, [options.output]));
    var (kind, how) := dispatched.value;
    ok := Work(kind, how, options.target, api, data, pod);
  }
}
