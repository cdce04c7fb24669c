/** The Jobs that controllers make of a Duplicate, a Recover and a Restore: volumes, mounts and arguments. */
module JobSpecs {
  import opened Wrappers
  import opened Decimal
  import opened Paths
  import opened Flags
  import opened Commands

  /** Volumes backed by a claim; those with configuration do not matter here. */
  datatype Volume = Volume(name: string, claim: string)

  datatype Mount = Mount(volume: string, path: string)

  datatype JobSpec = JobSpec(volumes: seq<Volume>, mounts: seq<Mount>, command: string, args: seq<string>)

  /** The mounts can be made: none covers the root, and no two are at the same place. */
  predicate Mountable(job: JobSpec) {
    && (forall i :: 0 <= i < |job.mounts| ==>
          IsAbsolute(job.mounts[i].path) && Resolved(job.mounts[i].path) != [])
    && (forall i, j :: 0 <= i < j < |job.mounts| ==> Resolved(job.mounts[i].path) != Resolved(job.mounts[j].path))
  }

  /** The Job can run, and the path leads under the mount of that volume, which is declared to be that claim. */
  predicate Reaches(job: JobSpec, path: string, volume: string, claim: string) {
    && Mountable(job) && Volume(volume, claim) in job.volumes
    && exists m <- job.mounts :: m.volume == volume && Under(path, m.path)
  }

  /** A Job with one mount. */
  lemma OneMount(job: JobSpec, m: Mount, path: string, claim: string)
    requires job.mounts == [m] && IsAbsolute(m.path) && Volume(m.volume, claim) in job.volumes
    ensures Mountable(job) <==> Resolved(m.path) != []
    ensures Reaches(job, path, m.volume, claim) <==> Under(path, m.path)
  {
    assert m in job.mounts;
  }

  /** A Job that mounts volume v at "/c" and volume w at "/d", for a proper name d: both can be mounted if and only
   *  if c is another proper name. */
  lemma TwoMounts(job: JobSpec, v: string, c: string, claimV: string, w: string, d: string, claimW: string, path: string)
    requires '/' !in c && '/' !in d && IsProper(d) && v != w
    requires job.mounts == [Mount(v, "/" + c), Mount(w, "/" + d)] || job.mounts == [Mount(w, "/" + d), Mount(v, "/" + c)]
    requires Volume(v, claimV) in job.volumes && Volume(w, claimW) in job.volumes
    ensures Mountable(job) <==> IsProper(c) && c != d
    ensures Reaches(job, path, v, claimV) <==> IsProper(c) && c != d && Under(path, "/" + c)
    ensures Reaches(job, "/" + d, w, claimW) <==> IsProper(c) && c != d
  {
    var m, n := Mount(v, "/" + c), Mount(w, "/" + d);
    MountResolved(c);
    MountResolved(d);
    assert [c] == [d] <==> c == d by { assert [c][0] == c && [d][0] == d; }
    assert m in job.mounts && n in job.mounts;
    assert job.mounts[0] in {m, n} && job.mounts[1] in {m, n};
    if Under(path, "/" + c) { assert Resolved("/" + c) == [c]; }
  }

  datatype Backend = Backend(pvc: string, path: string)

  datatype DeploymentVolume = DeploymentVolume(name: string, claim: Option<string>)

  const BACKUP_SOURCE := "backup-source"
  const BACKUP_DEST := "backup-dest"
  const RESTORE_SOURCE := "restore-source"
  const RESTORE_DEST := "restore-dest"
  const BACKUP_SOURCE_PATH := "/backup-source"
  const RESTORE_SOURCE_PATH := "/restore-source"
  const RESTORE_DEST_PATH := "/restore-dest"

  function DataClaim(node: string): string {
    "datadir-" + node + "-0"
  }

  /***** Duplicate *****/

  /** The claim of the first volume of that name; None when there is none, and also when that volume has no claim,
   *  which the original does not survive. */
  function DataDirClaim(volumes: seq<DeploymentVolume>): Option<string> {
    if volumes == [] then None
    else if volumes[0].name == "datadir" then volumes[0].claim
    else DataDirClaim(volumes[1..])
  }

  /** The claim of the first volume called datadir. */
  predicate IsDataDirClaim(volumes: seq<DeploymentVolume>, claim: Option<string>) {
    || (claim == None && forall i :: 0 <= i < |volumes| ==> volumes[i].name != "datadir")
    || exists i :: 0 <= i < |volumes| && volumes[i].name == "datadir" && volumes[i].claim == claim &&
                   forall j :: 0 <= j < i ==> volumes[j].name != "datadir"
  }

  /** That determines the claim. */
  lemma {:induction false} DataDirClaimIsFirst(volumes: seq<DeploymentVolume>, claim: Option<string>)
    ensures IsDataDirClaim(volumes, claim) <==> claim == DataDirClaim(volumes)
  {
    if volumes != [] && volumes[0].name != "datadir" {
      var rest := volumes[1..];
      DataDirClaimIsFirst(rest, claim);
      assert forall i :: 0 <= i < |rest| ==> rest[i] == volumes[i + 1];
      if IsDataDirClaim(rest, claim) && exists i :: 0 <= i < |rest| && rest[i].name == "datadir" {
        var i :| 0 <= i < |rest| && rest[i].name == "datadir" && rest[i].claim == claim &&
                 forall j :: 0 <= j < i ==> rest[j].name != "datadir";
        assert volumes[i + 1].claim == claim && forall j :: 0 <= j < i + 1 ==> volumes[j].name != "datadir";
      }
      if IsDataDirClaim(volumes, claim) && exists i :: 0 <= i < |volumes| && volumes[i].name == "datadir" {
        var i :| 0 <= i < |volumes| && volumes[i].name == "datadir" && volumes[i].claim == claim &&
                 forall j :: 0 <= j < i ==> volumes[j].name != "datadir";
        assert rest[i - 1].claim == claim && forall j :: 0 <= j < i - 1 ==> rest[j].name != "datadir";
      }
    }
  }

  /** The first volume of that name decides, also when it has no claim. */
  method FindDataDir(volumes: seq<DeploymentVolume>) returns (claim: Option<string>)
    ensures IsDataDirClaim(volumes, claim)
  {
    for i := 0 to |volumes|
      invariant forall j :: 0 <= j < i ==> volumes[j].name != "datadir"
    {
      if volumes[i].name == "datadir" { return volumes[i].claim; }
    }
    claim := None;
  }

  /** The claim that holds the node's data; the Deployment is looked up for one deploy method only. */
  function SourceClaim(t: Target, deployment: Option<seq<DeploymentVolume>>): Option<string> {
    if t.deployMethod != "python" then Some(DataClaim(t.node))
    else if deployment.None? then None
    else
      var claim := DataDirClaim(deployment.value);
      if claim == Some("") then None else claim
  }

  /** For python it is the claim of the Deployment's first volume called datadir, unless that is empty; otherwise its
   *  name follows from the node's. */
  lemma SourceClaimExactly(t: Target, deployment: Option<seq<DeploymentVolume>>, claim: string)
    ensures SourceClaim(t, deployment) == Some(claim) <==>
            if t.deployMethod == "python" then
              deployment.Some? && claim != "" && IsDataDirClaim(deployment.value, Some(claim))
            else claim == "datadir-" + t.node + "-0"
  {
    if deployment.Some? { DataDirClaimIsFirst(deployment.value, Some(claim)); }
  }

  /** None is an error of the reconcile. */
  method JobForDuplicate(t: Target, name: string, backend: Option<Backend>, compress: Option<Compression>,
                         deployment: Option<seq<DeploymentVolume>>)
    returns (job: Option<JobSpec>)
    ensures job.Some? <==>
              && SourceClaim(t, deployment).Some?
              && (t.deployMethod == "helm" || t.deployMethod == "python" || t.deployMethod == "cloud-config")
              && backend.Some? && '/' in backend.value.path
    ensures job.Some? ==>
              && job.value.command == "backup"
              && DuplicateOptions(t, name, backend.value, compress, job.value)
    ensures job.Some? ==>
              DuplicateReaches(t, backend.value, SourceClaim(t, deployment).value, BACKUP_SOURCE_PATH, job.value)
  {
    var pvcSourceName: string;
    if t.deployMethod == "python" {
      if deployment.None? { return None; }
      var found := FindDataDir(deployment.value);
      DataDirClaimIsFirst(deployment.value, found);
      if found.None? || found.value == "" { return None; }
      pvcSourceName := found.value;
    } else {
      pvcSourceName := DataClaim(t.node);
    }
    if backend.None? { return None; }
    var path := backend.value.path;
    var mountPoint := GetMountPoint(path);
    MountPoint(path);
    if mountPoint.None? { return None; }
    var onePvc := pvcSourceName == backend.value.pvc;
    var volumes, mounts;
    if onePvc {
      volumes := [Volume(BACKUP_SOURCE, pvcSourceName)];
      mounts := [Mount(BACKUP_SOURCE, mountPoint.value)];
    } else {
      volumes := [Volume(BACKUP_SOURCE, pvcSourceName), Volume(BACKUP_DEST, backend.value.pvc)];
      mounts := [Mount(BACKUP_SOURCE, BACKUP_SOURCE_PATH), Mount(BACKUP_DEST, mountPoint.value)];
    }
    if !KnownDeployMethod(t.deployMethod) { return None; }
    var sourcePath := if onePvc then JoinPath(mountPoint.value, t.node) else BACKUP_SOURCE_PATH;
    var j := JobSpec(volumes, mounts, "backup", Print(DuplicateSettings(t, name, sourcePath, path, compress)));
    DuplicateRoundTrip(t, name, sourcePath, path, compress);
    if onePvc {
      OneClaimReaches(j, t, backend.value);
    } else {
      VolumeNamesDiffer();
      TwoClaimsReach(j, t, backend.value, pvcSourceName, BACKUP_SOURCE);
    }
    job := Some(j);
  }

  function BackupOptionsOf(job: JobSpec): BackupOptions {
    BackupOf(Understood(BackupFlags(), job.args).values)
  }

  function RestoreOptionsOf(job: JobSpec): RestoreOptions {
    RestoreOf(Understood(RestoreFlags(), job.args).values)
  }

  /** What the command line makes of the Job's arguments is what the Duplicate asked for. */
  ghost predicate DuplicateOptions(t: Target, name: string, b: Backend, compress: Option<Compression>, job: JobSpec) {
    && Understood(BackupFlags(), job.args).error == None
    && var o := BackupOptionsOf(job);
       && o.target == t && o.destPath == b.path && o.compress == compress.Some?
       && (compress.Some? ==>
             && o.compressType == compress.value.cType
             && o.output == if compress.value.file != "" then compress.value.file else name)
  }

  /** Where the two paths lead that the command line gets. The destination is in the backend's claim if and only if
   *  the backend's path stays inside its mount point, and with two claims that mount point is not the one of the
   *  source. With one claim, the source is the node's directory below the mount point: it is in that claim if and
   *  only if the mount point names an entry and the node is not the parent directory. */
  ghost predicate DuplicateReaches(t: Target, b: Backend, source: string, sourceMount: string, job: JobSpec) {
    var mount, o := GetMountPoint(b.path), BackupOptionsOf(job);
    && mount.Some? && mount.value != ""
    && var c := mount.value[1..];
       if source == b.pvc then
         && (Reaches(job, o.destPath, BACKUP_SOURCE, b.pvc) <==> StaysInside(b.path))
         && ('/' !in t.node ==> (Reaches(job, o.sourcePath, BACKUP_SOURCE, source) <==> IsProper(c) && t.node != ".."))
       else
         && (Reaches(job, o.destPath, BACKUP_DEST, b.pvc) <==> StaysInside(b.path) && mount.value != sourceMount)
         && (Reaches(job, o.sourcePath, BACKUP_SOURCE, source) <==> IsProper(c) && mount.value != sourceMount)
  }

  lemma OneClaimReaches(job: JobSpec, t: Target, b: Backend)
    requires GetMountPoint(b.path).Some? && IsAbsolute(GetMountPoint(b.path).value)
    requires BackupOptionsOf(job).sourcePath == JoinPath(GetMountPoint(b.path).value, t.node)
    requires BackupOptionsOf(job).destPath == b.path
    requires job.volumes == [Volume(BACKUP_SOURCE, b.pvc)]
    requires job.mounts == [Mount(BACKUP_SOURCE, GetMountPoint(b.path).value)]
    ensures forall sourceMount :: DuplicateReaches(t, b, b.pvc, sourceMount, job)
  {
    MountPoint(b.path);
    var m := job.mounts[0];
    OneMount(job, m, b.path, b.pvc);
    OneMount(job, m, BackupOptionsOf(job).sourcePath, b.pvc);
    assert m.path == "/" + m.path[1..];
    if '/' !in t.node { JoinUnderMount(m.path[1..], t.node); }
  }

  lemma TwoClaimsReach(job: JobSpec, t: Target, b: Backend, source: string, d: string)
    requires GetMountPoint(b.path).Some? && source != b.pvc && '/' !in d && IsProper(d)
    requires BackupOptionsOf(job).sourcePath == "/" + d && BackupOptionsOf(job).destPath == b.path
    requires job.volumes == [Volume(BACKUP_SOURCE, source), Volume(BACKUP_DEST, b.pvc)]
    requires job.mounts == [Mount(BACKUP_SOURCE, "/" + d), Mount(BACKUP_DEST, GetMountPoint(b.path).value)]
    ensures DuplicateReaches(t, b, source, "/" + d, job)
  {
    MountPoint(b.path);
    var mount := GetMountPoint(b.path).value;
    var c := mount[1..];
    assert mount == "/" + c && (c == d <==> "/" + c == "/" + d) by { assert ("/" + d)[1..] == d; }
    assert job.volumes[0] in job.volumes && job.volumes[1] in job.volumes;
    VolumeNamesDiffer();
    TwoMounts(job, BACKUP_DEST, c, b.pvc, BACKUP_SOURCE, d, source, b.path);
    InsideIsProper(b.path);
  }

  lemma VolumeNamesDiffer()
    ensures BACKUP_SOURCE != BACKUP_DEST && RESTORE_SOURCE != RESTORE_DEST
    ensures IsProper(BACKUP_SOURCE) && '/' !in BACKUP_SOURCE && BACKUP_SOURCE_PATH == "/" + BACKUP_SOURCE
    ensures IsProper(RESTORE_SOURCE) && '/' !in RESTORE_SOURCE && RESTORE_SOURCE_PATH == "/" + RESTORE_SOURCE
    ensures IsProper(RESTORE_DEST) && '/' !in RESTORE_DEST && RESTORE_DEST_PATH == "/" + RESTORE_DEST
  {
    assert |BACKUP_SOURCE| == 13 && |BACKUP_DEST| == 11 && |RESTORE_SOURCE| == 14 && |RESTORE_DEST| == 12;
  }

  /** A path that stays inside its mount point has one that names an entry. */
  lemma InsideIsProper(path: string)
    requires GetMountPoint(path).Some?
    ensures StaysInside(path) ==> IsProper(GetMountPoint(path).value[1..])
  {
    if StaysInside(path) {
      CleanLeadsThere(path);
      assert GetMountPoint(path).value[1..] == Resolved(path)[0];
    }
  }

  /***** Recover *****/

  /** The source is in the backend's claim if and only if the backend's path stays inside its mount point, and that
   *  is not the one of the destination; and the destination is in the node's claim if and only if both mounts can
   *  be made. */
  ghost predicate RecoverReaches(claim: string, b: Backend, destMount: string, job: JobSpec) {
    var mount, o := GetMountPoint(b.path), RestoreOptionsOf(job);
    && mount.Some? && mount.value != ""
    && (Reaches(job, o.sourcePath, RESTORE_SOURCE, b.pvc) <==> StaysInside(b.path) && mount.value != destMount)
    && (Reaches(job, o.destPath, RESTORE_DEST, claim) <==>
          IsProper(mount.value[1..]) && mount.value != destMount)
  }

  lemma RecoverClaimsReach(job: JobSpec, claim: string, b: Backend, d: string)
    requires GetMountPoint(b.path).Some? && '/' !in d && IsProper(d)
    requires RestoreOptionsOf(job).sourcePath == b.path && RestoreOptionsOf(job).destPath == "/" + d
    requires job.volumes == [Volume(RESTORE_SOURCE, b.pvc), Volume(RESTORE_DEST, claim)]
    requires job.mounts == [Mount(RESTORE_SOURCE, GetMountPoint(b.path).value), Mount(RESTORE_DEST, "/" + d)]
    ensures RecoverReaches(claim, b, "/" + d, job)
  {
    MountPoint(b.path);
    var mount := GetMountPoint(b.path).value;
    var c := mount[1..];
    assert mount == "/" + c && (c == d <==> "/" + c == "/" + d) by { assert ("/" + d)[1..] == d; }
    assert job.volumes[0] in job.volumes && job.volumes[1] in job.volumes;
    VolumeNamesDiffer();
    TwoMounts(job, RESTORE_SOURCE, c, b.pvc, RESTORE_DEST, d, claim, b.path);
    InsideIsProper(b.path);
  }

  /** The two fixed mounts of a Restore's Jobs. */
  lemma RestoreMountsReach(job: JobSpec, c: string, source: string, d: string, dest: string)
    requires '/' !in c && IsProper(c) && '/' !in d && IsProper(d) && c != d
    requires job.volumes == [Volume(RESTORE_SOURCE, source), Volume(RESTORE_DEST, dest)]
    requires job.mounts == [Mount(RESTORE_SOURCE, "/" + c), Mount(RESTORE_DEST, "/" + d)]
    ensures Reaches(job, "/" + c, RESTORE_SOURCE, source) && Reaches(job, "/" + d, RESTORE_DEST, dest)
  {
    assert job.volumes[0] in job.volumes && job.volumes[1] in job.volumes;
    VolumeNamesDiffer();
    MountResolved(c);
    TwoMounts(job, RESTORE_SOURCE, c, source, RESTORE_DEST, d, dest, "/" + c);
  }

  method JobForRecover(t: Target, backend: Option<Backend>, decompress: Option<Decompression>, deleteConsensusData: bool)
    returns (job: Option<JobSpec>)
    ensures job.Some? <==>
              && (t.deployMethod == "helm" || t.deployMethod == "python" || t.deployMethod == "cloud-config")
              && backend.Some? && '/' in backend.value.path
    ensures job.Some? ==>
              && job.value.command == "restore"
              && Understood(RestoreFlags(), job.value.args).error == None
              && var o := RestoreOptionsOf(job.value);
                 && o.target == t && o.sourcePath == backend.value.path && o.deleteConsensusData == deleteConsensusData
                 && o.decompress == decompress.Some?
                 && (decompress.Some? ==> o.md5 == decompress.value.md5 && o.input == decompress.value.file)
    ensures job.Some? ==>
              RecoverReaches(if t.deployMethod == "cloud-config" then "datadir-" + t.node + "-0" else "",
                             backend.value, RESTORE_DEST_PATH, job.value)
  {
    if backend.None? { return None; }
    var path := backend.value.path;
    var mountPoint := GetMountPoint(path);
    MountPoint(path);
    if mountPoint.None? { return None; }
    var pvcDestName := "";
    if t.deployMethod == "cloud-config" {
      pvcDestName := DataClaim(t.node);
    }
    var volumes := [Volume(RESTORE_SOURCE, backend.value.pvc), Volume(RESTORE_DEST, pvcDestName)];
    if !KnownDeployMethod(t.deployMethod) { return None; }
    var mounts := [Mount(RESTORE_SOURCE, mountPoint.value), Mount(RESTORE_DEST, RESTORE_DEST_PATH)];
    var j := JobSpec(volumes, mounts, "restore",
                     Print(RecoverSettings(t, path, RESTORE_DEST_PATH, decompress, deleteConsensusData)));
    RecoverRoundTrip(t, path, RESTORE_DEST_PATH, decompress, deleteConsensusData);
    VolumeNamesDiffer();
    RecoverClaimsReach(j, pvcDestName, backend.value, RESTORE_DEST);
    job := Some(j);
  }

  /***** Restore *****/

  datatype Container = Container(name: string, image: string)

  /** The first of the words that the text contains. */
  function FirstIn(words: seq<string>, text: string): Option<string> {
    if words == [] then None
    else if Contains(text, words[0]) then Some(words[0])
    else FirstIn(words[1..], text)
  }

  lemma FirstOfThree(a: string, b: string, c: string, text: string)
    ensures FirstIn([a, b], text) ==
            if Contains(text, a) then Some(a) else if Contains(text, b) then Some(b) else None
    ensures FirstIn([a, b, c], text) ==
            if Contains(text, a) then Some(a) else if Contains(text, b) then Some(b)
            else if Contains(text, c) then Some(c) else None
  {
    assert [a, b][1..] == [b] && [b][1..] == [] && [a, b, c][1..] == [b, c] && [b, c][1..] == [c] && [c][1..] == [];
    assert FirstIn([b], text) == if Contains(text, b) then Some(b) else FirstIn([], text);
    assert FirstIn([c], text) == if Contains(text, c) then Some(c) else FirstIn([], text);
    assert FirstIn([b, c], text) == if Contains(text, b) then Some(b) else FirstIn([c], text);
  }

  /** What a container of one of those names says by its image. */
  function Said(c: Container, names: set<string>, words: seq<string>): Option<string> {
    if c.name in names then FirstIn(words, c.image) else None
  }

  /** found is what the last container says that says anything, "" if none does. */
  ghost predicate LastSaid(cs: seq<Container>, names: set<string>, words: seq<string>, found: string) {
    || (found == "" && forall i :: 0 <= i < |cs| ==> Said(cs[i], names, words) == None)
    || (exists i :: 0 <= i < |cs| && Said(cs[i], names, words) == Some(found) &&
                    forall j :: i < j < |cs| ==> Said(cs[j], names, words) == None)
  }

  ghost predicate IsSlice(word: string, text: string) {
    exists a, b :: 0 <= a <= b <= |text| && text[a..b] == word
  }

  lemma {:induction false} FirstInOnSlices(words: seq<string>, text: string)
    ensures FirstIn(words, text) == None <==> forall w :: 0 <= w < |words| ==> !IsSlice(words[w], text)
    ensures FirstIn(words, text).Some? ==>
              exists w :: && 0 <= w < |words| && words[w] == FirstIn(words, text).value && IsSlice(words[w], text)
                          && forall v :: 0 <= v < w ==> !IsSlice(words[v], text)
  {
    if words != [] {
      ContainsOnSlices(text, words[0]);
      var rest := words[1..];
      FirstInOnSlices(rest, text);
      assert forall w :: 0 <= w < |rest| ==> rest[w] == words[w + 1];
      if Contains(text, words[0]) {
        assert words[0] == FirstIn(words, text).value && IsSlice(words[0], text);
      } else if FirstIn(rest, text).Some? {
        var w :| && 0 <= w < |rest| && rest[w] == FirstIn(rest, text).value && IsSlice(rest[w], text)
                 && forall v :: 0 <= v < w ==> !IsSlice(rest[v], text);
        assert words[w + 1] == FirstIn(words, text).value && IsSlice(words[w + 1], text);
        assert forall v :: 0 <= v < w + 1 ==> !IsSlice(words[v], text);
      } else {
        assert forall w :: 0 <= w < |words| ==> w == 0 || words[w] == rest[w - 1];
      }
    }
  }

  /** What has been said is a word that is a slice of the image of a container of those names; no word before it is one;
   *  and no later container of those names has any of the words in its image. Nothing has been said if no image has. */
  lemma LastSaidOnSlices(cs: seq<Container>, names: set<string>, words: seq<string>, found: string)
    requires LastSaid(cs, names, words, found) && "" !in words
    ensures found == "" <==>
              forall i, w :: 0 <= i < |cs| && cs[i].name in names && 0 <= w < |words| ==> !IsSlice(words[w], cs[i].image)
    ensures found != "" ==>
              exists i, w :: && 0 <= i < |cs| && cs[i].name in names && 0 <= w < |words|
                             && words[w] == found && IsSlice(words[w], cs[i].image)
                             && (forall v :: 0 <= v < w ==> !IsSlice(words[v], cs[i].image))
                             && (forall j, v :: i < j < |cs| && cs[j].name in names && 0 <= v < |words| ==>
                                   !IsSlice(words[v], cs[j].image))
  {
    forall i | 0 <= i < |cs|
      ensures Said(cs[i], names, words) == None <==>
              cs[i].name in names ==> forall w :: 0 <= w < |words| ==> !IsSlice(words[w], cs[i].image)
    {
      FirstInOnSlices(words, cs[i].image);
    }
    if !(found == "" && forall i :: 0 <= i < |cs| ==> Said(cs[i], names, words) == None) {
      var i :| 0 <= i < |cs| && Said(cs[i], names, words) == Some(found) &&
               forall j :: i < j < |cs| ==> Said(cs[j], names, words) == None;
      FirstInOnSlices(words, cs[i].image);
      var w :| && 0 <= w < |words| && words[w] == found && IsSlice(words[w], cs[i].image)
               && forall v :: 0 <= v < w ==> !IsSlice(words[v], cs[i].image);
    }
  }

  lemma LastSaidNext(cs: seq<Container>, i: nat, names: set<string>, words: seq<string>, found: string, found': string)
    requires i < |cs| && LastSaid(cs[..i], names, words, found)
    requires found' == if Said(cs[i], names, words).Some? then Said(cs[i], names, words).value else found
    ensures LastSaid(cs[..i + 1], names, words, found')
  {
    var before, after := cs[..i], cs[..i + 1];
    assert forall k :: 0 <= k < i ==> after[k] == before[k];
    assert after[i] == cs[i];
    if Said(cs[i], names, words).None? &&
       !(found == "" && forall k :: 0 <= k < i ==> Said(before[k], names, words) == None) {
      var k :| 0 <= k < i && Said(before[k], names, words) == Some(found) &&
               forall j :: k < j < i ==> Said(before[j], names, words) == None;
      assert Said(after[k], names, words) == Some(found);
      assert forall j :: k < j < |after| ==> Said(after[j], names, words) == None;
    }
  }

  /** The images of the node's containers tell crypto and consensus; later containers win over earlier ones, and in one
   *  image sm over eth, and bft over raft over overlord. */
  method FilterCryptoAndConsensus(containers: seq<Container>) returns (crypto: string, consensus: string)
    ensures LastSaid(containers, {"crypto", "kms"}, ["sm", "eth"], crypto)
    ensures LastSaid(containers, {"consensus"}, ["bft", "raft", "overlord"], consensus)
  {
    crypto, consensus := "", "";
    for i := 0 to |containers|
      invariant LastSaid(containers[..i], {"crypto", "kms"}, ["sm", "eth"], crypto)
      invariant LastSaid(containers[..i], {"consensus"}, ["bft", "raft", "overlord"], consensus)
    {
      ghost var crypto0, consensus0 := crypto, consensus;
      var container := containers[i];
      if container.name == "crypto" || container.name == "kms" {
        if Contains(container.image, "sm") {
          crypto := "sm";
        } else if Contains(container.image, "eth") {
          crypto := "eth";
        }
      } else if container.name == "consensus" {
        if Contains(container.image, "bft") {
          consensus := "bft";
        } else if Contains(container.image, "raft") {
          consensus := "raft";
        } else if Contains(container.image, "overlord") {
          consensus := "overlord";
        }
      }
      NamesDiffer();
      FirstOfThree("sm", "eth", "", container.image);
      FirstOfThree("bft", "raft", "overlord", container.image);
      LastSaidNext(containers, i, {"crypto", "kms"}, ["sm", "eth"], crypto0, crypto);
      LastSaidNext(containers, i, {"consensus"}, ["bft", "raft", "overlord"], consensus0, consensus);
    }
    assert containers[..|containers|] == containers;
  }

  lemma NamesDiffer()
    ensures "consensus" != "crypto" && "consensus" != "kms"
  {
    assert |"consensus"| == 9 && |"crypto"| == 6 && |"kms"| == 3;
  }

  datatype SnapshotResource = SnapshotResource(name: string, blockHeight: int)

  datatype RestoreSpec = RestoreSpec(target: Target, backup: string, snapshot: string, deleteConsensusData: bool)

  function HeightOptionsOf(job: JobSpec): HeightOptions {
    HeightOf(Understood(SnapshotRecoverFlags(), job.args).values)
  }

  /** The reconciler of all Restores; one field is shared by all of them. */
  class RestoreReconciler {
    var snapshot: Option<SnapshotResource>

    constructor ()
      ensures snapshot == None
    {
      snapshot := None;
    }

    method JobForRestore(spec: RestoreSpec) returns (job: Option<JobSpec>)
      ensures job.Some? <==> spec.target.deployMethod in {"helm", "python", "cloud-config"}
      ensures job.Some? ==>
                && job.value.command == "restore" && Understood(RestoreFlags(), job.value.args).error == None
                && var o := RestoreOptionsOf(job.value);
                   && o.target == spec.target && o.deleteConsensusData == spec.deleteConsensusData
                   && Reaches(job.value, o.sourcePath, RESTORE_SOURCE, spec.backup)
                   && Reaches(job.value, o.destPath, RESTORE_DEST,
                              if spec.target.deployMethod == "cloud-config" then "datadir-" + spec.target.node + "-0"
                              else "")
    {
      var t := spec.target;
      if !KnownDeployMethod(t.deployMethod) { return None; }
      var claim := "";
      if t.deployMethod == "cloud-config" {
        claim := DataClaim(t.node);
      }
      var j := JobSpec([Volume(RESTORE_SOURCE, spec.backup), Volume(RESTORE_DEST, claim)],
                       [Mount(RESTORE_SOURCE, RESTORE_SOURCE_PATH), Mount(RESTORE_DEST, RESTORE_DEST_PATH)],
                       "restore", Print(RestoreFileSettings(t, spec.deleteConsensusData)));
      RestoreFileRoundTrip(t, spec.deleteConsensusData);
      VolumeNamesDiffer();
      RestoreMountsReach(j, RESTORE_SOURCE, spec.backup, RESTORE_DEST, claim);
      job := Some(j);
    }

    /** The arguments use the shared field. */
    method BuildArgsForSnapshot(spec: RestoreSpec, crypto: string, consensus: string) returns (args: seq<string>)
      requires snapshot.Some? && IsInt64(snapshot.value.blockHeight)
      ensures var p := Understood(SnapshotRecoverFlags(), args);
              && p.error == None
              && HeightOf(p.values) ==
                   HeightOptions(spec.target, snapshot.value.blockHeight, if crypto == "" then "sm" else crypto,
                                 consensus, spec.deleteConsensusData)
    {
      var o := HeightOptions(spec.target, snapshot.value.blockHeight, crypto, consensus, spec.deleteConsensusData);
      args := Print(HeightSettings(o));
      SnapshotRecoverRoundTrip(o);
    }

    /** The Job, once crypto, consensus and claim are known. */
    method SnapshotRecoverJob(spec: RestoreSpec, crypto: string, consensus: string, claim: string) returns (job: JobSpec)
      requires snapshot.Some? && IsInt64(snapshot.value.blockHeight)
      ensures job.command == "snapshot-recover" && Understood(SnapshotRecoverFlags(), job.args).error == None
      ensures HeightOptionsOf(job) ==
              HeightOptions(spec.target, snapshot.value.blockHeight, if crypto == "" then "sm" else crypto,
                            consensus, spec.deleteConsensusData)
      ensures Reaches(job, RESTORE_SOURCE_PATH, RESTORE_SOURCE, spec.snapshot)
      ensures Reaches(job, RESTORE_DEST_PATH, RESTORE_DEST, claim)
    {
      var args := BuildArgsForSnapshot(spec, crypto, consensus);
      job := JobSpec([Volume(RESTORE_SOURCE, spec.snapshot), Volume(RESTORE_DEST, claim)],
                     [Mount(RESTORE_SOURCE, RESTORE_SOURCE_PATH), Mount(RESTORE_DEST, RESTORE_DEST_PATH)],
                     "snapshot-recover", args);
      VolumeNamesDiffer();
      RestoreMountsReach(job, RESTORE_SOURCE, spec.snapshot, RESTORE_DEST, claim);
    }

    /** Of a cloud-config node, the StatefulSet tells crypto and consensus; the command takes sm for an empty crypto. */
    method JobForSnapshotRecover(spec: RestoreSpec, sts: Option<seq<Container>>) returns (job: Option<JobSpec>)
      requires snapshot.Some? && IsInt64(snapshot.value.blockHeight)
      ensures job.Some? <==>
                && spec.target.deployMethod in {"helm", "python", "cloud-config"}
                && (spec.target.deployMethod == "cloud-config" ==> sts.Some?)
      ensures job.Some? ==>
                && job.value.command == "snapshot-recover"
                && Understood(SnapshotRecoverFlags(), job.value.args).error == None
                && var o := HeightOptionsOf(job.value);
                   && o.target == spec.target && o.deleteConsensusData == spec.deleteConsensusData
                   && o.blockHeight == snapshot.value.blockHeight
                   && (if spec.target.deployMethod == "cloud-config" then
                         && LastSaid(sts.value, {"consensus"}, ["bft", "raft", "overlord"], o.consensus)
                         && (|| LastSaid(sts.value, {"crypto", "kms"}, ["sm", "eth"], o.crypto)
                             || (LastSaid(sts.value, {"crypto", "kms"}, ["sm", "eth"], "") && o.crypto == "sm"))
                       else o.consensus == "" && o.crypto == "sm")
                   && Reaches(job.value, RESTORE_SOURCE_PATH, RESTORE_SOURCE, spec.snapshot)
                   && Reaches(job.value, RESTORE_DEST_PATH, RESTORE_DEST,
                              if spec.target.deployMethod == "cloud-config" then "datadir-" + spec.target.node + "-0"
                              else "")
    {
      var t := spec.target;
      var crypto, consensus, claim := "", "", "";
      if t.deployMethod == "cloud-config" {
        if sts.None? { return None; }
        crypto, consensus := FilterCryptoAndConsensus(sts.value);
        claim := DataClaim(t.node);
      }
      if !KnownDeployMethod(t.deployMethod) { return None; }
      var j := SnapshotRecoverJob(spec, crypto, consensus, claim);
      job := Some(j);
    }

    /** When the Job is missing: for a Restore that names both a backup and a snapshot, that of the snapshot. */
    method MakeJob(spec: RestoreSpec, sts: Option<seq<Container>>) returns (job: Option<JobSpec>)
      requires spec.snapshot != "" ==> snapshot.Some? && IsInt64(snapshot.value.blockHeight)
      ensures job.Some? && spec.snapshot != "" ==>
                && job.value.command == "snapshot-recover"
                && HeightOptionsOf(job.value).blockHeight == snapshot.value.blockHeight
                && HeightOptionsOf(job.value).target == spec.target
                && Reaches(job.value, RESTORE_SOURCE_PATH, RESTORE_SOURCE, spec.snapshot)
                && Reaches(job.value, RESTORE_DEST_PATH, RESTORE_DEST,
                           if spec.target.deployMethod == "cloud-config" then "datadir-" + spec.target.node + "-0"
                           else "")
      ensures job.Some? && spec.snapshot == "" ==>
                && spec.backup != "" && job.value.command == "restore"
                && RestoreOptionsOf(job.value).target == spec.target
                && Reaches(job.value, RestoreOptionsOf(job.value).destPath, RESTORE_DEST,
                           if spec.target.deployMethod == "cloud-config" then "datadir-" + spec.target.node + "-0"
                           else "")
      ensures job.Some? <==>
                && (spec.backup != "" || spec.snapshot != "")
                && spec.target.deployMethod in {"helm", "python", "cloud-config"}
                && (spec.snapshot != "" && spec.target.deployMethod == "cloud-config" ==> sts.Some?)
    {
      job := None;
      if spec.backup != "" {
        job := JobForRestore(spec);
        if job.None? { return None; }
      }
      if spec.snapshot != "" {
        job := JobForSnapshotRecover(spec, sts);
        if job.None? { return None; }
      }
    }

    /** The part of a reconcile that leads to a Job. Whatever earlier reconciles of other Restores left in the
     *  field, the field is set whenever it is used, and the height in a snapshot-recover Job is the one of the
     *  Snapshot that this very call read under the name in this Restore's spec. A Restore that names both a
     *  backup and a snapshot gets the snapshot's Job. */
    method Reconcile(spec: RestoreSpec, backupFound: bool, snapshots: map<string, SnapshotResource>,
                     sts: Option<seq<Container>>, goesOn: bool)
      returns (job: Option<JobSpec>)
      requires forall n <- snapshots :: snapshots[n].name == n && IsInt64(snapshots[n].blockHeight)
      modifies this
      ensures job.Some? && spec.snapshot != "" ==>
                && spec.snapshot in snapshots && job.value.command == "snapshot-recover"
                && HeightOptionsOf(job.value).blockHeight == snapshots[spec.snapshot].blockHeight
                && HeightOptionsOf(job.value).target == spec.target
                && Reaches(job.value, RESTORE_SOURCE_PATH, RESTORE_SOURCE, spec.snapshot)
                && Reaches(job.value, RESTORE_DEST_PATH, RESTORE_DEST,
                           if spec.target.deployMethod == "cloud-config" then "datadir-" + spec.target.node + "-0"
                           else "")
      ensures job.Some? && spec.snapshot == "" ==>
                && spec.backup != "" && job.value.command == "restore"
                && RestoreOptionsOf(job.value).target == spec.target
                && Reaches(job.value, RestoreOptionsOf(job.value).destPath, RESTORE_DEST,
                           if spec.target.deployMethod == "cloud-config" then "datadir-" + spec.target.node + "-0"
                           else "")
      ensures job.Some? <==>
                && (spec.backup != "" || spec.snapshot != "")
                && (spec.backup != "" ==> backupFound) && (spec.snapshot != "" ==> spec.snapshot in snapshots)
                && goesOn && spec.target.deployMethod in {"helm", "python", "cloud-config"}
                && (spec.snapshot != "" && spec.target.deployMethod == "cloud-config" ==> sts.Some?)
      ensures snapshot == if spec.snapshot != "" && spec.snapshot in snapshots && (spec.backup != "" ==> backupFound)
                          then Some(snapshots[spec.snapshot]) else old(snapshot)
    {
      if spec.backup != "" {
        if !backupFound { return None; }
      }
      if spec.snapshot != "" {
        if spec.snapshot !in snapshots { return None; }
        snapshot := Some(snapshots[spec.snapshot]);
      }
      if !goesOn { return None; }  // defaults were missing, the role binding failed, or there is a Job
      job := MakeJob(spec, sts);
    }
  }
}
