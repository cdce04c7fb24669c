/** Backup and restore of a node's data: pkg/node/behavior, over volumes as maps from paths to entries.
 *  What cp, rm, tar and gzip do is taken as map operations; sizes and digests are left uninterpreted.
 */
module Behavior {
  import opened Wrappers
  import opened Decimal
  import opened Paths

  type Path = seq<string>

  datatype Entry = Dir | File(content: Content)

  /** A file is an archive made of items, or anything else. */
  datatype Content = Plain(bytes: string) | Packed(items: seq<Item>)

  datatype Item = Item(path: Path, entry: Entry)

  type Tree = map<Path, Entry>

  const DATA := "data"
  const CHAIN_DATA := "chain_data"
  const RAFT_CONSENSUS_DIR := "raft-data-dir"
  const OVERLORD_CONSENSUS_DIR := "overlord_wal"
  const MACOSX := "__MACOSX"

  function Parent(p: Path): Path
    requires p != []
  {
    p[..|p| - 1]
  }

  predicate IsDir(t: Tree, p: Path) {
    p == [] || (p in t && t[p].Dir?)
  }

  predicate Sits(t: Tree, p: Path) {
    p != [] && IsDir(t, Parent(p))
  }

  /** Every entry sits in a directory; the root is the volume itself. */
  predicate WellFormed(t: Tree) {
    forall p {:trigger Sits(t, p)} | p in t :: Sits(t, p)
  }

  /** What is backed up, and what is not. */
  predicate Selected(p: Path) {
    p != [] && (p[0] == DATA || p[0] == CHAIN_DATA)
  }

  function Selection(t: Tree): Tree {
    map p | p in t && Selected(p) :: t[p]
  }

  function Rest(t: Tree): Tree {
    map p | p in t && !Selected(p) :: t[p]
  }

  predicate Unselected(t: Tree) {
    forall p <- t :: !Selected(p)
  }

  function Without(t: Tree, name: string): Tree {
    map p | p in t && !(p != [] && p[0] == name) :: t[p]
  }

  /***** cp *****/

  /** Both directories are there, and nothing would replace a directory by a file or a file by one. */
  predicate CanCopy(s: Tree, d: Tree) {
    && [DATA] in s && [CHAIN_DATA] in s
    && (forall p <- s :: Selected(p) && p in d ==> (s[p].Dir? <==> d[p].Dir?))
  }

  /***** Archives *****/

  /** Names the extraction passes over: some component contains the marker of resource forks. */
  predicate Skipped(p: Path) {
    exists i :: 0 <= i < |p| && Contains(p[i], MACOSX)
  }

  lemma SkippedOnSlices(p: Path)
    ensures Skipped(p) <==>
            exists i, j, k :: 0 <= i < |p| && 0 <= j && k == j + 8 <= |p[i]| && p[i][j..k] == "__MACOSX"
  {
    assert |MACOSX| == 8;
    if Skipped(p) {
      var i :| 0 <= i < |p| && Contains(p[i], MACOSX);
      ContainsOnSlices(p[i], MACOSX);
      var j, k :| 0 <= j <= k <= |p[i]| && p[i][j..k] == MACOSX;
      assert 0 <= i < |p| && 0 <= j && k == j + 8 <= |p[i]| && p[i][j..k] == "__MACOSX";
    }
    if i, j, k :| 0 <= i < |p| && 0 <= j && k == j + 8 <= |p[i]| && p[i][j..k] == "__MACOSX" {
      ContainsOnSlices(p[i], MACOSX);
      assert 0 <= j <= k <= |p[i]| && p[i][j..k] == MACOSX;
    }
  }

  /** Among the first k items. */
  predicate Listed(items: seq<Item>, k: nat, p: Path)
    requires k <= |items|
  {
    exists i :: 0 <= i < k && items[i].path == p
  }

  predicate ParentListed(items: seq<Item>, i: nat)
    requires i < |items|
  {
    |items[i].path| > 1 ==> Listed(items, i, Parent(items[i].path))
  }

  /** The selected entries of t, each directory before what is in it. */
  predicate IsListing(items: seq<Item>, t: Tree) {
    && [DATA] in t && [CHAIN_DATA] in t
    && (forall i :: 0 <= i < |items| ==>
          items[i].path in t && Selected(items[i].path) && items[i].entry == t[items[i].path])
    && (forall p <- t :: Selected(p) ==> Listed(items, |items|, p))
    && (forall i {:trigger ParentListed(items, i)} :: 0 <= i < |items| ==> ParentListed(items, i))
  }

  /** os.MkdirAll. */
  function MakeDirs(t: Tree, p: Path): Option<Tree> {
    if p == [] then Some(t)
    else
      match MakeDirs(t, Parent(p))
      case None => None
      case Some(u) => if p in u then (if u[p].Dir? then Some(u) else None) else Some(u[p := Dir])
  }

  /** It fails exactly if a file is in the way, and adds exactly the directories that are missing. */
  lemma {:induction false} MakeDirsExactly(t: Tree, p: Path)
    ensures MakeDirs(t, p).Some? <==> forall k :: 0 < k <= |p| && p[..k] in t ==> t[p[..k]].Dir?
    ensures MakeDirs(t, p).Some? ==>
              var u := MakeDirs(t, p).value;
              && (forall q :: q in u <==> q in t || exists k :: 0 < k <= |p| && p[..k] == q)
              && (forall q <- u :: u[q] == if q in t then t[q] else Dir)
  {
    if p != [] {
      var above := Parent(p);
      MakeDirsExactly(t, above);
      assert forall k :: 0 <= k <= |above| ==> p[..k] == above[..k];
      assert p[..|p|] == p;
    }
  }

  /** os.Create, then writing. */
  function CreateFile(t: Tree, p: Path, c: Content): Option<Tree> {
    if p == [] || !IsDir(t, Parent(p)) || (p in t && t[p].Dir?) then None else Some(t[p := File(c)])
  }

  function ExtractItem(t: Tree, item: Item): Option<Tree> {
    if Skipped(item.path) then Some(t)
    else if item.entry.Dir? then MakeDirs(t, item.path)
    else CreateFile(t, item.path, item.entry.content)
  }

  function Extract(t: Tree, items: seq<Item>): Option<Tree> {
    if items == [] then Some(t)
    else
      match Extract(t, items[..|items| - 1])
      case None => None
      case Some(u) => ExtractItem(u, items[|items| - 1])
  }

  /** What survives the passage through an archive. */
  function Kept(t: Tree): Tree {
    map p | p in t && !Skipped(p) :: t[p]
  }

  lemma SkippedBelow(p: Path)
    requires p != [] && Skipped(Parent(p))
    ensures Skipped(p)
  {
    var i :| 0 <= i < |Parent(p)| && Contains(Parent(p)[i], MACOSX);
    assert p[i] == Parent(p)[i];
  }

  /** What the first k items of a listing of s bring. */
  function Part(s: Tree, items: seq<Item>, k: nat): Tree
    requires k <= |items|
  {
    map p | p in s && !Skipped(p) && Listed(items, k, p) :: s[p]
  }

  /** The part is a tree of its own, because directories come first and skipping covers what is below. */
  lemma PartWellFormed(s: Tree, items: seq<Item>, k: nat)
    requires WellFormed(s) && IsListing(items, s) && k <= |items|
    ensures WellFormed(Part(s, items, k))
  {
    forall p | p in Part(s, items, k) ensures Sits(Part(s, items, k), p) {
      assert Sits(s, p);
      if |p| > 1 {
        var i :| 0 <= i < k && items[i].path == p;
        assert ParentListed(items, i);
        if Skipped(Parent(p)) { SkippedBelow(p); }
      }
    }
  }

  lemma {:induction false} MakeDirsThere(t: Tree, u: Tree, p: Path)
    requires WellFormed(u) && IsDir(u, p) && forall q <- u :: q in t && t[q] == u[q]
    ensures MakeDirs(t, p) == Some(t)
    decreases |p|
  {
    if p != [] {
      assert Sits(u, p);
      MakeDirsThere(t, u, Parent(p));
    }
  }

  lemma PartNext(s: Tree, items: seq<Item>, k: nat)
    requires k < |items| && items[k].path in s
    ensures var p := items[k].path;
            Part(s, items, k + 1) == if Skipped(p) then Part(s, items, k) else Part(s, items, k)[p := s[p]]
  {
    forall q ensures Listed(items, k + 1, q) <==> q == items[k].path || Listed(items, k, q) {
      if Listed(items, k, q) {
        var i :| 0 <= i < k && items[i].path == q;
        assert 0 <= i < k + 1;
      }
    }
  }

  /** Where the directory of an item is, when the item's turn comes. */
  lemma ParentIsThere(s: Tree, items: seq<Item>, k: nat)
    requires WellFormed(s) && IsListing(items, s) && k < |items| && !Skipped(items[k].path)
    ensures IsDir(Part(s, items, k), Parent(items[k].path))
  {
    var p := items[k].path;
    if |p| > 1 {
      if Skipped(Parent(p)) { SkippedBelow(p); }
      assert Sits(s, p) && ParentListed(items, k);
    }
  }

  /** Putting an entry where its directory already is. */
  lemma LayEntry(base: Tree, part: Tree, p: Path, e: Entry)
    requires p != [] && p !in base && WellFormed(part) && IsDir(part, Parent(p)) && (p in part ==> part[p] == e)
    ensures (if e.Dir? then MakeDirs(base + part, p) else CreateFile(base + part, p, e.content)) ==
            Some(base + part[p := e])
  {
    var t := base + part;
    assert base + part[p := e] == t[p := e];
    assert IsDir(t, Parent(p));
    if e.Dir? {
      MakeDirsThere(t, part, Parent(p));
      assert p in t ==> t[p := e] == t;
    }
  }

  /** One more item. */
  lemma ExtractNext(base: Tree, s: Tree, items: seq<Item>, k: nat)
    requires WellFormed(s) && IsListing(items, s) && Unselected(base) && k < |items|
    ensures ExtractItem(base + Part(s, items, k), items[k]) == Some(base + Part(s, items, k + 1))
  {
    PartNext(s, items, k);
    var p := items[k].path;
    if !Skipped(p) {
      ParentIsThere(s, items, k);
      PartWellFormed(s, items, k);
      LayEntry(base, Part(s, items, k), p, s[p]);
    }
  }

  /** Extracting a listing, in whatever order it was made, lays what is kept over what was there. */
  lemma {:induction false} ExtractListing(base: Tree, s: Tree, items: seq<Item>, k: nat)
    requires WellFormed(s) && IsListing(items, s) && Unselected(base) && k <= |items|
    ensures Extract(base, items[..k]) == Some(base + Part(s, items, k))
  {
    if k > 0 {
      ExtractListing(base, s, items, k - 1);
      assert items[..k][..k - 1] == items[..k - 1];
      ExtractNext(base, s, items, k - 1);
    } else {
      assert base + Part(s, items, 0) == base;
    }
  }

  /***** Round trips *****/

  /** Restoring a plain backup: everything else at the destination stays as it was, and the data is exactly
   *  the source's if and only if the vault held nothing beforehand that the source does not have. */
  lemma PlainRoundTrip(source: Tree, vault: Tree, dest: Tree)
    ensures var restored := Rest(dest) + Selection(vault + Selection(source));
            && Rest(restored) == Rest(dest)
            && (Selection(restored) == Selection(source) <==> Selection(vault).Keys <= Selection(source).Keys)
  {
    var restored := Rest(dest) + Selection(vault + Selection(source));
    assert Selection(restored) == Selection(vault) + Selection(source);
    assert Rest(restored) == Rest(dest);
    if Selection(vault).Keys <= Selection(source).Keys {
      assert Selection(vault) + Selection(source) == Selection(source);
    } else {
      var p :| p in Selection(vault) && p !in Selection(source);
      assert p in Selection(restored);
    }
  }

  lemma LaidOver(dest: Tree, data: Tree)
    requires forall p <- data :: Selected(p)
    ensures Rest(Rest(dest) + data) == Rest(dest)
    ensures Selection(Rest(dest) + data) == data
  {
  }

  /** Restoring an archive: everything else stays as it was, and the data is what the source has under names
   *  the extraction does not pass over. */
  lemma ArchiveRoundTrip(source: Tree, items: seq<Item>, dest: Tree)
    requires WellFormed(source) && IsListing(items, source)
    ensures Extract(Rest(dest), items) == Some(Rest(dest) + Kept(Selection(source)))
    ensures Rest(Rest(dest) + Kept(Selection(source))) == Rest(dest)
    ensures Selection(Rest(dest) + Kept(Selection(source))) == Kept(Selection(source))
  {
    LaidOver(dest, Kept(Selection(source)));
    ExtractListing(Rest(dest), source, items, |items|);
    assert items[..|items|] == items;
    PartIsKept(source, items);
  }

  lemma KeptIsAll(source: Tree)
    ensures Kept(Selection(source)) == Selection(source) <==>
            forall p, i, j, k ::
              && p in source && p != [] && (p[0] == "data" || p[0] == "chain_data")
              && 0 <= i < |p| && 0 <= j && k == j + 8 <= |p[i]|
              ==> p[i][j..k] != "__MACOSX"
  {
    var data := Selection(source);
    if Kept(data) == data {
      forall p, i, j, k | && p in source && p != [] && (p[0] == "data" || p[0] == "chain_data")
                          && 0 <= i < |p| && 0 <= j && k == j + 8 <= |p[i]|
        ensures p[i][j..k] != "__MACOSX"
      {
        assert p in data && p in Kept(data);
        SkippedOnSlices(p);
      }
    } else {
      var p :| p in data && p !in Kept(data);
      SkippedOnSlices(p);
    }
  }

  /** The two modes agree, whatever the order of the archive, whatever else is in the vault and at the destination:
   *  extracting the archive gives what copying back the plain backup gives, if and only if no selected name is
   *  passed over, that is, if "__MACOSX" is no slice of any part of it. */
  lemma ModesAgreeExactly(source: Tree, items: seq<Item>, vault: Tree, dest: Tree)
    requires WellFormed(source) && IsListing(items, source) && Unselected(vault)
    ensures Extract(Rest(dest), items) == Some(Rest(dest) + Selection(vault + Selection(source))) <==>
            forall p, i, j, k ::
              && p in source && p != [] && (p[0] == "data" || p[0] == "chain_data")
              && 0 <= i < |p| && 0 <= j && k == j + 8 <= |p[i]|
              ==> p[i][j..k] != "__MACOSX"
  {
    var data, kept := Selection(source), Kept(Selection(source));
    ArchiveRoundTrip(source, items, dest);
    assert Selection(vault + data) == data;
    LaidOver(dest, data);
    LaidOver(dest, kept);
    KeptIsAll(source);
  }

  lemma PartIsKept(source: Tree, items: seq<Item>)
    requires IsListing(items, source)
    ensures Part(source, items, |items|) == Kept(Selection(source))
  {
  }

  /** Of the two consensus directories, only one goes at a time: that of overlord is left behind exactly
   *  when that of raft was there. */
  function WithoutConsensus(t: Tree): Tree {
    if [RAFT_CONSENSUS_DIR] in t then Without(t, RAFT_CONSENSUS_DIR)
    else if [OVERLORD_CONSENSUS_DIR] in t then Without(t, OVERLORD_CONSENSUS_DIR)
    else t
  }

  /** With everything below it. */
  lemma OverlordSurvives(t: Tree)
    ensures forall p :: p in WithoutConsensus(t) <==>
              && p in t
              && (p != [] ==>
                    && !(p[0] == "raft-data-dir" && ["raft-data-dir"] in t)
                    && !(p[0] == "overlord_wal" && ["overlord_wal"] in t && ["raft-data-dir"] !in t))
    ensures forall p <- WithoutConsensus(t) :: WithoutConsensus(t)[p] == t[p]
    ensures ["overlord_wal"] in WithoutConsensus(t) <==> ["raft-data-dir"] in t && ["overlord_wal"] in t
    ensures Selection(WithoutConsensus(t)) == Selection(t)
  {
    assert OVERLORD_CONSENSUS_DIR[0] != RAFT_CONSENSUS_DIR[0];
    assert DATA[0] == 'd' && CHAIN_DATA[0] == 'c' && OVERLORD_CONSENSUS_DIR[0] == 'o' && RAFT_CONSENSUS_DIR[0] == 'r';
  }

  /** Of what a restore finds at its destination, exactly this stays. */
  lemma BaseExactly(dest: Tree, deleteConsensusData: bool)
    ensures forall p :: p in Base(dest, deleteConsensusData) <==>
              && p in dest
              && (p != [] ==>
                    && p[0] != "data" && p[0] != "chain_data"
                    && (deleteConsensusData ==>
                          && !(p[0] == "raft-data-dir" && ["raft-data-dir"] in dest)
                          && !(p[0] == "overlord_wal" && ["overlord_wal"] in dest && ["raft-data-dir"] !in dest)))
    ensures forall p <- Base(dest, deleteConsensusData) :: Base(dest, deleteConsensusData)[p] == dest[p]
  {
    assert DATA[0] == 'd' && CHAIN_DATA[0] == 'c' && OVERLORD_CONSENSUS_DIR[0] == 'o' && RAFT_CONSENSUS_DIR[0] == 'r';
    OverlordSurvives(Rest(dest));
  }

  /***** The code *****/

  class Volume {
    var tree: Tree

    constructor (tree: Tree)
      ensures this.tree == tree
    {
      this.tree := tree;
    }

    /** A command that failed on the way: entries of the directories it works on may be in any state. */
    method HalfDone(touched: set<string>)
      modifies this
      ensures forall p :: !(p != [] && p[0] in touched) ==>
                (p in tree <==> p in old(tree)) && (p in tree ==> tree[p] == old(tree)[p])
    {
      var t: Tree := *;
      tree := map p | p in tree.Keys + t.Keys &&
                      (if p != [] && p[0] in touched then p in t else p in tree)
                  :: if p != [] && p[0] in touched then t[p] else tree[p];
    }
  }

  datatype CompressOptions = CompressOptions(enable: bool, output: Path)

  datatype DecompressOptions = DecompressOptions(enable: bool, input: Path, md5: string)

  /** What a backup reports of itself. */
  datatype Measured = Measured(size: int, md5: string)

  /** A shortest path of a set. */
  lemma {:induction false} Shortest(ps: set<Path>) returns (p: Path)
    requires ps != {}
    ensures p in ps && forall q <- ps :: |p| <= |q|
    decreases |ps|
  {
    p :| p in ps;
    if ps != {p} {
      var q := Shortest(ps - {p});
      if |q| < |p| { p := q; }
    }
  }

  lemma ListedLonger(items: seq<Item>, item: Item)
    ensures forall k, q :: 0 <= k <= |items| ==> (Listed(items + [item], k, q) <==> Listed(items, k, q))
    ensures forall q :: Listed(items + [item], |items| + 1, q) <==> Listed(items, |items|, q) || q == item.path
  {
    var longer := items + [item];
    forall k, q | 0 <= k <= |items| ensures Listed(longer, k, q) <==> Listed(items, k, q) {
      assert forall i :: 0 <= i < k ==> longer[i] == items[i];
    }
    forall q ensures Listed(longer, |items| + 1, q) <==> Listed(items, |items|, q) || q == item.path {
      assert longer[|items|] == item && forall i :: 0 <= i < |items| ==> longer[i] == items[i];
    }
  }

  /** A listing that still lacks some paths. */
  ghost predicate ListsAllBut(items: seq<Item>, t: Tree, remaining: set<Path>) {
    && (forall p <- remaining :: p in t && Selected(p))
    && (forall p <- t :: Selected(p) ==> p in remaining || Listed(items, |items|, p))
    && (forall i :: 0 <= i < |items| ==>
          items[i].path in t && Selected(items[i].path) && items[i].entry == t[items[i].path])
    && (forall i {:trigger ParentListed(items, i)} :: 0 <= i < |items| ==> ParentListed(items, i))
  }

  lemma ListNext(items: seq<Item>, t: Tree, remaining: set<Path>, p: Path)
    requires WellFormed(t) && ListsAllBut(items, t, remaining)
    requires p in remaining && forall q <- remaining :: |p| <= |q|
    ensures ListsAllBut(items + [Item(p, t[p])], t, remaining - {p})
  {
    assert Sits(t, p);
    assert |p| > 1 ==> Listed(items, |items|, Parent(p));
    ListedLonger(items, Item(p, t[p]));
    var longer := items + [Item(p, t[p])];
    assert |longer| == |items| + 1;
    forall q | q in t && Selected(q) ensures q in remaining - {p} || Listed(longer, |longer|, q) {
      assert Listed(longer, |items| + 1, q) <==> Listed(items, |items|, q) || q == p;
    }
    forall i | 0 <= i < |longer| ensures ParentListed(longer, i) {
      if i < |items| { assert ParentListed(items, i); }
    }
  }

  /** The entries to archive, in any order that has directories first; it fails when one of the two
   *  directories is missing. */
  method FilesFromDisk(t: Tree) returns (items: Option<seq<Item>>)
    requires WellFormed(t)
    ensures items.Some? ==> IsListing(items.value, t)
    ensures items.Some? <==> [DATA] in t && [CHAIN_DATA] in t
  {
    if [DATA] !in t || [CHAIN_DATA] !in t { return None; }
    var order: seq<Item> := *;
    if IsListing(order, t) { return Some(order); }
    var remaining := Selection(t).Keys;
    var found: seq<Item> := [];
    while remaining != {}
      invariant ListsAllBut(found, t, remaining)
      decreases remaining
    {
      ghost var shortest := Shortest(remaining);
      var p :| p in remaining && forall q <- remaining :: |p| <= |q|;
      ListNext(found, t, remaining, p);
      found := found + [Item(p, t[p])];
      remaining := remaining - {p};
    }
    items := Some(found);
  }

  /** There is an archive of the source at that path. */
  predicate HoldsArchive(t: Tree, output: Path, source: Tree) {
    && output in t && t[output].File? && t[output].content.Packed?
    && IsListing(t[output].content.items, source)
  }

  /** That archive is all that is new. */
  predicate Archived(source: Tree, before: Tree, output: Path, after: Tree) {
    HoldsArchive(after, output, source) && after == before[output := after[output]]
  }

  /** Reliable: no command fails for reasons outside the volumes, such as a full disk. */
  class Behavior {
    const reliable: bool
    const md5: Content -> string       // the digest of a file
    const usage: Tree -> Option<int>   // what du prints of a directory, if it is a number

    constructor (reliable: bool, md5: Content -> string, usage: Tree -> Option<int>)
      ensures this.reliable == reliable && this.md5 == md5 && this.usage == usage
    {
      this.reliable := reliable;
      this.md5 := md5;
      this.usage := usage;
    }

    method Fault() returns (f: bool)
      ensures reliable ==> !f
    {
      f := *;
      f := f && !reliable;
    }

    /** cp -a of both directories. */
    method Copy(source: Volume, dest: Volume) returns (ok: bool)
      requires source != dest
      modifies dest
      ensures ok ==> CanCopy(source.tree, old(dest.tree)) && dest.tree == old(dest.tree) + Selection(source.tree)
      ensures ok ==> ["data"] in source.tree && ["chain_data"] in source.tree
      ensures ok ==> forall p :: && p != [] && (p[0] == "data" || p[0] == "chain_data")
                                 && p in source.tree && p in old(dest.tree) ==>
                       (source.tree[p].Dir? <==> old(dest.tree)[p].Dir?)
      ensures !ok ==> Rest(dest.tree) == Rest(old(dest.tree))
      ensures reliable && CanCopy(source.tree, old(dest.tree)) ==> ok
    {
      var fault := Fault();
      if fault || !CanCopy(source.tree, dest.tree) {
        dest.HalfDone({DATA, CHAIN_DATA});
        return false;
      }
      dest.tree := dest.tree + Selection(source.tree);
      ok := true;
    }

    method Archive(source: Volume, dest: Volume, output: Path) returns (ok: bool)
      requires source != dest && WellFormed(source.tree)
      modifies dest
      ensures ok ==> Archived(source.tree, old(dest.tree), output, dest.tree)
      ensures !ok ==> dest.tree - {output} == old(dest.tree) - {output}
      ensures ok ==> CanArchive(source.tree, old(dest.tree), output)
      ensures reliable && CanArchive(source.tree, old(dest.tree), output) ==> ok
    {
      var items := FilesFromDisk(source.tree);
      if items.None? { return false; }
      var created := CreateFile(dest.tree, output, Plain(""));
      if created.None? { return false; }
      dest.tree := created.value;
      var fault := Fault();
      if fault { return false; }
      dest.tree := dest.tree[output := File(Packed(items.value))];
      ok := true;
    }

    predicate CanBackup(source: Tree, dest: Tree, options: CompressOptions) {
      && usage(source).Some? && IsInt64(usage(source).value)
      && if options.enable then CanArchive(source, dest, options.output) else CanCopy(source, dest)
    }

    method Backup(source: Volume, dest: Volume, options: CompressOptions) returns (r: Option<Measured>)
      requires source != dest && WellFormed(source.tree)
      modifies dest
      ensures r.Some? ==> CanBackup(source.tree, old(dest.tree), options)
      ensures reliable && CanBackup(source.tree, old(dest.tree), options) ==> r.Some?
      ensures r.Some? ==> usage(source.tree) == Some(r.value.size) && IsInt64(r.value.size)
      ensures r.Some? && !options.enable ==> dest.tree == old(dest.tree) + Selection(source.tree) && r.value.md5 == ""
      ensures r.Some? && options.enable ==>
                && Archived(source.tree, old(dest.tree), options.output, dest.tree)
                && r.value.md5 == md5(dest.tree[options.output].content)
    {
      var totalSize, digest := usage(source.tree), "";
      if totalSize.None? || !IsInt64(totalSize.value) { return None; }
      var ok;
      if options.enable {
        ok := Archive(source, dest, options.output);
      } else {
        ok := Copy(source, dest);
      }
      if !ok { return None; }
      if options.enable {
        digest := md5(dest.tree[options.output].content);
      }
      return Some(Measured(totalSize.value, digest));
    }

    /** Stat and remove the one; only if it is not there, stat and remove the other. */
    method RemoveConsensusData(dest: Volume) returns (ok: bool)
      modifies dest
      ensures ok ==> dest.tree == WithoutConsensus(old(dest.tree))
      ensures Selection(dest.tree) == Selection(old(dest.tree))
      ensures reliable ==> ok
    {
      assert DATA[0] == 'd' && CHAIN_DATA[0] == 'c' && OVERLORD_CONSENSUS_DIR[0] == 'o' && RAFT_CONSENSUS_DIR[0] == 'r';
      var fault := Fault();
      if [RAFT_CONSENSUS_DIR] in dest.tree {
        if fault {
          dest.HalfDone({RAFT_CONSENSUS_DIR});
          return false;
        }
        dest.tree := Without(dest.tree, RAFT_CONSENSUS_DIR);
        return true;
      }
      if [OVERLORD_CONSENSUS_DIR] in dest.tree {
        if fault {
          dest.HalfDone({OVERLORD_CONSENSUS_DIR});
          return false;
        }
        dest.tree := Without(dest.tree, OVERLORD_CONSENSUS_DIR);
        return true;
      }
      return !fault;
    }

    /** UnArchive: item by item over what is there. */
    method UnArchive(content: Content, dest: Volume) returns (ok: bool)
      modifies dest
      ensures ok ==> content.Packed? && Extract(old(dest.tree), content.items) == Some(dest.tree)
      ensures reliable && content.Packed? && Extract(old(dest.tree), content.items).Some? ==> ok
    {
      if content.Plain? { return false; }  // no archive format is identified
      var items := content.items;
      for i := 0 to |items|
        invariant Extract(old(dest.tree), items[..i]) == Some(dest.tree)
      {
        assert items[..i + 1][..i] == items[..i];
        if !Skipped(items[i].path) {
          var fault := Fault();
          if fault { return false; }
          if items[i].entry.Dir? {
            var made := MakeDirs(dest.tree, items[i].path);
            if made.None? {
              ExtractFails(old(dest.tree), items, i + 1);
              return false;
            }
            dest.tree := made.value;
          } else {
            var created := CreateFile(dest.tree, items[i].path, items[i].entry.content);
            if created.None? {
              ExtractFails(old(dest.tree), items, i + 1);
              return false;
            }
            dest.tree := created.value;
          }
        }
      }
      assert items[..|items|] == items;
      ok := true;
    }

    /** rm -rf of both directories, then the consensus data if asked for. */
    method Clean(dest: Volume, deleteConsensusData: bool) returns (ok: bool)
      modifies dest
      ensures ok ==> dest.tree == Base(old(dest.tree), deleteConsensusData)
      ensures !deleteConsensusData ==> Rest(dest.tree) == Rest(old(dest.tree))
      ensures reliable ==> ok
    {
      var fault := Fault();
      if fault {
        dest.HalfDone({DATA, CHAIN_DATA});
        return false;
      }
      dest.tree := Rest(dest.tree);
      ok := true;
      if deleteConsensusData {
        ok := RemoveConsensusData(dest);
      }
    }

    /** The archive to restore is there, and its digest is the one asked for, if one is. */
    predicate Matches(source: Tree, options: DecompressOptions) {
      && options.input in source && source[options.input].File?
      && (options.md5 != "" ==> md5(source[options.input].content) == options.md5)
    }

    /** What a restore makes of the destination, when nothing goes wrong. */
    ghost function Restored(source: Tree, dest: Tree, options: DecompressOptions, deleteConsensusData: bool)
      : Option<Tree>
    {
      var base := Base(dest, deleteConsensusData);
      if options.enable then
        if Matches(source, options) && source[options.input].content.Packed?
        then Extract(base, source[options.input].content.items)
        else None
      else if CanCopy(source, base) then Some(base + Selection(source))
      else None
    }

    /** A digest that does not match leaves the destination as it was. */
    method Restore(source: Volume, dest: Volume, options: DecompressOptions, deleteConsensusData: bool) returns (ok: bool)
      requires source != dest
      modifies dest
      ensures options.enable && options.md5 != "" &&
              (options.input !in source.tree || source.tree[options.input].Dir? ||
               md5(source.tree[options.input].content) != options.md5) ==>
                !ok && dest.tree == old(dest.tree)
      ensures ok ==> Restored(source.tree, old(dest.tree), options, deleteConsensusData) == Some(dest.tree)
      ensures ok && !options.enable ==> dest.tree == Base(old(dest.tree), deleteConsensusData) + Selection(source.tree)
      ensures ok && options.enable ==>
                && options.input in source.tree && source.tree[options.input].File?
                && var content := source.tree[options.input].content;
                   && (options.md5 != "" ==> md5(content) == options.md5) && content.Packed?
                   && Extract(Base(old(dest.tree), deleteConsensusData), content.items) == Some(dest.tree)
      ensures reliable && Restored(source.tree, old(dest.tree), options, deleteConsensusData).Some? ==> ok
      ensures !options.enable && !deleteConsensusData ==> Rest(dest.tree) == Rest(old(dest.tree))
    {
      if options.enable && options.md5 != "" {
        if options.input !in source.tree || source.tree[options.input].Dir? { return false; }
        if options.md5 != md5(source.tree[options.input].content) { return false; }
      }
      ok := Clean(dest, deleteConsensusData);
      if !ok { return; }
      if options.enable {
        if options.input !in source.tree || source.tree[options.input].Dir? { return false; }
        ok := UnArchive(source.tree[options.input].content, dest);
      } else {
        ok := Copy(source, dest);
      }
    }

    /** The two operations undo each other: a backup into a vault without old data, restored with the digest it
     *  reported, leaves at any destination exactly the source's data, but for the names that the archive mode passes
     *  over, and everything else there as it was. When no command fails for outside reasons, it is enough that
     *  both directories are there, that their size is a number, and that the archive's file can be made. */
    method BackupThenRestore(source: Volume, vault: Volume, dest: Volume, options: CompressOptions) returns (ok: bool)
      requires source != vault && vault != dest && source != dest && WellFormed(source.tree)
      requires forall p <- vault.tree :: p != [] ==> p[0] != "data" && p[0] != "chain_data"
      modifies vault, dest
      ensures ok ==> forall p :: p == [] || (p[0] != "data" && p[0] != "chain_data") ==>
                       && (p in dest.tree <==> p in old(dest.tree))
                       && (p in dest.tree ==> dest.tree[p] == old(dest.tree)[p])
      ensures ok ==> forall p :: p != [] && (p[0] == "data" || p[0] == "chain_data") ==>
                       && (p in dest.tree <==>
                             && p in source.tree
                             && !(options.enable && exists i, j, k :: 0 <= i < |p| && 0 <= j && k == j + 8 <= |p[i]| &&
                                                                      p[i][j..k] == "__MACOSX"))
                       && (p in dest.tree ==> dest.tree[p] == source.tree[p])
      ensures && reliable && ["data"] in source.tree && ["chain_data"] in source.tree
              && usage(source.tree).Some?
              && -0x8000_0000_0000_0000 <= usage(source.tree).value < 0x8000_0000_0000_0000
              && (options.enable ==>
                    && options.output != []
                    && !(options.output in old(vault.tree) && old(vault.tree)[options.output].Dir?)
                    && var above := options.output[..|options.output| - 1];
                       above == [] || (above in old(vault.tree) && old(vault.tree)[above].Dir?))
              ==> ok
    {
      ghost var before := vault.tree;
      var measured := Backup(source, vault, options);
      if measured.None? { return false; }
      if options.enable {
        ArchiveRoundTrip(source.tree, vault.tree[options.output].content.items, dest.tree);
      } else {
        PlainRoundTrip(source.tree, before, dest.tree);
      }
      ghost var was := dest.tree;
      ok := Restore(vault, dest, DecompressOptions(options.enable, options.output, measured.value.md5), false);
      if ok { RoundTripOnSlices(source.tree, was, dest.tree, options.enable); }
    }
  }

  /** What is equal but for the names passed over, said of every path. */
  lemma RoundTripOnSlices(source: Tree, was: Tree, now: Tree, archived: bool)
    requires Rest(now) == Rest(was)
    requires Selection(now) == if archived then Kept(Selection(source)) else Selection(source)
    ensures forall p :: p == [] || (p[0] != "data" && p[0] != "chain_data") ==>
              (p in now <==> p in was) && (p in now ==> now[p] == was[p])
    ensures forall p :: p != [] && (p[0] == "data" || p[0] == "chain_data") ==>
              && (p in now <==>
                    && p in source
                    && !(archived && exists i, j, k :: 0 <= i < |p| && 0 <= j && k == j + 8 <= |p[i]| &&
                                                       p[i][j..k] == "__MACOSX"))
              && (p in now ==> now[p] == source[p])
  {
    forall p | p == [] || (p[0] != "data" && p[0] != "chain_data")
      ensures (p in now <==> p in was) && (p in now ==> now[p] == was[p])
    {
      assert !Selected(p);
      assert p in Rest(now) <==> p in now;
      assert p in Rest(was) <==> p in was;
      if p in now { assert now[p] == Rest(now)[p] == Rest(was)[p] == was[p]; }
    }
    forall p | p != [] && (p[0] == "data" || p[0] == "chain_data")
      ensures && (p in now <==>
                    && p in source
                    && !(archived && exists i, j, k :: 0 <= i < |p| && 0 <= j && k == j + 8 <= |p[i]| &&
                                                       p[i][j..k] == "__MACOSX"))
              && (p in now ==> now[p] == source[p])
    {
      SkippedOnSlices(p);
      assert p in Selection(now) <==> p in now;
      assert p in Selection(source) <==> p in source;
      if p in now { assert now[p] == Selection(now)[p]; }
    }
  }

  predicate CanArchive(source: Tree, dest: Tree, output: Path) {
    [DATA] in source && [CHAIN_DATA] in source && CreateFile(dest, output, Plain("")).Some?
  }

  /** What a restore lays its data over. */
  function Base(dest: Tree, deleteConsensusData: bool): Tree {
    if deleteConsensusData then WithoutConsensus(Rest(dest)) else Rest(dest)
  }

  lemma {:induction false} ExtractFails(t: Tree, items: seq<Item>, k: nat)
    requires k <= |items| && Extract(t, items[..k]) == None
    ensures Extract(t, items) == None
    decreases |items| - k
  {
    if k < |items| {
      assert items[..k + 1][..k] == items[..k];
      ExtractFails(t, items, k + 1);
    } else {
      assert items[..k] == items;
    }
  }
}
