/** Slash-separated paths: strings.Split, strings.Contains, filepath.Join, and the mount point of a path. */
module Paths {
  import opened Wrappers

  predicate Contains(s: string, sub: string) {
    exists j :: 0 <= j <= |s| && sub <= s[j..]
  }

  lemma ContainsOnSlices(s: string, sub: string)
    ensures Contains(s, sub) <==> exists j, k :: 0 <= j <= k <= |s| && s[j..k] == sub
  {
    if Contains(s, sub) {
      var j :| 0 <= j <= |s| && sub <= s[j..];
      assert s[j..j + |sub|] == s[j..][..|sub|] == sub;
    }
    if j, k :| 0 <= j <= k <= |s| && s[j..k] == sub {
      assert s[j..][..k - j] == sub;
    }
  }

  /** A character in front: a slash begins a new part, anything else extends the first one. */
  function InFront(c: char, parts: seq<string>): seq<string>
    requires parts != []
  {
    if c == '/' then [""] + parts else [[c] + parts[0]] + parts[1..]
  }

  /** strings.Split(s, "/") */
  function Split(s: string): (parts: seq<string>)
    ensures |parts| > 0 && forall i :: 0 <= i < |parts| ==> '/' !in parts[i]
  {
    if s == "" then [""] else InFront(s[0], Split(s[1..]))
  }

  /** strings.Join(parts, "/") */
  function Join(parts: seq<string>): string {
    if parts == [] then ""
    else if |parts| == 1 then parts[0]
    else parts[0] + "/" + Join(parts[1..])
  }

  lemma {:induction false} JoinSplit(s: string)
    ensures Join(Split(s)) == s
  {
    if s != "" {
      JoinSplit(s[1..]);
      var rest := Split(s[1..]);
      if s[0] == '/' {
        assert Split(s)[1..] == rest;
        assert Join(Split(s)) == "" + "/" + Join(rest) == s;
      } else {
        assert Split(s)[1..] == rest[1..];
        assert Join(Split(s)) == [s[0]] + Join(rest);
        assert [s[0]] + s[1..] == s;
      }
    }
  }

  lemma {:induction false} SplitPart(p: string)
    requires '/' !in p
    ensures Split(p) == [p]
  {
    if p != "" {
      SplitPart(p[1..]);
      assert [p[0]] + p[1..] == p;
    }
  }

  lemma InFrontOfBoth(c: char, a: seq<string>, b: seq<string>)
    requires a != []
    ensures InFront(c, a + b) == InFront(c, a) + b
  {
    assert (a + b)[1..] == a[1..] + b;
  }

  /** Splitting what was put together by a slash. */
  lemma {:induction false} SplitBoth(a: string, b: string)
    ensures Split(a + "/" + b) == Split(a) + Split(b)
  {
    var s := a + "/" + b;
    if a == "" {
      assert s[1..] == b;
    } else {
      assert s[0] == a[0] && s[1..] == a[1..] + "/" + b;
      SplitBoth(a[1..], b);
      InFrontOfBoth(a[0], Split(a[1..]), Split(b));
    }
  }

  /** Splitting undoes joining, for parts without slashes. */
  lemma {:induction false} SplitJoin(parts: seq<string>)
    requires |parts| > 0 && forall i :: 0 <= i < |parts| ==> '/' !in parts[i]
    ensures Split(Join(parts)) == parts
  {
    if |parts| == 1 {
      SplitPart(parts[0]);
    } else {
      SplitJoin(parts[1..]);
      SplitBoth(parts[0], Join(parts[1..]));
      SplitPart(parts[0]);
    }
  }

  /***** Where a path leads *****/

  predicate IsAbsolute(path: string) {
    path != "" && path[0] == '/'
  }

  /** A component that names an entry. */
  predicate IsProper(part: string) {
    part != "" && part != "." && part != ".."
  }

  /** One component after what has been kept of the others, as filepath.Clean processes an absolute path. */
  function Push(kept: seq<string>, part: string): seq<string> {
    if part == "" || part == "." then kept
    else if part == ".." then (if kept == [] then [] else kept[..|kept| - 1])
    else kept + [part]
  }

  function PushAll(kept: seq<string>, parts: seq<string>): seq<string>
    decreases |parts|
  {
    if parts == [] then kept else PushAll(Push(kept, parts[0]), parts[1..])
  }

  /** The components that an absolute path leads through, dot segments resolved. */
  function Resolved(path: string): seq<string>
    requires IsAbsolute(path)
  {
    PushAll([], Split(path)[1..])
  }

  /** filepath.Clean of an absolute path. */
  function Clean(path: string): string
    requires IsAbsolute(path)
  {
    "/" + Join(Resolved(path))
  }

  predicate AllProper(parts: seq<string>) {
    forall i :: 0 <= i < |parts| ==> IsProper(parts[i]) && '/' !in parts[i]
  }

  lemma {:induction false} PushAllProper(kept: seq<string>, parts: seq<string>)
    requires AllProper(kept) && forall i :: 0 <= i < |parts| ==> '/' !in parts[i]
    ensures AllProper(PushAll(kept, parts))
    decreases |parts|
  {
    if parts != [] {
      PushAllProper(Push(kept, parts[0]), parts[1..]);
    }
  }

  lemma {:induction false} PushAllOfProper(kept: seq<string>, parts: seq<string>)
    requires AllProper(parts)
    ensures PushAll(kept, parts) == kept + parts
    decreases |parts|
  {
    if parts != [] {
      PushAllOfProper(kept + [parts[0]], parts[1..]);
      assert kept + [parts[0]] + parts[1..] == kept + parts;
    } else {
      assert kept + parts == kept;
    }
  }

  lemma {:induction false} PushAllAppend(kept: seq<string>, a: seq<string>, b: seq<string>)
    ensures PushAll(kept, a + b) == PushAll(PushAll(kept, a), b)
    decreases |a|
  {
    if a == [] {
      assert a + b == b;
    } else {
      assert (a + b)[1..] == a[1..] + b;
      PushAllAppend(Push(kept, a[0]), a[1..], b);
    }
  }

  /** A path leads where its cleaned form leads, through proper components only. */
  lemma CleanLeadsThere(path: string)
    requires IsAbsolute(path)
    ensures AllProper(Resolved(path))
    ensures IsAbsolute(Clean(path)) && Resolved(Clean(path)) == Resolved(path)
  {
    var kept := Resolved(path);
    PushAllProper([], Split(path)[1..]);
    SplitBoth("", Join(kept));
    assert "" + "/" + Join(kept) == Clean(path);
    if kept == [] {
      assert Split(Clean(path))[1..] == [""];
      assert PushAll([], [""]) == PushAll([], []) by { assert [""][1..] == []; }
    } else {
      SplitJoin(kept);
      assert Split(Clean(path))[1..] == kept;
      PushAllOfProper([], kept);
      assert [] + kept == kept;
    }
  }

  /** The path leads to the mount point or below it; nothing is mounted over the root. */
  predicate Under(path: string, mount: string) {
    && IsAbsolute(path) && IsAbsolute(mount)
    && Resolved(mount) != [] && Resolved(mount) <= Resolved(path)
  }

  /***** Mount points *****/

  function GetMountPoint(path: string): Option<string> {
    var parts := Split(path);
    if |parts| < 2 then None else Some("/" + parts[1])
  }

  /** The path is absolute, and leads into the entry that its first component names. */
  predicate StaysInside(path: string) {
    && IsAbsolute(path)
    && Resolved(path) != [] && Resolved(path)[0] == Split(path)[1]
  }

  lemma AbsoluteParts(path: string)
    requires IsAbsolute(path)
    ensures |Split(path)| >= 2 && Split(path)[0] == ""
  {
  }

  /** What a mount point of one component resolves to. */
  lemma MountResolved(c: string)
    requires '/' !in c
    ensures IsAbsolute("/" + c) && Resolved("/" + c) == if IsProper(c) then [c] else []
  {
    SplitBoth("", c);
    SplitPart(c);
    assert "" + "/" + c == "/" + c;
    assert Split("/" + c)[1..] == [c];
    assert PushAll([], [c]) == PushAll(Push([], c), []) by { assert [c][1..] == []; }
  }

  /** A path has a mount point when it has a slash at all, and the mount point is a slash and one component. The path
   *  leads under it if and only if the path is absolute and, with its dot segments resolved, still begins with that
   *  component. */
  lemma MountPoint(path: string)
    ensures GetMountPoint(path).Some? <==> '/' in path
    ensures GetMountPoint(path).Some? ==>
              var mount := GetMountPoint(path).value;
              && IsAbsolute(mount) && '/' !in mount[1..]
              && (Under(path, mount) <==> StaysInside(path))
  {
    var parts := Split(path);
    JoinSplit(path);
    if |parts| < 2 {
      assert path == parts[0];
    } else {
      assert path == parts[0] + "/" + Join(parts[1..]);
      assert path[|parts[0]|] == '/';
      var c := parts[1];
      assert ("/" + c)[1..] == c;
      MountResolved(c);
      if IsAbsolute(path) {
        CleanLeadsThere(path);
        if Under(path, "/" + c) { assert Resolved(path)[0] == Resolved("/" + c)[0]; }
      }
    }
  }

  /** It is enough that the first component names an entry and that no later one leads back. */
  lemma StaysInsideWithoutParents(path: string)
    requires IsAbsolute(path) && IsProper(Split(path)[1]) && ".." !in Split(path)
    ensures StaysInside(path)
  {
    var parts := Split(path)[1..];
    assert Split(path)[1] == parts[0];
    assert forall i :: 0 <= i < |parts| ==> parts[i] == Split(path)[i + 1];
    assert Push([], parts[0]) == [parts[0]];
    assert Resolved(path) == PushAll([parts[0]], parts[1..]);
    PushAllOnlyGrows([parts[0]], parts[1..]);
    assert [parts[0]] <= Resolved(path) ==> Resolved(path)[0] == parts[0];
  }

  lemma {:induction false} PushAllOnlyGrows(kept: seq<string>, parts: seq<string>)
    requires ".." !in parts
    ensures kept <= PushAll(kept, parts)
    decreases |parts|
  {
    if parts != [] {
      assert ".." != parts[0];
      PushAllOnlyGrows(Push(kept, parts[0]), parts[1..]);
    }
  }

  /** Dot segments can lead out of the mount point of an absolute path. */
  lemma ParentLeadsOut(a: string, b: string)
    requires IsProper(a) && IsProper(b) && a != b && '/' !in a && '/' !in b
    ensures var path := "/" + a + "/../" + b;
            IsAbsolute(path) && GetMountPoint(path) == Some("/" + a) && !Under(path, "/" + a) && Resolved(path) == [b]
  {
    var path := "/" + a + "/../" + b;
    var parts := ["", a, "..", b];
    assert parts[1..] == [a, "..", b] && parts[1..][1..] == ["..", b] && ["..", b][1..] == [b];
    assert Join(["..", b]) == ".." + "/" + b;
    assert Join([a, "..", b]) == a + "/" + (".." + "/" + b);
    assert Join(parts) == path;
    SplitJoin(parts);
    MountPoint(path);
    assert PushAll([], [a, "..", b]) == PushAll([a], ["..", b]) == PushAll([], [b]) == PushAll([b], []);
  }

  /***** filepath.Join *****/

  /** filepath.Join of an absolute path and one more element; empty elements are ignored. */
  function JoinPath(path: string, element: string): string
    requires IsAbsolute(path)
  {
    Clean(if element == "" then path else path + "/" + element)
  }

  /** Appending one component. */
  lemma JoinResolved(path: string, element: string)
    requires IsAbsolute(path) && '/' !in element
    ensures IsAbsolute(JoinPath(path, element)) && Resolved(JoinPath(path, element)) == Push(Resolved(path), element)
  {
    if element == "" {
      CleanLeadsThere(path);
    } else {
      var longer := path + "/" + element;
      CleanLeadsThere(longer);
      SplitBoth(path, element);
      SplitPart(element);
      AbsoluteParts(path);
      assert Split(longer)[1..] == Split(path)[1..] + [element];
      PushAllAppend([], Split(path)[1..], [element]);
      assert PushAll(Resolved(path), [element]) == PushAll(Push(Resolved(path), element), []) by {
        assert [element][1..] == [];
      }
    }
  }

  /** Appending one component to a mount point stays under the mount point exactly when the mount point names an
   *  entry and the component does not lead back. */
  lemma JoinUnderMount(c: string, element: string)
    requires '/' !in c && '/' !in element
    ensures Under(JoinPath("/" + c, element), "/" + c) <==> IsProper(c) && element != ".."
  {
    MountResolved(c);
    JoinResolved("/" + c, element);
  }
}
