/** File paths as Go's path/filepath treats them on POSIX, the resolution of an abbreviated path
    against the index and the common root of the index (sgre/internal/cli/report.go:239-260,
    1597-1613). */
module Paths {
  import opened Text

  // ---------- filepath.Clean and filepath.Dir ----------

  /** The first '/', or the length. */
  function SlashAt(s: string): (i: nat)
    ensures i <= |s| && '/' !in s[..i] && (i < |s| ==> s[i] == '/')
  {
    if s == "" || s[0] == '/' then 0 else 1 + SlashAt(s[1..])
  }

  function Split(s: string): (parts: seq<string>)
    ensures parts != []
    decreases |s|
  {
    var i := SlashAt(s);
    if i == |s| then [s] else [s[..i]] + Split(s[i + 1..])
  }

  function Join(parts: seq<string>): string {
    if parts == [] then "" else if |parts| == 1 then parts[0] else parts[0] + "/" + Join(parts[1..])
  }

  /** Drops empty parts and dots and lets ".." remove the part before it. */
  function CleanParts(parts: seq<string>, rooted: bool, done: seq<string>): seq<string>
    decreases |parts|
  {
    if parts == [] then done
    else if parts[0] == "" || parts[0] == "." then CleanParts(parts[1..], rooted, done)
    else if parts[0] == ".." then
      if done != [] && done[|done| - 1] != ".." then CleanParts(parts[1..], rooted, done[..|done| - 1])
      else CleanParts(parts[1..], rooted, if rooted then done else done + [".."])
    else CleanParts(parts[1..], rooted, done + [parts[0]])
  }

  predicate IsAbs(path: string) { path != "" && path[0] == '/' }

  function Clean(path: string): string {
    var parts := CleanParts(Split(path), IsAbs(path), []);
    if IsAbs(path) then "/" + Join(parts) else if parts == [] then "." else Join(parts)
  }

  /** One behind the last '/', or 0. */
  function LastSlash(s: string): (i: nat)
    ensures i <= |s| && '/' !in s[i..]
  {
    if s == "" || s[|s| - 1] == '/' then |s| else LastSlash(s[..|s| - 1])
  }

  function Dir(path: string): string { Clean(path[..LastSlash(path)]) }

  // ---------- clean absolute paths by components ----------

  predicate Proper(part: string) {
    part != "" && part != "." && part != ".." && '/' !in part
  }

  predicate AllProper(parts: seq<string>) { forall c :: c in parts ==> Proper(c) }

  function PathOf(parts: seq<string>): string { "/" + Join(parts) }

  /** Every component with a '/' behind it. */
  function Slashed(parts: seq<string>): string {
    if parts == [] then "" else parts[0] + "/" + Slashed(parts[1..])
  }

  lemma {:induction false} JoinSlashed(parts: seq<string>)
    requires parts != []
    ensures Join(parts) + "/" == Slashed(parts)
  {
    if |parts| > 1 {
      JoinSlashed(parts[1..]);
      assert Join(parts) + "/" == parts[0] + "/" + (Join(parts[1..]) + "/");
    } else {
      assert parts[1..] == [] && Slashed(parts) == parts[0] + "/" + "";
    }
  }

  lemma {:induction false} JoinLast(parts: seq<string>, last: string)
    ensures Join(parts + [last]) == Slashed(parts) + last
  {
    if parts == [] {
      assert parts + [last] == [last];
    } else {
      assert (parts + [last])[0] == parts[0] && (parts + [last])[1..] == parts[1..] + [last];
      JoinLast(parts[1..], last);
    }
  }

  lemma {:induction false} SlashFound(a: string, rest: string)
    requires '/' !in a
    ensures SlashAt(a + "/" + rest) == |a|
    ensures (a + "/" + rest)[..|a|] == a && (a + "/" + rest)[|a| + 1..] == rest
  {
    var s := a + "/" + rest;
    if a == "" {
      assert s[0] == '/';
    } else {
      assert s[0] == a[0] && a[0] in a && s[1..] == a[1..] + "/" + rest;
      SlashFound(a[1..], rest);
    }
  }

  lemma SplitFirst(a: string, rest: string)
    requires '/' !in a
    ensures Split(a + "/" + rest) == [a] + Split(rest)
  {
    SlashFound(a, rest);
  }

  lemma {:induction false} SplitSlashed(parts: seq<string>)
    requires AllProper(parts)
    ensures Split(Slashed(parts)) == parts + [""]
  {
    if parts != [] {
      assert parts[0] in parts;
      SplitFirst(parts[0], Slashed(parts[1..]));
      SplitSlashed(parts[1..]);
      assert parts + [""] == [parts[0]] + (parts[1..] + [""]);
    }
  }

  lemma {:induction false} CleanProper(parts: seq<string>, rooted: bool, done: seq<string>)
    requires AllProper(parts)
    ensures CleanParts(parts + [""], rooted, done) == done + parts
    decreases |parts|
  {
    if parts == [] {
      assert parts + [""] == [""];
    } else {
      assert (parts + [""])[0] == parts[0] && (parts + [""])[1..] == parts[1..] + [""];
      assert Proper(parts[0]);
      CleanProper(parts[1..], rooted, done + [parts[0]]);
    }
  }

  lemma SplitRooted(rest: string)
    ensures Split("/" + rest) == [""] + Split(rest)
  {
    var s := "/" + rest;
    assert SlashAt(s) == 0 && s[..0] == "" && s[1..] == rest;
  }

  lemma CleanSlashed(parts: seq<string>)
    requires AllProper(parts)
    ensures Clean("/" + Slashed(parts)) == PathOf(parts)
  {
    SplitRooted(Slashed(parts));
    SplitSlashed(parts);
    CleanProper(parts, true, []);
    CleanRooted(parts + [""]);
    assert [] + parts == parts;
  }

  lemma CleanRooted(rest: seq<string>)
    ensures CleanParts([""] + rest, true, []) == CleanParts(rest, true, [])
  {
    assert ([""] + rest)[1..] == rest;
  }

  lemma {:induction false} LastSlashFound(a: string, b: string)
    requires '/' !in b && a != "" && a[|a| - 1] == '/'
    ensures LastSlash(a + b) == |a|
    decreases |b|
  {
    if b == "" {
      assert a + b == a;
    } else {
      assert (a + b)[|a + b| - 1] == b[|b| - 1] && b[|b| - 1] in b;
      assert (a + b)[..|a + b| - 1] == a + b[..|b| - 1];
      LastSlashFound(a, b[..|b| - 1]);
    }
  }

  lemma {:induction false} SlashedEnds(parts: seq<string>)
    ensures ("/" + Slashed(parts))[|Slashed(parts)|] == '/'
  {
    if parts != [] {
      SlashedEnds(parts[1..]);
    }
  }

  /** filepath.Dir drops the last component, and the root is its own directory. */
  lemma DirOfPath(parts: seq<string>, last: string)
    requires AllProper(parts) && Proper(last)
    ensures Dir(PathOf(parts + [last])) == PathOf(parts)
    ensures Dir(PathOf([])) == PathOf([])
  {
    var a := "/" + Slashed(parts);
    JoinLast(parts, last);
    assert PathOf(parts + [last]) == a + last;
    SlashedEnds(parts);
    LastSlashFound(a, last);
    assert (a + last)[..|a|] == a;
    CleanSlashed(parts);
    assert Slashed([]) == "" && "/" + Slashed([]) == "/" && "/"[..1] == "/";
    CleanSlashed([]);
  }

  lemma PrefixParts(a: string, s: string, b: string, t: string)
    requires '/' !in a && '/' !in b
    ensures HasPrefix(b + "/" + t, a + "/" + s) <==> a == b && HasPrefix(t, s)
  {
    var p, q := a + "/" + s, b + "/" + t;
    SlashFound(a, s);
    SlashFound(b, t);
    if HasPrefix(q, p) {
      assert q == p + q[|p|..];
      assert q == a + "/" + (s + q[|p|..]);
      SlashFound(a, s + q[|p|..]);
      assert t == s + q[|p|..];
    }
    if a == b && HasPrefix(t, s) {
      assert q[..|p|] == b + "/" + t[..|s|];
    }
  }

  /** The test of the loop: one directory is at or under the other. */
  lemma {:induction false} UnderByComponents(dir: seq<string>, root: seq<string>)
    requires AllProper(dir) && AllProper(root)
    ensures HasPrefix(Slashed(dir), Slashed(root)) <==> root <= dir
  {
    if root != [] && dir != [] {
      assert root[0] in root && dir[0] in dir;
      PrefixParts(root[0], Slashed(root[1..]), dir[0], Slashed(dir[1..]));
      UnderByComponents(dir[1..], root[1..]);
      assert root == [root[0]] + root[1..] && dir == [dir[0]] + dir[1..];
      assert root <= dir <==> root[0] == dir[0] && root[1..] <= dir[1..];
    } else {
      assert Slashed([]) == "";
    }
  }

  predicate AtOrUnder(dir: string, root: string) { HasPrefix(dir + "/", root + "/") }

  lemma RootTest(dir: seq<string>, root: seq<string>)
    requires AllProper(dir) && AllProper(root)
    ensures AtOrUnder(PathOf(dir), PathOf(root)) <==> root <= dir && (root == [] ==> dir == [])
  {
    PathSlash(dir);
    PathSlash(root);
    if root != [] && dir != [] {
      UnderByComponents(dir, root);
      var s, t := Slashed(root), Slashed(dir);
      assert "/" + t == "" + "/" + t && "/" + s == "" + "/" + s;
      PrefixParts("", s, "", t);
    } else if dir != [] {
      assert Proper(dir[0]);
      assert ("/" + Slashed(dir))[1] == dir[0][0] && dir[0][0] in dir[0];
    } else if root != [] {
      assert Slashed(root) == root[0] + "/" + Slashed(root[1..]);
      assert Proper(root[0]);
      assert |"/" + Slashed(root)| > 2;
    }
  }

  lemma PathSlash(parts: seq<string>)
    ensures PathOf(parts) + "/" == if parts == [] then "//" else "/" + Slashed(parts)
  {
    if parts != [] {
      JoinSlashed(parts);
      assert PathOf(parts) + "/" == "/" + (Join(parts) + "/");
    }
  }

  // ---------- the common root ----------

  /** The components of an indexed file: its directory and its name. */
  datatype Indexed = Indexed(dir: seq<string>, name: string)

  ghost predicate ProperFile(f: Indexed) { AllProper(f.dir) && Proper(f.name) }

  ghost function FilePath(f: Indexed): string { PathOf(f.dir + [f.name]) }

  ghost predicate Common(root: seq<string>, files: seq<Indexed>) {
    forall f :: f in files ==> root <= f.dir
  }

  /** `root` is the longest directory, by components, that all files are under. */
  ghost predicate CommonRoot(root: seq<string>, files: seq<Indexed>) {
    Common(root, files) && forall other :: Common(other, files) ==> other <= root
  }

  predicate Both(parts: seq<string>, rs: seq<string>, ds: seq<string>) { parts <= rs && parts <= ds }

  ghost predicate Longest(parts: seq<string>, rs: seq<string>, ds: seq<string>) {
    forall other :: Both(other, rs, ds) ==> other <= parts
  }

  lemma Shorten(parts: seq<string>, rs: seq<string>, ds: seq<string>)
    requires parts != [] && parts <= rs && !(parts <= ds) && Longest(parts, rs, ds)
    ensures Longest(parts[..|parts| - 1], rs, ds)
  {
    forall other | Both(other, rs, ds) ensures other <= parts[..|parts| - 1] {
      assert other <= parts && other == parts[..|other|];
      assert |other| < |parts|;
    }
  }

  /** Shrinks the root until the directory is under it. */
  method ShrinkRoot(dir: string, start: string, ghost ds: seq<string>, ghost rs: seq<string>)
    returns (root: string, atTop: bool, ghost parts: seq<string>)
    requires AllProper(ds) && AllProper(rs) && dir == PathOf(ds) && start == PathOf(rs)
    ensures AllProper(parts) && root == PathOf(parts) && Both(parts, rs, ds)
    ensures Longest(parts, rs, ds)
    ensures atTop ==> parts == []
  {
    root, atTop, parts := start, false, rs;
    RootTest(ds, rs);
    while !AtOrUnder(dir, root)
      invariant AllProper(parts) && root == PathOf(parts) && parts <= rs
      invariant Longest(parts, rs, ds)
      decreases |parts|
    {
      RootTest(ds, parts);
      var parent := Dir(root);
      ParentOf(parts);
      if parent == root {
        atTop := true;
        return;
      }
      Shorten(parts, rs, ds);
      root, parts := parent, parts[..|parts| - 1];
    }
    RootTest(ds, parts);
  }

  /** Only the root is its own parent. */
  lemma ParentOf(parts: seq<string>)
    requires AllProper(parts)
    ensures Dir(PathOf(parts)) == PathOf(parts) <==> parts == []
    ensures parts != [] ==> Dir(PathOf(parts)) == PathOf(parts[..|parts| - 1]) && AllProper(parts[..|parts| - 1])
  {
    if parts == [] {
      DirOfPath([], "a");
    } else {
      var last := parts[|parts| - 1];
      assert last in parts && parts == parts[..|parts| - 1] + [last];
      DirOfPath(parts[..|parts| - 1], last);
      JoinLast(parts[..|parts| - 1], last);
      JoinIsShorter(parts[..|parts| - 1]);
    }
  }

  lemma JoinIsShorter(parts: seq<string>)
    ensures |Join(parts)| <= |Slashed(parts)|
  {
    if parts != [] {
      JoinSlashed(parts);
    }
  }

  /** The root of the index is the longest common directory of all files, by components; without
      files it is empty. */
  method IndexPathRoot(paths: seq<string>, ghost files: seq<Indexed>) returns (root: string, ghost parts: seq<string>)
    requires |paths| == |files|
    requires forall i :: 0 <= i < |paths| ==> ProperFile(files[i]) && paths[i] == FilePath(files[i])
    ensures paths == [] ==> root == ""
    ensures paths != [] ==> root == PathOf(parts) && CommonRoot(parts, files)
  {
    if |paths| == 0 {
      return "", [];
    }
    root, parts := Dir(paths[0]), files[0].dir;
    DirOfPath(files[0].dir, files[0].name);
    FirstRoot(files[0]);
    assert files[..1] == [files[0]];
    var i := 1;
    while i < |paths|
      invariant 1 <= i <= |paths| && AllProper(parts) && root == PathOf(parts)
      invariant CommonRoot(parts, files[..i])
    {
      var dir := Dir(paths[i]);
      DirOfPath(files[i].dir, files[i].name);
      ghost var before := parts;
      var atTop;
      root, atTop, parts := ShrinkRoot(dir, root, files[i].dir, parts);
      CommonRootGrows(files[..i], files[i], before, parts);
      i := i + 1;
      assert files[..i] == files[..i - 1] + [files[i - 1]];
      if atTop {
        TopOfAll(files, i);
        return;
      }
    }
    assert files[..i] == files;
  }

  lemma FirstRoot(f: Indexed)
    ensures CommonRoot(f.dir, [f])
  {
    forall other | Common(other, [f]) ensures other <= f.dir {
      assert f in [f];
    }
  }

  lemma CommonRootGrows(files: seq<Indexed>, f: Indexed, before: seq<string>, after: seq<string>)
    requires CommonRoot(before, files) && Both(after, before, f.dir) && Longest(after, before, f.dir)
    ensures CommonRoot(after, files + [f])
  {
    forall g | g in files + [f] ensures after <= g.dir {
      assert g in files ==> before <= g.dir;
      assert g in files ==> after == before[..|after|] == g.dir[..|after|];
    }
    forall other | Common(other, files + [f]) ensures other <= after {
      assert forall g :: g in files ==> g in files + [f];
      assert f in files + [f];
      assert Common(other, files);
      assert Both(other, before, f.dir);
    }
  }

  lemma TopOfAll(files: seq<Indexed>, i: nat)
    requires i <= |files| && CommonRoot([], files[..i])
    ensures CommonRoot([], files)
  {
    forall other | Common(other, files) ensures other <= [] {
      assert forall f :: f in files[..i] ==> f in files;
      assert Common(other, files[..i]);
    }
  }
}
