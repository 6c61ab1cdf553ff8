/** The path of a finding against the index, and one finding per location in a report
    (sgre/internal/cli/report.go:239-285). */
module FindingPaths {
  import opened Text
  import Paths
  import opened FirstPerKey

  // ---------- resolution ----------

  /** The indexed path is the given one, or ends in it at a component boundary. */
  predicate Matches(path: string, file: string) {
    path == file || HasSuffix(path, "/" + Paths.Clean(file))
  }

  /** The first of the shortest matches, with `best` found so far ("" when none is). */
  function Shortest(file: string, files: seq<string>, best: string): string {
    if files == [] then best
    else if Matches(files[0], file) && (best == "" || |files[0]| < |best|) then Shortest(file, files[1..], files[0])
    else Shortest(file, files[1..], best)
  }

  function Resolve(file: string, files: seq<string>): string {
    if file == "" || Paths.IsAbs(file) then file
    else
      var best := Shortest(file, files, "");
      if best != "" then best else file
  }

  method ResolvePath(file: string, files: seq<string>) returns (path: string)
    ensures path == Resolve(file, files)
  {
    if file == "" || Paths.IsAbs(file) {
      return file;
    }
    var best := "";
    assert files[0..] == files;
    for i := 0 to |files|
      invariant Shortest(file, files[i..], best) == Shortest(file, files, "")
    {
      assert files[i..][0] == files[i] && files[i..][1..] == files[i + 1..];
      if Matches(files[i], file) {
        if best == "" || |files[i]| < |best| {
          best := files[i];
        }
      }
    }
    return if best != "" then best else file;
  }

  /** No other match is shorter, and none as short stands earlier. */
  ghost predicate IsShortestMatch(file: string, files: seq<string>, i: nat) {
    && i < |files| && Matches(files[i], file)
    && forall j :: 0 <= j < |files| && Matches(files[j], file) ==>
      |files[i]| < |files[j]| || (|files[i]| == |files[j]| && i <= j)
  }

  lemma {:induction false} ShortestFound(file: string, files: seq<string>, best: string)
    requires file != ""
    ensures var r := Shortest(file, files, best);
            || (r == best && (best == "" ==> forall f :: f in files ==> !Matches(f, file))
                && forall f :: f in files && Matches(f, file) ==> |best| <= |f|)
            || (exists i: nat :: IsShortestMatch(file, files, i) && r == files[i] && (best == "" || |r| < |best|))
    decreases |files|
  {
    if files != [] {
      var taken := Matches(files[0], file) && (best == "" || |files[0]| < |best|);
      var next := if taken then files[0] else best;
      ShortestFound(file, files[1..], next);
      var r := Shortest(file, files[1..], next);
      var rest := files[1..];
      if i: nat :| IsShortestMatch(file, rest, i) && r == rest[i] && (next == "" || |r| < |next|) {
        ShiftMatch(file, files, i);
      } else if taken {
        FirstIsShortest(file, files);
      }
    }
  }

  lemma ShiftMatch(file: string, files: seq<string>, i: nat)
    requires files != [] && IsShortestMatch(file, files[1..], i)
    requires Matches(files[0], file) ==> |files[i + 1]| < |files[0]|
    ensures IsShortestMatch(file, files, i + 1)
  {
    forall j | 0 <= j < |files| && Matches(files[j], file)
      ensures |files[i + 1]| < |files[j]| || (|files[i + 1]| == |files[j]| && i + 1 <= j)
    {
      assert j > 0 ==> files[j] == files[1..][j - 1];
    }
  }

  lemma FirstIsShortest(file: string, files: seq<string>)
    requires files != [] && Matches(files[0], file)
    requires forall f :: f in files[1..] && Matches(f, file) ==> |files[0]| <= |f|
    ensures IsShortestMatch(file, files, 0)
  {
    forall j | 0 <= j < |files| && Matches(files[j], file) ensures |files[0]| < |files[j]| || |files[0]| == |files[j]| {
      assert j > 0 ==> files[j] in files[1..];
    }
  }

  /** A relative path resolves to the first of the shortest indexed paths that match it, and to
      itself if and only if none matches or it is indexed as it stands. */
  lemma ResolvesToAShortestMatch(file: string, files: seq<string>)
    requires file != "" && !Paths.IsAbs(file)
    ensures (exists i: nat :: IsShortestMatch(file, files, i) && Resolve(file, files) == files[i])
         || (Resolve(file, files) == file && forall f :: f in files ==> !Matches(f, file))
  {
    ShortestFound(file, files, "");
  }

  /** An indexed path is found from any clean tail of it. */
  lemma TailsResolve(root: string, tail: string, files: seq<string>)
    requires root + "/" + tail in files && tail != "" && Paths.Clean(tail) == tail && !Paths.IsAbs(tail)
    ensures Resolve(tail, files) in files && Matches(Resolve(tail, files), tail)
    ensures |Resolve(tail, files)| <= |root + "/" + tail|
  {
    var path := root + "/" + tail;
    assert path[|path| - |"/" + tail|..] == "/" + tail;
    assert Matches(path, tail);
    ResolvesToAShortestMatch(tail, files);
  }

  /** Indexed paths are absolute, or clean as they stand. */
  ghost predicate CanonicalIndex(files: seq<string>) {
    forall f :: f in files ==> Paths.IsAbs(f) || Paths.Clean(f) == f
  }

  lemma ResolveTwice(file: string, files: seq<string>)
    requires CanonicalIndex(files)
    ensures Resolve(Resolve(file, files), files) == Resolve(file, files)
  {
    if file != "" && !Paths.IsAbs(file) {
      ResolvesToAShortestMatch(file, files);
      var best := Resolve(file, files);
      if best in files && !Paths.IsAbs(best) && best != "" {
        ResolvesToAShortestMatch(best, files);
        assert Matches(best, best);
        assert forall f :: Matches(f, best) && f != best ==> |f| > |best|;
      }
    }
  }

  // ---------- one finding per location ----------

  datatype Row = Row(scan: string, rule: string, path: string, line: int, functionName: string, variable: string)

  function RowKey(r: Row): string {
    r.scan + NUL + (r.rule + NUL + (r.path + NUL + (Itoa(r.line) + NUL + (r.functionName + NUL + r.variable))))
  }

  function KeyOf(r: Row): seq<string> { [RowKey(r)] }

  function Normalized(r: Row, files: seq<string>): Row { r.(path := Resolve(r.path, files)) }

  function NormalizeAll(rows: seq<Row>, files: seq<string>): (all: seq<Row>)
    ensures |all| == |rows| && forall i :: 0 <= i < |rows| ==> all[i] == Normalized(rows[i], files)
  {
    if rows == [] then [] else [Normalized(rows[0], files)] + NormalizeAll(rows[1..], files)
  }

  ghost function Deduped(rows: seq<Row>, files: seq<string>): seq<Row> {
    Compact(NormalizeAll(rows, files), KeyOf, {})
  }

  class Finding {
    const scan: string
    const rule: string
    const line: int
    const functionName: string
    const variable: string
    var path: string

    constructor (r: Row)
      ensures View() == r
    {
      scan, rule, path, line, functionName, variable := r.scan, r.rule, r.path, r.line, r.functionName, r.variable;
    }

    function View(): Row
      reads this
    {
      Row(scan, rule, path, line, functionName, variable)
    }

    method Normalize(files: seq<string>)
      modifies this
      ensures View() == Normalized(old(View()), files)
    {
      path := ResolvePath(path, files);
    }
  }

  ghost function Views(fs: seq<Finding>): (rows: seq<Row>)
    reads fs
    ensures |rows| == |fs| && forall i :: 0 <= i < |fs| ==> rows[i] == fs[i].View()
  {
    if fs == [] then [] else [fs[0].View()] + Views(fs[1..])
  }

  lemma ViewsOfMore(fs: seq<Finding>, f: Finding)
    ensures Views(fs + [f]) == Views(fs) + [f.View()]
  {}

  lemma OneKey(r: Row, seen: set<string>)
    ensures NothingNew(KeyOf, r, seen) <==> RowKey(r) in seen
    ensures Mark(KeyOf, r, seen) == seen + {RowKey(r)}
  {
    assert forall k :: HasKey(KeyOf, r, k) <==> k == RowKey(r);
  }

  ghost predicate HalfNormalized(findings: seq<Finding>, was: seq<Row>, files: seq<string>, i: nat)
    requires i <= |findings| == |was|
    reads findings
  {
    && (forall j :: 0 <= j < i ==> findings[j].View() == Normalized(was[j], files))
    && (forall j :: i <= j < |findings| ==> findings[j].View() == was[j])
  }

  predicate Distinct(findings: seq<Finding>) {
    forall i, j :: 0 <= i < j < |findings| ==> findings[i] != findings[j]
  }

  method NormalizeOne(findings: seq<Finding>, ghost was: seq<Row>, files: seq<string>, i: nat, ghost out: seq<Finding>)
    requires i < |findings| == |was| && Distinct(findings) && HalfNormalized(findings, was, files, i)
    requires findings[i] !in out
    modifies findings[i]
    ensures HalfNormalized(findings, was, files, i + 1) && Views(out) == old(Views(out))
    ensures findings[i].View() == Normalized(was[i], files)
  {
    findings[i].Normalize(files);
  }

  predicate Among(out: seq<Finding>, findings: seq<Finding>, i: nat)
    requires i <= |findings|
  {
    forall f :: f in out ==> f in findings[..i]
  }

  lemma AmongMore(out: seq<Finding>, findings: seq<Finding>, i: nat)
    requires i < |findings| && Among(out, findings, i)
    ensures Among(out, findings, i + 1) && Among(out + [findings[i]], findings, i + 1)
  {
    assert findings[..i + 1] == findings[..i] + [findings[i]];
  }

  lemma NotYetOut(findings: seq<Finding>, out: seq<Finding>, i: nat)
    requires i < |findings| && Distinct(findings) && Among(out, findings, i)
    ensures findings[i] !in out
  {}

  lemma KeyStep(kept: seq<Row>, all: seq<Row>, i: nat, seen: set<string>)
    requires i < |all| && Track(kept, all, i, KeyOf, seen)
    ensures RowKey(all[i]) in seen ==> Track(kept, all, i + 1, KeyOf, seen)
    ensures RowKey(all[i]) !in seen ==> Track(kept + [all[i]], all, i + 1, KeyOf, seen + {RowKey(all[i])})
  {
    OneKey(all[i], seen);
    TrackStep(kept, all, i, KeyOf, seen);
  }

  lemma BeforeTheLoop(findings: seq<Finding>, files: seq<string>)
    ensures HalfNormalized(findings, Views(findings), files, 0)
  {}

  lemma AfterTheLoop(findings: seq<Finding>, was: seq<Row>, files: seq<string>)
    requires |findings| == |was| && HalfNormalized(findings, was, files, |findings|)
    ensures Views(findings) == NormalizeAll(was, files)
  {}

  /** One turn of the loop. */
  method TakeOne(findings: seq<Finding>, ghost was: seq<Row>, files: seq<string>, i: nat, seen: set<string>,
                 out: seq<Finding>)
    returns (seen': set<string>, out': seq<Finding>)
    requires i < |findings| == |was| && Distinct(findings) && HalfNormalized(findings, was, files, i)
    requires Among(out, findings, i) && Track(Views(out), NormalizeAll(was, files), i, KeyOf, seen)
    modifies findings[i]
    ensures HalfNormalized(findings, was, files, i + 1)
    ensures Among(out', findings, i + 1) && Track(Views(out'), NormalizeAll(was, files), i + 1, KeyOf, seen')
  {
    NotYetOut(findings, out, i);
    NormalizeOne(findings, was, files, i, out);
    KeyStep(Views(out), NormalizeAll(was, files), i, seen);
    AmongMore(out, findings, i);
    seen', out' := seen, out;
    var key := RowKey(findings[i].View());
    if key !in seen {
      seen' := seen + {key};
      ViewsOfMore(out, findings[i]);
      out' := out + [findings[i]];
    }
  }

  /** Rewrites every finding's path in place and returns the first finding of each location. */
  method DedupeAndNormalize(findings: seq<Finding>, files: seq<string>) returns (out: seq<Finding>)
    requires Distinct(findings)
    modifies findings
    ensures Views(findings) == NormalizeAll(old(Views(findings)), files)
    ensures Views(out) == Deduped(old(Views(findings)), files)
    ensures Among(out, findings, |findings|)
  {
    ghost var was := Views(findings);
    var seen: set<string> := {};
    out := [];
    var i := 0;
    BeforeTheLoop(findings, files);
    TrackEnds([], NormalizeAll(was, files), KeyOf, {});
    while i < |findings|
      invariant i <= |findings| && HalfNormalized(findings, was, files, i)
      invariant Among(out, findings, i)
      invariant Track(Views(out), NormalizeAll(was, files), i, KeyOf, seen)
    {
      seen, out := TakeOne(findings, was, files, i, seen, out);
      i := i + 1;
    }
    AfterTheLoop(findings, was, files);
    TrackEnds(Views(out), NormalizeAll(was, files), KeyOf, seen);
  }

  /** A location key stands for one row when the names before it hold no NUL. */
  lemma RowKeysAreFaithful(a: Row, b: Row)
    requires '\0' !in a.scan && '\0' !in b.scan && '\0' !in a.rule && '\0' !in b.rule
    requires '\0' !in a.path && '\0' !in b.path && '\0' !in a.functionName && '\0' !in b.functionName
    ensures RowKey(a) == RowKey(b) <==> a == b
  {
    var a3, b3 := a.functionName + NUL + a.variable, b.functionName + NUL + b.variable;
    var a2, b2 := Itoa(a.line) + NUL + a3, Itoa(b.line) + NUL + b3;
    var a1, b1 := a.path + NUL + a2, b.path + NUL + b2;
    FirstField(a.scan, a.rule + NUL + a1, b.scan, b.rule + NUL + b1);
    FirstField(a.rule, a1, b.rule, b1);
    FirstField(a.path, a2, b.path, b2);
    FirstField(Itoa(a.line), a3, Itoa(b.line), b3);
    FirstField(a.functionName, a.variable, b.functionName, b.variable);
    ItoaIsUnique(a.line, b.line);
  }

  /** The row is the first of its key after normalisation. */
  ghost predicate FirstOfItsKey(rows: seq<Row>, files: seq<string>, i: nat)
    requires i < |rows|
  {
    forall j :: 0 <= j < i ==> RowKey(Normalized(rows[j], files)) != RowKey(Normalized(rows[i], files))
  }

  lemma OpensIsFirst(rows: seq<Row>, files: seq<string>, i: nat)
    requires i < |rows|
    ensures Opens(NormalizeAll(rows, files), KeyOf, i, {}) <==> FirstOfItsKey(rows, files, i)
  {
    var all := NormalizeAll(rows, files);
    assert forall j, k :: 0 <= j < |all| ==> (HasKey(KeyOf, all[j], k) <==> k == RowKey(all[j]));
    assert OpensKey(all, KeyOf, i, {}, RowKey(all[i])) <==> FirstOfItsKey(rows, files, i);
  }

  /** The result is, in order and normalised, exactly the rows that are the first of their key; so
      no key is lost and none is kept twice. */
  lemma KeepsTheFirstOfEachKey(rows: seq<Row>, files: seq<string>) returns (positions: seq<nat>)
    ensures |positions| == |Deduped(rows, files)|
    ensures forall m, n :: 0 <= m < n < |positions| ==> positions[m] < positions[n]
    ensures forall m :: 0 <= m < |positions| ==>
      positions[m] < |rows| && Deduped(rows, files)[m] == Normalized(rows[positions[m]], files)
    ensures forall i :: 0 <= i < |rows| ==> (i in positions <==> FirstOfItsKey(rows, files, i))
  {
    positions := KeptInOrder(NormalizeAll(rows, files), KeyOf, {});
    forall i | 0 <= i < |rows| ensures i in positions <==> FirstOfItsKey(rows, files, i) {
      OpensIsFirst(rows, files, i);
    }
  }

  /** With absolute or clean indexed paths a second pass changes nothing. */
  lemma DedupeTwice(rows: seq<Row>, files: seq<string>)
    requires CanonicalIndex(files)
    ensures Deduped(Deduped(rows, files), files) == Deduped(rows, files)
  {
    var kept := Deduped(rows, files);
    var positions := KeptInOrder(NormalizeAll(rows, files), KeyOf, {});
    forall m | 0 <= m < |kept| ensures Normalized(kept[m], files) == kept[m] {
      ResolveTwice(rows[positions[m]].path, files);
    }
    assert NormalizeAll(kept, files) == kept;
    CompactTwice(NormalizeAll(rows, files), KeyOf);
  }
}
