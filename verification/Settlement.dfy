/** Listing the settlement reports of the subagents (sgre/internal/cli/reports.go:82-224): which
    snapshot of a batch is authoritative. */
module Settlement {
  import opened Options
  import opened Text
  import opened Ordering
  import opened FirstPerKey

  datatype TypeCount = TypeCount(vulnType: string, range: string)

  datatype Body =
    | Garbled
    | Parsed(formatVersion: int, subagent: string, scan: string, processed: seq<TypeCount>, failed: nat)

  /** A directory entry with its content and its age since the last write. */
  datatype Entry = Entry(name: string, isDir: bool, readable: bool, body: Body, mtime: int, age: int)

  datatype Report = Report(file: string, subagent: string, scan: string, processed: seq<TypeCount>, valid: bool,
                           mtime: int, stalled: bool)

  // ---------- reading the directory ----------

  predicate IsChunk(name: string) { Contains(name, "-chunk-") }

  predicate IsSettlementFile(name: string) {
    HasSuffix(name, ".json") && (Contains(name, "-report") || IsChunk(name))
  }

  function CutBefore(base: string, sep: string): Option<string> {
    var i := Index(base, sep);
    if i > 0 then Some(base[..i]) else None
  }

  function SubagentFromFile(name: string): string {
    var base := if HasSuffix(name, ".json") then name[..|name| - 5] else name;
    match CutBefore(base, "-report")
    case Some(id) => id
    case None => match CutBefore(base, "-chunk-") case Some(id) => id case None => base
  }

  /** A settlement file becomes a report, unless it belongs to another scan. `stall` is the
      heartbeat window. */
  function ReadEntry(dir: string, e: Entry, scanID: string, stall: int): Option<Report> {
    if e.isDir || !IsSettlementFile(e.name) || !e.readable then None
    else
      var id := SubagentFromFile(e.name);
      var age := if e.age < 0 then 0 else e.age;
      var rep := match e.body
        case Garbled => Report(dir + "/" + e.name, id, "", [], false, e.mtime, false)
        case Parsed(version, subagent, scan, processed, failed) =>
          var complete := version == 1 && (|processed| > 0 || failed > 0);
          Report(dir + "/" + e.name, if subagent != "" then subagent else id, scan, processed,
                 complete && !IsChunk(e.name), e.mtime, false);
      if scanID != "" && rep.scan != "" && rep.scan != scanID then None
      else Some(rep.(stalled := !rep.valid && age >= stall))
  }

  function ReadAll(dir: string, es: seq<Entry>, scanID: string, stall: int): seq<Report> {
    if es == [] then []
    else
      var rest := ReadAll(dir, es[1..], scanID, stall);
      match ReadEntry(dir, es[0], scanID, stall) case None => rest case Some(rep) => [rep] + rest
  }

  // ---------- selection ----------

  /** Valid before invalid, then newer before older, then the smaller file name. */
  predicate Before(a: Report, b: Report) {
    if a.valid != b.valid then a.valid else Newer(a, b)
  }

  predicate Newer(a: Report, b: Report) {
    if a.mtime != b.mtime then a.mtime > b.mtime else StringLess(a.file, b.file)
  }

  function NormalizeRange(range: string): (r: string)
    ensures r != ""
  {
    if TrimSpace(range) == "" then "all" else TrimSpace(range)
  }

  function TypeKey(subagent: string, pt: TypeCount): string {
    subagent + NUL + (pt.vulnType + NUL + NormalizeRange(pt.range))
  }

  /** The identity keys of a report: one per processed type, or the subagent alone. */
  function Keys(rep: Report): (keys: seq<string>)
    ensures keys != []
  {
    if rep.processed == [] then [rep.subagent + NUL + NUL]
    else seq(|rep.processed|, i requires 0 <= i < |rep.processed| => TypeKey(rep.subagent, rep.processed[i]))
  }

  ghost function Settled(reports: seq<Report>): seq<Report> {
    Sort(Compact(Sort(reports, Before), Keys, {}), Newer)
  }

  /** sort.SliceStable on the first n places. */
  method SortPrefix(reports: array<Report>, n: nat, less: (Report, Report) -> bool)
    requires n <= reports.Length
    modifies reports
    ensures reports[..n] == Sort(old(reports[..n]), less)
  {
    var sorted := Sort(reports[..n], less);
    SortContents(reports[..n], less);
    forall i | 0 <= i < n {
      reports[i] := sorted[i];
    }
  }

  /** The listing: sort, compact, sort again, all in the same backing array. */
  method ListReports(reports: array<Report>) returns (count: nat)
    modifies reports
    ensures count <= reports.Length
    ensures reports[..count] == Settled(old(reports[..]))
  {
    assert reports[..reports.Length] == reports[..];
    SortPrefix(reports, reports.Length, Before);
    assert reports[..reports.Length] == reports[..];
    count := CompactInPlace(reports, Keys);
    SortPrefix(reports, count, Newer);
  }

  // ---------- what is kept ----------

  /** A file holds one report. */
  ghost predicate FilesIdentify(reports: seq<Report>) {
    forall a, b :: a in reports && b in reports && a.file == b.file ==> a == b
  }

  lemma NewerIsOneWay(a: Report, b: Report)
    ensures !(Newer(a, b) && Newer(b, a))
  {
    StringLessIsOneWay(a.file, b.file);
  }

  lemma NewerBetween(a: Report, b: Report, c: Report)
    requires Newer(a, c)
    ensures Newer(a, b) || Newer(b, c)
  {
    if a.mtime == b.mtime == c.mtime {
      StringLessBetween(a.file, b.file, c.file);
    }
  }

  lemma NewerIsWeakOrder()
    ensures WeakOrder(Newer)
  {
    forall a, b | Newer(a, b) ensures !Newer(b, a) {
      NewerIsOneWay(a, b);
    }
    forall a, b, c | Newer(a, c) ensures Newer(a, b) || Newer(b, c) {
      NewerBetween(a, b, c);
    }
  }

  lemma BeforeIsWeakOrder()
    ensures WeakOrder(Before)
  {
    forall a, b | Before(a, b) ensures !Before(b, a) {
      NewerIsOneWay(a, b);
    }
    forall a, b, c | Before(a, c) ensures Before(a, b) || Before(b, c) {
      if a.valid == b.valid == c.valid {
        NewerBetween(a, b, c);
      }
    }
  }

  lemma FilesLeaveNoTie(a: Report, b: Report)
    requires a.file != b.file
    ensures Newer(a, b) || Newer(b, a)
    ensures Before(a, b) || Before(b, a)
  {
    StringLessIsOneWay(a.file, b.file);
  }

  lemma FilesTieFree(reports: seq<Report>)
    requires FilesIdentify(reports)
    ensures TieFree(reports, Before) && TieFree(reports, Newer)
  {
    forall i, j | 0 <= i < |reports| && 0 <= j < |reports|
      ensures reports[i] == reports[j] || (Before(reports[i], reports[j]) || Before(reports[j], reports[i]))
      ensures reports[i] == reports[j] || (Newer(reports[i], reports[j]) || Newer(reports[j], reports[i]))
    {
      if reports[i].file == reports[j].file {
        assert reports[i] in reports && reports[j] in reports;
      } else {
        FilesLeaveNoTie(reports[i], reports[j]);
      }
    }
  }

  /** r comes first among the reports with this key. */
  ghost predicate Leader(reports: seq<Report>, k: string, r: Report) {
    r in reports && HasKey(Keys, r, k)
    && forall q :: q in reports && HasKey(Keys, q, k) ==> q == r || Before(r, q)
  }

  lemma SettledMembers(reports: seq<Report>)
    ensures forall r :: r in Settled(reports) <==> r in Compact(Sort(reports, Before), Keys, {})
  {
    SortMembers(Compact(Sort(reports, Before), Keys, {}), Newer);
  }

  /** In the sorted list, opening a key and leading it are the same. */
  lemma OpenersLead(reports: seq<Report>, i: nat, k: string)
    requires FilesIdentify(reports) && i < |Sort(reports, Before)| && OpensKey(Sort(reports, Before), Keys, i, {}, k)
    ensures Leader(reports, k, Sort(reports, Before)[i])
  {
    var s := Sort(reports, Before);
    SortMembers(reports, Before);
    BeforeIsWeakOrder();
    SortIsSorted(reports, Before);
    forall q | q in reports && HasKey(Keys, q, k) ensures q == s[i] || Before(s[i], q) {
      var j :| 0 <= j < |s| && s[j] == q;
      assert j >= i;
      assert s[i] in reports && q in reports;
      if j > i && q != s[i] {
        assert !Before(s[j], s[i]);
        FilesLeaveNoTie(s[i], q);
      }
    }
  }

  /** Nothing with the key comes strictly before the position that opens it. */
  lemma OpenerIsNotBehind(s: seq<Report>, i: nat, k: string, r: Report)
    requires Sorted(s, Before) && i < |s| && OpensKey(s, Keys, i, {}, k) && r in s && HasKey(Keys, r, k)
    ensures s[i] == r || !Before(r, s[i])
  {
    var j :| 0 <= j < |s| && s[j] == r;
    assert i <= j;
  }

  lemma LeadersOpen(reports: seq<Report>, k: string, r: Report) returns (i: nat)
    requires Leader(reports, k, r)
    ensures i < |Sort(reports, Before)| && Sort(reports, Before)[i] == r
    ensures OpensKey(Sort(reports, Before), Keys, i, {}, k)
  {
    var s := Sort(reports, Before);
    SortMembers(reports, Before);
    BeforeIsWeakOrder();
    SortIsSorted(reports, Before);
    i := FirstWithKey(s, Keys, k, r);
    OpenerIsNotBehind(s, i, k, r);
    assert s[i] in reports && HasKey(Keys, s[i], k);
  }

  /** Selection: the listed reports are exactly those that come first, in the order (valid, newer,
      smaller file name), for at least one of their keys; they are listed newest first. */
  lemma KeptExactlyTheLeaders(reports: seq<Report>)
    requires FilesIdentify(reports)
    ensures forall r :: r in Settled(reports) <==> exists k :: Leader(reports, k, r)
    ensures Sorted(Settled(reports), Newer)
  {
    var s := Sort(reports, Before);
    SettledMembers(reports);
    NewerIsWeakOrder();
    SortIsSorted(Compact(s, Keys, {}), Newer);
    forall r ensures r in Settled(reports) <==> exists k :: Leader(reports, k, r) {
      if r in Settled(reports) {
        var i, k := KeptOpenAKey(s, Keys, {}, r);
        OpenersLead(reports, i, k);
      }
      if k :| Leader(reports, k, r) {
        var i := LeadersOpen(reports, k, r);
        OpenersAreKept(s, Keys, {}, i, k);
      }
    }
  }

  /** Coverage: for every key of every report, the report that leads the key is listed. */
  lemma NoKeyLosesCoverage(reports: seq<Report>, r: Report, k: string) returns (best: Report)
    requires FilesIdentify(reports) && r in reports && HasKey(Keys, r, k)
    ensures best in Settled(reports) && Leader(reports, k, best)
  {
    var s := Sort(reports, Before);
    SortMembers(reports, Before);
    var i := FirstWithKey(s, Keys, k, r);
    best := s[i];
    OpenersLead(reports, i, k);
    KeptExactlyTheLeaders(reports);
  }

  /** A valid report that is dropped has every key covered by a listed valid report that is newer,
      or as new with a smaller name: neither a chunk nor a broken file displaces it. */
  lemma ValidIsDisplacedByValid(reports: seq<Report>, r: Report, k: string) returns (best: Report)
    requires FilesIdentify(reports) && r in reports && r.valid && r !in Settled(reports) && HasKey(Keys, r, k)
    ensures best in Settled(reports) && HasKey(Keys, best, k) && best.valid && Newer(best, r)
  {
    best := NoKeyLosesCoverage(reports, r, k);
  }

  /** The listing does not depend on the order the directory is read in. */
  lemma DirectoryOrderIsForgotten(reports: seq<Report>, others: seq<Report>)
    requires FilesIdentify(reports) && multiset(reports) == multiset(others)
    ensures Settled(reports) == Settled(others)
  {
    BeforeIsWeakOrder();
    FilesTieFree(reports);
    SortForgetsOrder(reports, others, Before);
  }

  // ---------- one record per batch ----------

  /** q comes before r and shares a key with it. */
  ghost predicate Shares(reports: seq<Report>, q: Report, r: Report, k: string) {
    HasKey(Keys, r, k) && q in reports && HasKey(Keys, q, k) && Before(q, r)
  }

  /** Some keys of r are taken by earlier reports and some are not. */
  ghost predicate Straddles(reports: seq<Report>, r: Report) {
    (exists k :: Leader(reports, k, r)) && (exists k, q :: Shares(reports, q, r, k))
  }

  ghost predicate OneRecordPerKey(listed: seq<Report>) {
    forall a, b, k :: a in listed && b in listed && HasKey(Keys, a, k) && HasKey(Keys, b, k) ==> a == b
  }

  /** A key is listed once if and only if no report has some keys taken by earlier reports and
      leads another. */
  lemma OneRecordPerKeyIffNoStraddling(reports: seq<Report>)
    requires FilesIdentify(reports)
    ensures OneRecordPerKey(Settled(reports)) <==> forall r :: r in reports ==> !Straddles(reports, r)
  {
    KeptExactlyTheLeaders(reports);
    var listed := Settled(reports);
    if OneRecordPerKey(listed) {
      forall r | r in reports ensures !Straddles(reports, r) {
        if Straddles(reports, r) {
          var k, q :| Shares(reports, q, r, k);
          StraddlerSharesAKey(reports, q, r, k);
        }
      }
    }
    if !OneRecordPerKey(listed) {
      var a, b, k :| a in listed && b in listed && HasKey(Keys, a, k) && HasKey(Keys, b, k) && a != b;
      ListedTwiceStraddles(reports, a, b, k);
    }
  }

  lemma StraddlerSharesAKey(reports: seq<Report>, q: Report, r: Report, k: string)
    requires FilesIdentify(reports) && Straddles(reports, r) && Shares(reports, q, r, k)
    ensures !OneRecordPerKey(Settled(reports))
  {
    var best := NoKeyLosesCoverage(reports, q, k);
    KeptExactlyTheLeaders(reports);
    BeforeIsWeakOrder();
    assert best == q || Before(best, q);
    assert best != r;
  }

  lemma ListedTwiceStraddles(reports: seq<Report>, a: Report, b: Report, k: string)
    requires FilesIdentify(reports) && a in Settled(reports) && b in Settled(reports) && a != b
    requires HasKey(Keys, a, k) && HasKey(Keys, b, k)
    ensures exists r :: r in reports && Straddles(reports, r)
  {
    KeptExactlyTheLeaders(reports);
    var i :| Leader(reports, i, a);
    var j :| Leader(reports, j, b);
    assert a.file != b.file;
    FilesLeaveNoTie(a, b);
    assert Shares(reports, a, b, k) || Shares(reports, b, a, k);
  }

  /** A newer snapshot of one type and an older snapshot of that type and another are both listed,
      and both count for the shared type. */
  lemma OverlappingSnapshotsAreBothListed(newer: Report, older: Report, a: TypeCount, b: TypeCount)
    requires newer.subagent == older.subagent && newer.file != older.file
    requires newer.valid && older.valid && newer.mtime > older.mtime
    requires newer.processed == [a] && older.processed == [a, b] && a.vulnType != b.vulnType
    requires '\0' !in newer.subagent && '\0' !in a.vulnType && '\0' !in b.vulnType
    ensures exists k :: HasKey(Keys, newer, k) && HasKey(Keys, older, k)
    ensures newer in Settled([older, newer]) && older in Settled([older, newer])
  {
    ProcessedKey(older, 0);
    ProcessedKey(older, 1);
    OnlyKey(newer);
    TypeKeysDiffer(newer.subagent, a, b);
    PairIsListed(newer, older, TypeKey(newer.subagent, a), TypeKey(newer.subagent, b));
  }

  lemma ProcessedKey(r: Report, i: nat)
    requires i < |r.processed|
    ensures HasKey(Keys, r, TypeKey(r.subagent, r.processed[i]))
  {
    assert Keys(r)[i] == TypeKey(r.subagent, r.processed[i]);
  }

  lemma OnlyKey(r: Report)
    requires |r.processed| == 1
    ensures forall k :: HasKey(Keys, r, k) <==> k == TypeKey(r.subagent, r.processed[0])
  {
    assert Keys(r) == [TypeKey(r.subagent, r.processed[0])];
  }

  lemma PairIsListed(first: Report, second: Report, k: string, l: string)
    requires first.file != second.file && Before(first, second)
    requires HasKey(Keys, first, k) && HasKey(Keys, second, l) && !HasKey(Keys, first, l)
    ensures first in Settled([second, first]) && second in Settled([second, first])
  {
    var reports := [second, first];
    assert Leader(reports, k, first) && Leader(reports, l, second);
    KeptExactlyTheLeaders(reports);
  }

  lemma TypeKeysDiffer(subagent: string, a: TypeCount, b: TypeCount)
    requires '\0' !in subagent && '\0' !in a.vulnType && '\0' !in b.vulnType && a.vulnType != b.vulnType
    ensures TypeKey(subagent, a) != TypeKey(subagent, b)
  {
    KeysAreFaithful(subagent, a, subagent, b);
  }

  // ---------- keys and files ----------

  /** A key stands for one subagent, type and normalised range when no name holds NUL; the key of a
      report without processed types is never one of these. */
  lemma KeysAreFaithful(s: string, a: TypeCount, t: string, b: TypeCount)
    requires '\0' !in s && '\0' !in t && '\0' !in a.vulnType && '\0' !in b.vulnType
    ensures TypeKey(s, a) == TypeKey(t, b) <==>
        s == t && a.vulnType == b.vulnType && NormalizeRange(a.range) == NormalizeRange(b.range)
    ensures TypeKey(s, a) != t + NUL + NUL
  {
    FirstField(s, a.vulnType + NUL + NormalizeRange(a.range), t, b.vulnType + NUL + NormalizeRange(b.range));
    FirstField(a.vulnType, NormalizeRange(a.range), b.vulnType, NormalizeRange(b.range));
    FirstField(s, a.vulnType + NUL + NormalizeRange(a.range), t, NUL);
    FirstField(a.vulnType, NormalizeRange(a.range), "", "");
    assert "" + NUL + "" == NUL;
  }

  ghost predicate ReadFrom(dir: string, es: seq<Entry>, scanID: string, stall: int, r: Report) {
    exists e :: e in es && ReadEntry(dir, e, scanID, stall) == Some(r)
  }

  lemma ReadFirst(dir: string, es: seq<Entry>, scanID: string, stall: int, r: Report)
    requires es != []
    ensures r in ReadAll(dir, es, scanID, stall) <==>
        ReadEntry(dir, es[0], scanID, stall) == Some(r) || r in ReadAll(dir, es[1..], scanID, stall)
    ensures ReadFrom(dir, es, scanID, stall, r) <==>
        ReadEntry(dir, es[0], scanID, stall) == Some(r) || ReadFrom(dir, es[1..], scanID, stall, r)
  {
    assert forall e :: e in es <==> e == es[0] || e in es[1..];
  }

  /** Reports come from the entries one by one. */
  lemma {:induction false} ReadAllMembers(dir: string, es: seq<Entry>, scanID: string, stall: int, r: Report)
    ensures r in ReadAll(dir, es, scanID, stall) <==> ReadFrom(dir, es, scanID, stall, r)
  {
    if es != [] {
      ReadAllMembers(dir, es[1..], scanID, stall, r);
      ReadFirst(dir, es, scanID, stall, r);
    }
  }

  /** Over a whole directory whose file names differ: a chunk is never valid, so a settled range is
      always listed with a report that is a completion signal. */
  lemma SettledRangeStaysSettled(dir: string, es: seq<Entry>, scanID: string, stall: int, r: Report, k: string)
    returns (best: Report, from: Entry)
    requires forall a, b :: a in es && b in es && a.name == b.name ==> a == b
    requires r in ReadAll(dir, es, scanID, stall) && r.valid && HasKey(Keys, r, k)
    ensures best in Settled(ReadAll(dir, es, scanID, stall)) && HasKey(Keys, best, k) && best.valid
    ensures from in es && ReadEntry(dir, from, scanID, stall) == Some(best) && !IsChunk(from.name)
  {
    var reports := ReadAll(dir, es, scanID, stall);
    EntriesIdentify(dir, es, scanID, stall);
    best := NoKeyLosesCoverage(reports, r, k);
    assert best == r || Before(best, r);
    ReadAllMembers(dir, es, scanID, stall, best);
    from :| from in es && ReadEntry(dir, from, scanID, stall) == Some(best);
  }

  lemma EntriesIdentify(dir: string, es: seq<Entry>, scanID: string, stall: int)
    requires forall a, b :: a in es && b in es && a.name == b.name ==> a == b
    ensures FilesIdentify(ReadAll(dir, es, scanID, stall))
  {
    var reports := ReadAll(dir, es, scanID, stall);
    forall a, b | a in reports && b in reports && a.file == b.file ensures a == b {
      ReadAllMembers(dir, es, scanID, stall, a);
      ReadAllMembers(dir, es, scanID, stall, b);
      var d :| d in es && ReadEntry(dir, d, scanID, stall) == Some(a);
      var e :| e in es && ReadEntry(dir, e, scanID, stall) == Some(b);
      assert a.file == dir + "/" + d.name && b.file == dir + "/" + e.name;
      assert a.file[|dir| + 1..] == d.name && b.file[|dir| + 1..] == e.name;
    }
  }
}
