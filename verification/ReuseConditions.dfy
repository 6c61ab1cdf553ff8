/** When a reuse is right whatever the builders and detectors compute (pipeline.go:133-389): conditions
    on what a caller can compare before the call, the files, the configuration, the slot table and the
    skip sets. */
module ReuseConditions {
  import opened Options
  import opened GraphReuse

  // ---------- engines that tell builds apart ----------

  /** One builder and some detectors; the graph is `mark` of the inputs. */
  function Probe(pass: Snapshot -> Facts, mark: Inputs -> Facts, names: set<string>,
                 seen: (string, Facts) -> Facts): Engine {
    Engine(pass, (b, i) => if b == "call_graph" then mark(i) else {}, names, (d, s, c, g) => seen(d, g))
  }

  lemma ProbeGraph(pass: Snapshot -> Facts, mark: Inputs -> Facts, names: set<string>, seen: (string, Facts) -> Facts,
                   i: Inputs)
    ensures GraphOf(Probe(pass, mark, names, seen), i) == mark(i)
  {
    var e := Probe(pass, mark, names, seen);
    assert "call_graph" in Builders;
    forall f ensures f in GraphOf(e, i) <==> f in mark(i) {
      assert f in e.builder("call_graph", i) <==> f in mark(i);
    }
  }

  lemma ProbeEvents(pass: Snapshot -> Facts, mark: Inputs -> Facts, names: set<string>,
                    seen: (string, Facts) -> Facts, b: Build)
    ensures forall f :: f in EventsOf(Probe(pass, mark, names, seen), b) <==>
                        exists d :: d in names - b.skip - b.lost && f in seen(d, mark(b.inputs))
  {
    var e := Probe(pass, mark, names, seen);
    ProbeGraph(pass, mark, names, seen, b.inputs);
    forall f, d ensures f in e.detector(d, b.inputs.input, b.inputs.config, mark(b.inputs)) <==>
        f in seen(d, mark(b.inputs)) {}
  }

  lemma {:induction false} NewName(names: set<string>) returns (n: string)
    ensures forall t :: t in names ==> |t| < |n|
    ensures n !in names
  {
    if names == {} {
      n := "";
    } else {
      var t :| t in names;
      var m := NewName(names - {t});
      n := m + t + "x";
      forall u | u in names ensures |u| < |n| {
        assert u == t || u in names - {t};
      }
    }
  }

  // ---------- the core ----------

  /** The tables that a gate lets through. */
  ghost predicate Shown(e: Engine, c: Inputs, missing: Facts, b: Build) {
    GraphOf(e, c) - missing != {} && EventsOf(e, b) != {}
  }

  /** A graph of inputs c without the missing facts, and the events of build b, are what build f
      computes. */
  ghost predicate Agrees(e: Engine, c: Inputs, missing: Facts, b: Build, f: Build) {
    GraphOf(e, c) - missing == GraphOf(e, f.inputs) && EventsOf(e, b) == EventsOf(e, f)
  }

  /** Nothing is missing, graph and events are of the inputs of f, and the same detectors ran. */
  predicate Same(c: Inputs, missing: Facts, b: Build, f: Build) {
    missing == {} && c == f.inputs && b.inputs == f.inputs && b.skip + b.lost == f.skip + f.lost
  }

  function Const(facts: Facts): Inputs -> Facts { i => facts }

  function Tell(inputs: Inputs): Inputs -> Facts { i => if i == inputs then {"x"} else {"y"} }

  function Name(): (string, Facts) -> Facts { (d, g) => {d} }

  function Copy(): (string, Facts) -> Facts { (d, g) => g }

  /** A builder that writes a fact that was missing. */
  lemma MissingFactShows(pass: Snapshot -> Facts, c: Inputs, missing: Facts, b: Build, f: Build, n: string)
    returns (e: Engine)
    requires missing != {} && n !in b.skip + b.lost + f.skip + f.lost + missing
    ensures e.slotPass == pass && Shown(e, c, missing, b) && !Agrees(e, c, missing, b, f)
  {
    var m :| m in missing;
    e := Probe(pass, Const({m, n}), {n}, Name());
    ProbeGraph(pass, Const({m, n}), {n}, Name(), c);
    ProbeGraph(pass, Const({m, n}), {n}, Name(), f.inputs);
    ProbeEvents(pass, Const({m, n}), {n}, Name(), b);
    assert n in Name()(n, Const({m, n})(b.inputs)) && n in EventsOf(e, b);
    assert n in {m, n} - missing && m !in {m, n} - missing;
  }

  /** A builder that tells the inputs apart. */
  lemma OtherGraphShows(pass: Snapshot -> Facts, c: Inputs, b: Build, f: Build, n: string)
    returns (e: Engine)
    requires c != f.inputs && n !in b.skip + b.lost + f.skip + f.lost
    ensures e.slotPass == pass && Shown(e, c, {}, b) && !Agrees(e, c, {}, b, f)
  {
    e := Probe(pass, Tell(c), {n}, Name());
    ProbeGraph(pass, Tell(c), {n}, Name(), c);
    ProbeGraph(pass, Tell(c), {n}, Name(), f.inputs);
    ProbeEvents(pass, Tell(c), {n}, Name(), b);
    assert n in Name()(n, Tell(c)(b.inputs)) && n in EventsOf(e, b);
    assert "x" in GraphOf(e, c) - {} && "x" !in {"y"};
  }

  /** A detector that repeats the graph it was given. */
  lemma OtherEventsShow(pass: Snapshot -> Facts, b: Build, f: Build, n: string) returns (e: Engine)
    requires b.inputs != f.inputs && n !in b.skip + b.lost + f.skip + f.lost
    ensures e.slotPass == pass && Shown(e, f.inputs, {}, b) && !Agrees(e, f.inputs, {}, b, f)
  {
    var mark := Tell(f.inputs);
    e := Probe(pass, mark, {n}, Copy());
    ProbeGraph(pass, mark, {n}, Copy(), f.inputs);
    ProbeEvents(pass, mark, {n}, Copy(), b);
    ProbeEvents(pass, mark, {n}, Copy(), f);
    assert mark(f.inputs) == {"x"} && mark(b.inputs) == {"y"};
    assert "y" in Copy()(n, mark(b.inputs)) && "y" in EventsOf(e, b);
    assert forall d :: "y" !in Copy()(d, mark(f.inputs));
    assert "x" in GraphOf(e, f.inputs) - {};
  }

  /** A detector that ran for one of the builds only. */
  lemma OtherDetectorsShow(pass: Snapshot -> Facts, b: Build, f: Build, n: string) returns (e: Engine)
    requires b.inputs == f.inputs && b.skip + b.lost != f.skip + f.lost && n !in b.skip + b.lost + f.skip + f.lost
    ensures e.slotPass == pass && Shown(e, f.inputs, {}, b) && !Agrees(e, f.inputs, {}, b, f)
  {
    var d :| (d in b.skip + b.lost) != (d in f.skip + f.lost);
    var mark := Const({"x"});
    e := Probe(pass, mark, {n, d}, Name());
    ProbeGraph(pass, mark, {n, d}, Name(), f.inputs);
    ProbeEvents(pass, mark, {n, d}, Name(), b);
    ProbeEvents(pass, mark, {n, d}, Name(), f);
    assert n in Name()(n, mark(b.inputs)) && n in EventsOf(e, b);
    assert "x" in GraphOf(e, f.inputs) - {};
    forall x, g: Facts ensures d in Name()(x, g) <==> x == d {}
    assert (d in EventsOf(e, b)) == (d in {n, d} - b.skip - b.lost);
    assert (d in EventsOf(e, f)) == (d in {n, d} - f.skip - f.lost);
  }

  lemma SomeEngineDisagrees(pass: Snapshot -> Facts, c: Inputs, missing: Facts, b: Build, f: Build) returns (e: Engine)
    requires !Same(c, missing, b, f)
    ensures e.slotPass == pass && Shown(e, c, missing, b) && !Agrees(e, c, missing, b, f)
  {
    var n := NewName(b.skip + b.lost + f.skip + f.lost + missing);
    if missing != {} {
      e := MissingFactShows(pass, c, missing, b, f, n);
    } else if c != f.inputs {
      e := OtherGraphShows(pass, c, b, f, n);
    } else if b.inputs != f.inputs {
      e := OtherEventsShow(pass, b, f, n);
    } else {
      e := OtherDetectorsShow(pass, b, f, n);
    }
  }

  lemma SameAgrees(e: Engine, c: Inputs, missing: Facts, b: Build, f: Build)
    requires Same(c, missing, b, f)
    ensures Agrees(e, c, missing, b, f)
  {
    assert GraphOf(e, c) - {} == GraphOf(e, c);
    assert e.detectors - b.skip - b.lost == e.detectors - (b.skip + b.lost) == e.detectors - f.skip - f.lost;
  }

  /** What is left in the tables agrees with a build for every engine with this slot pass if and only
      if it is made of the same. */
  lemma OnlyTheSameAlwaysAgrees(pass: Snapshot -> Facts, c: Inputs, missing: Facts, b: Build, f: Build)
    ensures (forall e: Engine :: e.slotPass == pass && Shown(e, c, missing, b) ==> Agrees(e, c, missing, b, f)) <==>
            Same(c, missing, b, f)
  {
    if Same(c, missing, b, f) {
      forall e: Engine | e.slotPass == pass && Shown(e, c, missing, b) ensures Agrees(e, c, missing, b, f) {
        SameAgrees(e, c, missing, b, f);
      }
    } else {
      var e := SomeEngineDisagrees(pass, c, missing, b, f);
    }
  }

  // ---------- from the tables to the runs ----------

  /** The part of the reuse gate that does not look into the graph and event tables. */
  predicate Gate(db: DB, run: Run) {
    && run.command == Scan && run.stop != Indexing && FilesChanged(db.rows, run) == 0
    && run.edgesSeen && run.eventsSeen && db.checksum == Some(run.config) && db.complete
  }

  lemma GateAndTables(db: DB, run: Run)
    ensures Reuses(db, run) <==> Gate(db, run) && db.graph != {} && db.events != {}
  {}

  /** Every engine with this slot pass leaves the same store but for its own tables. */
  ghost predicate Leaves(pass: Snapshot -> Facts, store: Engine -> DB, like: DB, c: Inputs, missing: Facts, b: Build) {
    forall e: Engine :: e.slotPass == pass ==>
      store(e) == like.(graph := GraphOf(e, c) - missing, events := EventsOf(e, b))
  }

  /** Whatever builders and detectors run beside this slot pass, a reuse of the store they leave is
      right. */
  ghost predicate AlwaysRight(pass: Snapshot -> Facts, store: Engine -> DB, next: Run) {
    forall e: Engine :: e.slotPass == pass && Reuses(store(e), next) ==> ReuseIsRight(e, store(e), next)
  }

  lemma AlwaysRightIffSame(pass: Snapshot -> Facts, store: Engine -> DB, like: DB, c: Inputs, missing: Facts,
                           b: Build, next: Run)
    requires Leaves(pass, store, like, c, missing, b) && Gate(like, next)
    ensures AlwaysRight(pass, store, next) <==> Same(c, missing, b, Fresh(like, next))
  {
    var f := Fresh(like, next);
    forall e: Engine | e.slotPass == pass
      ensures Reuses(store(e), next) <==> Shown(e, c, missing, b)
      ensures ReuseIsRight(e, store(e), next) <==> Agrees(e, c, missing, b, f)
    {
      GateAndTables(store(e), next);
      assert Fresh(store(e), next) == f;
    }
    OnlyTheSameAlwaysAgrees(pass, c, missing, b, f);
  }

  // ---------- recorded builds ----------

  /** The store after a run on this one, by engine. */
  function AfterRun(before: DB, run: Run): Engine -> DB { e => Step(e, before, run) }

  /** The build and a fresh one read the same: the same configuration, files that still have the text
      they had, and the slot table that is stored. */
  predicate ReadsTheSame(db: DB, read: Facts, run: Run, next: Run) {
    run.config == next.config && Look(db.rows, run.disk) == Look(db.rows, next.disk) && read == db.slots
  }

  /** The slot table that the builders of a run read. */
  function TableRead(e: Engine, before: DB, run: Run): Facts { BuildOf(e, AfterIndex(before, run), run).inputs.slots }

  /** A build that recorded its events leaves its own graph and events, and nothing else of its own. */
  lemma RecordedBuildIsKept(e: Engine, before: DB, run: Run, next: Run)
    requires Rank(run.stop) >= 7 && !Reuses(before, run)
    requires Reuses(Step(e, before, run), next)
    ensures var b := BuildOf(e, AfterIndex(before, run), run);
            AlwaysRight(e.slotPass, AfterRun(before, run), next) <==>
            Same(b.inputs, {}, b, Fresh(Step(e, before, run), next))
  {
    var like, b := Step(e, before, run), BuildOf(e, AfterIndex(before, run), run);
    forall x: Engine | x.slotPass == e.slotPass
      ensures AfterRun(before, run)(x) == like.(graph := GraphOf(x, b.inputs) - {}, events := EventsOf(x, b))
    {
      assert BuildOf(x, AfterIndex(before, run), run) == b;
    }
    AlwaysRightIffSame(e.slotPass, AfterRun(before, run), like, b.inputs, {}, b, next);
  }

  /** After any store whatever, a build that recorded its events (whether or not it also saved the
      checksum and the flag): reusing it is right for all builders and detectors if and only if it read
      what a fresh build reads, and the detectors it skipped or lost are those the scan skips. */
  lemma RecordedBuildIff(e: Engine, before: DB, run: Run, next: Run)
    requires Rank(run.stop) >= 7 && !Reuses(before, run)
    requires Reuses(Step(e, before, run), next)
    ensures AlwaysRight(e.slotPass, AfterRun(before, run), next) <==>
            && ReadsTheSame(Step(e, before, run), TableRead(e, before, run), run, next)
            && SkipSet(run) + run.lost == next.skip
  {
    RecordedBuildIsKept(e, before, run, next);
  }

  /** The first scan of a store and the next unchanged one: the reuse is right for all builders and
      detectors if and only if the slot pass found nothing. */
  lemma FirstScanIff(e: Engine, run: Run, next: Run)
    requires Clean(run, run.skip) && run.command == Scan && run.slotsRead && run.config.indirectCalls
    requires Reuses(Step(e, EmptyDB, run), next) && next.disk == run.disk && next.skip == run.skip
    ensures AlwaysRight(e.slotPass, AfterRun(EmptyDB, run), next) <==> e.slotPass(Snapshot(run.disk, run.disk)) == {}
  {
    CleanIndexMirrorsDisk(map[], run, run.skip);
    RecordedBuildIff(e, EmptyDB, run, next);
  }

  /** An index command reads the table that is stored, and skips nothing: reusing its build is right for
      all builders and detectors if and only if configuration and files are as they were, and the
      detectors it lost are those the scan skips. */
  lemma IndexCommandIff(e: Engine, before: DB, run: Run, next: Run)
    requires run.command == Index && run.stop == Finished
    requires Reuses(Step(e, before, run), next)
    ensures AlwaysRight(e.slotPass, AfterRun(before, run), next) <==>
            && run.config == next.config && run.lost == next.skip
            && Look(Step(e, before, run).rows, run.disk) == Look(Step(e, before, run).rows, next.disk)
  {
    RecordedBuildIff(e, before, run, next);
    assert {} + run.lost == run.lost;
  }

  // ---------- whole histories ----------

  lemma {:induction false} AfterLast(e: Engine, db: DB, runs: seq<Run>)
    requires runs != []
    ensures After(e, db, runs) == Step(e, After(e, db, runs[..|runs| - 1]), runs[|runs| - 1])
    decreases |runs|
  {
    var n := |runs| - 1;
    if n == 0 {
      assert runs[..0] == [] && runs[1..] == [];
    } else {
      AfterLast(e, Step(e, db, runs[0]), runs[1..]);
      assert runs[1..][..n - 1] == runs[..n][1..] && runs[1..][n - 1] == runs[n] && runs[..n][0] == runs[0];
    }
  }

  lemma {:induction false} BuildLast(e: Engine, db: DB, b: Build, runs: seq<Run>)
    requires runs != []
    ensures var before, last := After(e, db, runs[..|runs| - 1]), runs[|runs| - 1];
            LastBuild(e, db, b, runs) ==
              if Reuses(before, last) then LastBuild(e, db, b, runs[..|runs| - 1])
              else BuildOf(e, AfterIndex(before, last), last)
    decreases |runs|
  {
    var n := |runs| - 1;
    if n == 0 {
      assert runs[..0] == [] && runs[1..] == [];
    } else {
      var next := if Reuses(db, runs[0]) then b else BuildOf(e, AfterIndex(db, runs[0]), runs[0]);
      BuildLast(e, Step(e, db, runs[0]), next, runs[1..]);
      assert runs[1..][..n - 1] == runs[..n][1..] && runs[1..][n - 1] == runs[n] && runs[..n][0] == runs[0];
    }
  }

  /** The last run of a history that rebuilt: the runs behind it changed nothing. */
  lemma {:induction false} LastRebuild(e: Engine, db: DB, b: Build, runs: seq<Run>) returns (k: nat)
    requires runs != [] && !Reuses(db, runs[0])
    ensures k < |runs| && !Reuses(After(e, db, runs[..k]), runs[k])
    ensures After(e, db, runs) == Step(e, After(e, db, runs[..k]), runs[k])
    ensures LastBuild(e, db, b, runs) == BuildOf(e, AfterIndex(After(e, db, runs[..k]), runs[k]), runs[k])
    decreases |runs|
  {
    var n := |runs| - 1;
    assert runs[..0] == [];
    AfterLast(e, db, runs);
    BuildLast(e, db, b, runs);
    if Reuses(After(e, db, runs[..n]), runs[n]) {
      ReuseChangesNothing(e, After(e, db, runs[..n]), runs[n]);
      k := LastRebuild(e, db, b, runs[..n]);
      assert runs[..n][..k] == runs[..k];
    } else {
      k := n;
    }
  }

  /** Over every history of commands in which no run stopped early, with any targets, skip sets,
      unreadable files, failing detectors and failing meta writes: the store that a scan reuses is the
      one its last rebuild k left, and the reuse is right for all builders and detectors of that rebuild
      if and only if it read what a fresh build reads, and the detectors it skipped or lost are those
      the scan skips. */
  lemma HistoryIff(e: Engine, runs: seq<Run>, next: Run) returns (k: nat)
    requires NoneStopped(runs) && Reuses(After(e, EmptyDB, runs), next)
    ensures k < |runs| && After(e, EmptyDB, runs) == Step(e, After(e, EmptyDB, runs[..k]), runs[k])
    ensures AlwaysRight(e.slotPass, AfterRun(After(e, EmptyDB, runs[..k]), runs[k]), next) <==>
            && ReadsTheSame(After(e, EmptyDB, runs), TableRead(e, After(e, EmptyDB, runs[..k]), runs[k]), runs[k], next)
            && SkipSet(runs[k]) + runs[k].lost == next.skip
  {
    k := LastRebuild(e, EmptyDB, NoBuild, runs);
    assert runs[k] in runs;
    RecordedBuildIff(e, After(e, EmptyDB, runs[..k]), runs[k], next);
  }

  /** Over every history of whole-tree commands with one skip set in which nothing failed: the reuse is
      right for all builders and detectors if and only if the slot table stored now is the one the last
      rebuild read. */
  lemma CleanHistoryIff(e: Engine, runs: seq<Run>, next: Run, skip: set<string>) returns (k: nat)
    requires forall r :: r in runs ==> Clean(r, skip)
    requires Clean(next, skip) && Reuses(After(e, EmptyDB, runs), next)
    ensures k < |runs| && After(e, EmptyDB, runs) == Step(e, After(e, EmptyDB, runs[..k]), runs[k])
    ensures AlwaysRight(e.slotPass, AfterRun(After(e, EmptyDB, runs[..k]), runs[k]), next) <==>
            TableRead(e, After(e, EmptyDB, runs[..k]), runs[k]) == After(e, EmptyDB, runs).slots
  {
    k := LastRebuild(e, EmptyDB, NoBuild, runs);
    assert runs[k] in runs;
    CleanReuseDiffersInTheTable(e, runs, next, skip);
    RecordedBuildIsKept(e, After(e, EmptyDB, runs[..k]), runs[k], next);
    OnlyTheTableIsLeft(LastBuild(e, EmptyDB, NoBuild, runs), After(e, EmptyDB, runs).slots);
  }

  lemma OnlyTheTableIsLeft(b: Build, slots: Facts)
    ensures Same(b.inputs, {}, b, b.(inputs := b.inputs.(slots := slots))) <==> b.inputs.slots == slots
  {
    if b.inputs.slots == slots {
      assert b.inputs.(slots := slots) == b.inputs;
    }
  }

  // ---------- runs that stop early ----------

  /** The fields of a store beside its rows and tables. */
  datatype Meta = Meta(slots: Facts, checksum: Option<Config>, complete: bool)

  /** A store that holds build b as this engine computes it. */
  function Holding(e: Engine, b: Build, m: Meta): DB {
    DB(b.inputs.input.rows, m.slots, GraphOf(e, b.inputs), EventsOf(e, b), m.checksum, m.complete)
  }

  /** The store after a run on a store that held b, by engine. */
  function AfterCut(b: Build, m: Meta, cut: Run): Engine -> DB { e => Step(e, Holding(e, b, m), cut) }

  lemma CutRebuilds(x: Engine, b: Build, m: Meta, cut: Run)
    requires cut.stop == Indexing || !Gate(Holding(x, b, m), cut)
    ensures !Reuses(Holding(x, b, m), cut)
  {
    GateAndTables(Holding(x, b, m), cut);
  }

  /** Stopped in or after Index, before ClearGraph, on a store that held build b: the reuse is right for
      all builders and detectors if and only if the stopped run re-indexed nothing, b read what a fresh
      build reads, and the detectors b went without are those the scan skips. */
  lemma StopBeforeClearIff(e: Engine, b: Build, m: Meta, cut: Run, next: Run)
    requires cut.stop in {Indexing, Indexed} && (cut.stop == Indexing || !Gate(Holding(e, b, m), cut))
    requires Reuses(Step(e, Holding(e, b, m), cut), next)
    ensures AlwaysRight(e.slotPass, AfterCut(b, m, cut), next) <==>
            && IndexedRows(b.inputs.input.rows, cut) == b.inputs.input.rows
            && b.inputs == Fresh(Holding(e, b, m), next).inputs && b.skip + b.lost == next.skip
  {
    var like := Step(e, Holding(e, b, m), cut);
    forall x: Engine | x.slotPass == e.slotPass
      ensures AfterCut(b, m, cut)(x) == like.(graph := GraphOf(x, b.inputs) - {}, events := EventsOf(x, b))
    {
      CutRebuilds(x, b, m, cut);
      CutRebuilds(e, b, m, cut);
    }
    AlwaysRightIffSame(e.slotPass, AfterCut(b, m, cut), like, b.inputs, {}, b, next);
  }

  /** What the stopped run read, what b read and what a fresh build reads are the same. */
  predicate AllReadTheSame(e: Engine, b: Build, m: Meta, cut: Run, next: Run) {
    var db := Holding(e, b, m);
    var f := Fresh(Step(e, db, cut), next).inputs;
    BuildOf(e, AfterIndex(db, cut), cut).inputs == f && b.inputs == f
  }

  /** A run stopped after ClearGraph and before ClearSecurityEvents leaves its own graph without the
      missing facts, and the events of b. */
  lemma CutBuildIsMixed(e: Engine, b: Build, m: Meta, cut: Run, next: Run, missing: Facts)
    requires (cut.stop == Building && missing == cut.missing) || (cut.stop == GraphBuilt && missing == {})
    requires !Gate(Holding(e, b, m), cut) && Reuses(Step(e, Holding(e, b, m), cut), next)
    ensures var c := BuildOf(e, AfterIndex(Holding(e, b, m), cut), cut).inputs;
            AlwaysRight(e.slotPass, AfterCut(b, m, cut), next) <==>
            Same(c, missing, b, Fresh(Step(e, Holding(e, b, m), cut), next))
  {
    var like := Step(e, Holding(e, b, m), cut);
    var c := BuildOf(e, AfterIndex(Holding(e, b, m), cut), cut).inputs;
    forall x: Engine | x.slotPass == e.slotPass
      ensures AfterCut(b, m, cut)(x) == like.(graph := GraphOf(x, c) - missing, events := EventsOf(x, b))
    {
      CutRebuilds(x, b, m, cut);
      CutRebuilds(e, b, m, cut);
      assert BuildOf(x, AfterIndex(Holding(x, b, m), cut), cut).inputs == c;
    }
    AlwaysRightIffSame(e.slotPass, AfterCut(b, m, cut), like, c, missing, b, next);
  }

  /** Stopped between the last builder and ClearSecurityEvents, on a store that held build b: the reuse
      is right for all builders and detectors if and only if the stopped run, b and a fresh build read
      the same, and the detectors b went without are those the scan skips. */
  lemma StopBeforeEventsIff(e: Engine, b: Build, m: Meta, cut: Run, next: Run)
    requires cut.stop == GraphBuilt && !Gate(Holding(e, b, m), cut)
    requires Reuses(Step(e, Holding(e, b, m), cut), next)
    ensures AlwaysRight(e.slotPass, AfterCut(b, m, cut), next) <==>
            AllReadTheSame(e, b, m, cut, next) && b.skip + b.lost == next.skip
  {
    CutBuildIsMixed(e, b, m, cut, next, {});
  }

  /** Stopped in a builder, on a store that held build b: the reuse is right for all builders and
      detectors if and only if nothing was missing from the graph and, as before, all read the same and
      the detectors b went without are those the scan skips. */
  lemma StoppedBuilderIff(e: Engine, b: Build, m: Meta, cut: Run, next: Run)
    requires cut.stop == Building && !Gate(Holding(e, b, m), cut)
    requires Reuses(Step(e, Holding(e, b, m), cut), next)
    ensures AlwaysRight(e.slotPass, AfterCut(b, m, cut), next) <==>
            cut.missing == {} && AllReadTheSame(e, b, m, cut, next) && b.skip + b.lost == next.skip
  {
    CutBuildIsMixed(e, b, m, cut, next, cut.missing);
  }
}
