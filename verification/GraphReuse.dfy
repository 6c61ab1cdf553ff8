/** Reuse of the stored graph and events across commands (pipeline.go:133-389, index.go:70-145,
    indexer.go:80-304).

    The function-pointer pass, the builders and the detectors are arbitrary functions of what they
    read, and the store holds the facts they return. A command may stop after any store update, as a
    failed step, a cancellation or a killed process makes it; the configuration checksum is taken to
    be injective. */
module GraphReuse {
  import opened Options

  /** Contents of files by path. */
  type Source = map<string, string>

  /** The effective configuration file; the stored checksum stands for the whole of it. */
  datatype Config = Config(text: string, indirectCalls: bool)

  /** What a builder sees of the project: the indexed rows and the current text of the indexed
      files. */
  datatype Snapshot = Snapshot(rows: Source, texts: Source)

  /** The rows of a table. */
  type Facts = set<string>

  /** All that a builder reads; `slots` is the func_ptr_writes table. */
  datatype Inputs = Inputs(input: Snapshot, config: Config, slots: Facts)

  datatype Engine = Engine(
    slotPass: Snapshot -> Facts,
    builder: (string, Inputs) -> Facts,
    detectors: set<string>,
    detector: (string, Snapshot, Config, Facts) -> Facts)

  const Builders: set<string> :=
    {"call_graph", "data_flow", "alias", "ownership", "interproc", "lock_order", "shared_access"}

  function GraphOf(e: Engine, inputs: Inputs): Facts {
    set b, f | b in Builders && f in e.builder(b, inputs) :: f
  }

  /** What a build is made of: all that its builders read, the detectors that were skipped, and those
      that failed. */
  datatype Build = Build(inputs: Inputs, skip: set<string>, lost: set<string>)

  function EventsOf(e: Engine, b: Build): Facts {
    var graph := GraphOf(e, b.inputs);
    set d, f | d in e.detectors - b.skip - b.lost && f in e.detector(d, b.inputs.input, b.inputs.config, graph) :: f
  }

  datatype DB = DB(rows: Source, slots: Facts, graph: Facts, events: Facts, checksum: Option<Config>, complete: bool)

  const EmptyDB := DB(map[], {}, {}, {}, None, false)

  /** Where a command stops. */
  datatype Stop =
    | Indexing        // canceled between two files
    | Indexed
    | GraphCleared
    | SlotsWritten
    | Building        // a builder failed, panicked or was canceled
    | GraphBuilt
    | EventsCleared
    | Detected
    | ChecksumSet
    | Finished

  function Rank(s: Stop): nat {
    match s
    case Indexing => 0 case Indexed => 1 case GraphCleared => 2 case SlotsWritten => 3 case Building => 4
    case GraphBuilt => 5 case EventsCleared => 6 case Detected => 7 case ChecksumSet => 8 case Finished => 9
  }

  datatype Command = Scan | Index

  /** One command together with everything it meets. */
  datatype Run = Run(
    command: Command,
    disk: Source,
    walk: seq<string>,        // the C files under the target, in walk order
    unreadable: set<string>,  // files indexFile returns an error for
    stuck: set<string>,       // rows DeleteFile returns an error for
    config: Config,
    skip: set<string>,        // --skip-detectors or [scan] skip_detectors
    edgesSeen: bool,          // the EXISTS queries found a row
    eventsSeen: bool,
    slotsRead: bool,          // ListFuncPtrWrites succeeded at pipeline.go:179
    lost: set<string>,
    checksumSaved: bool,      // a failed SetMeta only warns
    flagSaved: bool,
    stop: Stop,
    filesDone: nat,           // files indexed before a cancellation
    missing: Facts)           // what the builders had not written when one of them stopped the run

  // ---------- indexing ----------

  /** indexFile: a file that cannot be read or parsed keeps its old row and is not counted. */
  function IndexFile(rows: Source, run: Run, p: string): Source {
    if p in run.disk && p !in run.unreadable then rows[p := run.disk[p]] else rows
  }

  predicate FileChanged(rows: Source, run: Run, p: string) {
    p in run.disk && p !in run.unreadable && !(p in rows && rows[p] == run.disk[p])
  }

  function IndexFiles(rows: Source, run: Run, walk: seq<string>): Source
    decreases |walk|
  {
    if walk == [] then rows else IndexFiles(IndexFile(rows, run, walk[0]), run, walk[1..])
  }

  function CountChanged(rows: Source, run: Run, walk: seq<string>): nat
    decreases |walk|
  {
    if walk == [] then 0
    else
      (if FileChanged(rows, run, walk[0]) then 1 else 0) + CountChanged(IndexFile(rows, run, walk[0]), run, walk[1..])
  }

  /** Rows whose file is gone are deleted, unless the delete fails. */
  function StaleRows(rows: Source, run: Run): set<string> {
    set p | p in rows && p !in run.disk && p !in run.stuck
  }

  function IndexedRows(rows: Source, run: Run): Source {
    if run.stop == Indexing then
      IndexFiles(rows, run, run.walk[..if run.filesDone <= |run.walk| then run.filesDone else |run.walk|])
    else
      var all := IndexFiles(rows, run, run.walk);
      all - StaleRows(all, run)
  }

  function FilesChanged(rows: Source, run: Run): nat {
    CountChanged(rows, run, run.walk) + |StaleRows(IndexFiles(rows, run, run.walk), run)|
  }

  // ---------- the reuse gate and the rebuild ----------

  function Look(rows: Source, disk: Source): Snapshot {
    Snapshot(rows, map p | p in rows && p in disk :: disk[p])
  }

  /** canReuse, evaluated on the store after Index. `changed` is IndexResult.FilesChanged. */
  predicate CanReuse(db: DB, run: Run, changed: nat) {
    && changed == 0
    && db.graph != {} && run.edgesSeen
    && db.events != {} && run.eventsSeen
    && db.checksum == Some(run.config)
    && db.complete
  }

  function SkipSet(run: Run): set<string> {
    if run.command == Index then {} else run.skip   // index.go:130 passes no skip set
  }

  /** The slot table once the pass has run, if it runs. */
  function NewSlots(e: Engine, db: DB, run: Run): Facts {
    if run.command == Scan && run.config.indirectCalls then e.slotPass(Look(db.rows, run.disk)) else db.slots
  }

  /** What a rebuild on this store is made of. The repo index is loaded before the pass runs, so a
      scan's builders see the table the pass is about to replace; without the index they query the
      new one. */
  function BuildOf(e: Engine, db: DB, run: Run): Build {
    var slots := if run.command == Scan && run.slotsRead then db.slots else NewSlots(e, db, run);
    Build(Inputs(Look(db.rows, run.disk), run.config, slots), SkipSet(run), run.lost)
  }

  /** The store updates from ClearGraph to SetMeta, cut off where the run stops. */
  function Rebuild(e: Engine, db: DB, run: Run): DB {
    var b := BuildOf(e, db, run);
    var graph := GraphOf(e, b.inputs);
    var r := Rank(run.stop);
    DB(db.rows,
       if r >= 3 then NewSlots(e, db, run) else db.slots,
       if r <= 1 then db.graph else if r <= 3 then {} else if r == 4 then graph - run.missing else graph,
       if r <= 5 then db.events else if r == 6 then {} else EventsOf(e, b),
       if r >= 8 && run.checksumSaved then Some(run.config) else db.checksum,
       if r >= 9 && run.flagSaved then true else db.complete)
  }

  function AfterIndex(db: DB, run: Run): DB { db.(rows := IndexedRows(db.rows, run)) }

  predicate Reuses(db: DB, run: Run) {
    run.command == Scan && run.stop != Indexing && CanReuse(AfterIndex(db, run), run, FilesChanged(db.rows, run))
  }

  function Step(e: Engine, db: DB, run: Run): DB {
    if run.stop == Indexing || Reuses(db, run) then AfterIndex(db, run) else Rebuild(e, AfterIndex(db, run), run)
  }

  /** The build that a rebuild in which nothing goes wrong would make, run on this store. */
  function Fresh(db: DB, run: Run): Build {
    Build(Inputs(Look(db.rows, run.disk), run.config, db.slots), run.skip, {})
  }

  /** The store holds what this build computes. */
  predicate Stores(e: Engine, db: DB, b: Build) {
    db.graph == GraphOf(e, b.inputs) && db.events == EventsOf(e, b)
  }

  predicate ReuseIsRight(e: Engine, db: DB, run: Run) { Stores(e, db, Fresh(db, run)) }

  /** Two builds that compute the same, whether or not they are made of the same. */
  predicate SameResult(e: Engine, a: Build, b: Build) {
    GraphOf(e, a.inputs) == GraphOf(e, b.inputs) && EventsOf(e, a) == EventsOf(e, b)
  }

  // ---------- the store object ----------

  class Store {
    var rows: Source
    var slots: Facts
    var graph: Facts
    var events: Facts
    var checksum: Option<Config>
    var complete: bool

    ghost function View(): DB
      reads this
    {
      DB(rows, slots, graph, events, checksum, complete)
    }

    constructor ()
      ensures View() == EmptyDB
    {
      rows, slots, graph, events, checksum, complete := map[], {}, {}, {}, None, false;
    }

    /** Indexer.Index: one transaction per file, then the deletion sweep. */
    method IndexTree(run: Run) returns (changed: nat, finished: bool)
      modifies this`rows
      ensures rows == IndexedRows(old(rows), run)
      ensures finished <==> run.stop != Indexing
      ensures finished ==> changed == FilesChanged(old(rows), run)
    {
      changed := 0;
      var i := 0;
      var end := if run.stop == Indexing && run.filesDone < |run.walk| then run.filesDone else |run.walk|;
      assert run.walk[..end][0..] == run.walk[..end];
      while i < end
        invariant 0 <= i <= end
        invariant IndexFiles(rows, run, run.walk[..end][i..]) == IndexFiles(old(rows), run, run.walk[..end])
        invariant changed + CountChanged(rows, run, run.walk[..end][i..]) ==
            CountChanged(old(rows), run, run.walk[..end])
      {
        var p := run.walk[i];
        assert run.walk[..end][i..][0] == p && run.walk[..end][i..][1..] == run.walk[..end][i + 1..];
        if p in run.disk && p !in run.unreadable {
          if !(p in rows && rows[p] == run.disk[p]) {
            rows := rows[p := run.disk[p]];
            changed := changed + 1;
          } else {
            assert rows[p := run.disk[p]] == rows;
          }
        }
        i := i + 1;
      }
      if run.stop == Indexing {
        return changed, false;
      }
      assert run.walk[..end] == run.walk;
      var stale := set p | p in rows && p !in run.disk && p !in run.stuck;
      assert stale == StaleRows(rows, run);
      rows := rows - stale;
      return changed + |stale|, true;
    }

    /** From ClearGraph to the last builder. */
    method BuildGraph(e: Engine, run: Run, input: Snapshot) returns (built: bool)
      requires Rank(run.stop) >= 1 && input == Look(rows, run.disk)
      modifies this`graph, this`slots
      ensures graph == Rebuild(e, old(View()), run).graph && slots == Rebuild(e, old(View()), run).slots
      ensures built <==> Rank(run.stop) >= 5
    {
      if run.stop == Indexed { return false; }
      graph := {};
      var snapshot := slots;
      if run.stop == GraphCleared { return false; }
      if run.command == Scan && run.config.indirectCalls {
        slots := e.slotPass(input);
      }
      if run.stop == SlotsWritten { return false; }
      var read := if run.command == Scan && run.slotsRead then snapshot else slots;
      graph := GraphOf(e, Inputs(input, run.config, read));
      if run.stop == Building {
        graph := graph - run.missing;
        return false;
      }
      return true;
    }

    /** From ClearSecurityEvents to the second SetMeta; the detectors read the graph just built. */
    method RecordEvents(e: Engine, run: Run, ghost b: Build)
      requires graph == GraphOf(e, b.inputs) && b.inputs.input == Look(rows, run.disk) && b.inputs.config == run.config
      requires b.skip == SkipSet(run) && b.lost == run.lost
      modifies this`events, this`checksum, this`complete
      ensures var r := Rank(run.stop);
              && events == (if r <= 5 then old(events) else if r == 6 then {} else EventsOf(e, b))
              && checksum == (if r >= 8 && run.checksumSaved then Some(run.config) else old(checksum))
              && complete == (if r >= 9 && run.flagSaved then true else old(complete))
    {
      if Rank(run.stop) <= 5 { return; }
      events := {};
      if run.stop == EventsCleared { return; }
      var skipped := if run.command == Index then {} else run.skip;
      var input := Look(rows, run.disk);
      events := set d, f | d in e.detectors - skipped - run.lost && f in e.detector(d, input, run.config, graph) :: f;
      if run.stop == Detected { return; }
      if run.checksumSaved {
        checksum := Some(run.config);
      }
      if run.stop == ChecksumSet { return; }
      if run.flagSaved {
        complete := true;
      }
    }

    /** runPipeline's and runIndexCmd's store updates, in their order. */
    method Execute(e: Engine, run: Run)
      modifies this
      ensures View() == Step(e, old(View()), run)
    {
      var changed, finished := IndexTree(run);
      if !finished { return; }
      assert View() == AfterIndex(old(View()), run);
      var canReuse := changed == 0 && graph != {} && run.edgesSeen && events != {} && run.eventsSeen
                      && checksum == Some(run.config) && complete;
      if run.command == Scan && canReuse { return; }
      ghost var b := BuildOf(e, View(), run);
      var built := BuildGraph(e, run, Look(rows, run.disk));
      if built {
        RecordEvents(e, run, b);
      }
    }
  }

  // ---------- what an index pass achieves ----------

  lemma {:induction false} IndexedFilesAgree(rows: Source, run: Run, walk: seq<string>)
    ensures var after := IndexFiles(rows, run, walk);
            forall p :: (p in walk && p in run.disk && p !in run.unreadable ==> p in after && after[p] == run.disk[p])
                        && (p !in walk || p !in run.disk || p in run.unreadable ==>
                              (p in after <==> p in rows) && (p in rows ==> after[p] == rows[p]))
    decreases |walk|
  {
    if walk != [] {
      IndexedFilesAgree(IndexFile(rows, run, walk[0]), run, walk[1..]);
      assert forall p :: p in walk <==> p == walk[0] || p in walk[1..];
    }
  }

  lemma {:induction false} NoChangeKeepsRows(rows: Source, run: Run, walk: seq<string>)
    requires CountChanged(rows, run, walk) == 0
    ensures IndexFiles(rows, run, walk) == rows
    decreases |walk|
  {
    if walk != [] {
      assert IndexFile(rows, run, walk[0]) == rows;
      NoChangeKeepsRows(rows, run, walk[1..]);
    }
  }

  /** A scan that reuses leaves the store as it found it. */
  lemma ReuseChangesNothing(e: Engine, db: DB, run: Run)
    requires Reuses(db, run)
    ensures Step(e, db, run) == db && IndexedRows(db.rows, run) == db.rows
  {
    NoChangeKeepsRows(db.rows, run, run.walk);
    assert StaleRows(db.rows, run) == {};
    assert db.rows - {} == db.rows;
  }

  // ---------- reuse over whole histories ----------

  function After(e: Engine, db: DB, runs: seq<Run>): DB
    decreases |runs|
  {
    if runs == [] then db else After(e, Step(e, db, runs[0]), runs[1..])
  }

  /** The last build of a history in which no run stopped early; b is the one before it. */
  function LastBuild(e: Engine, db: DB, b: Build, runs: seq<Run>): Build
    decreases |runs|
  {
    if runs == [] then b
    else
      var next := if Reuses(db, runs[0]) then b else BuildOf(e, AfterIndex(db, runs[0]), runs[0]);
      LastBuild(e, Step(e, db, runs[0]), next, runs[1..])
  }

  /** The store holds this build of its rows. */
  ghost predicate Holds(e: Engine, db: DB, b: Build) {
    Stores(e, db, b) && b.inputs.input.rows == db.rows
  }

  ghost predicate NoneStopped(runs: seq<Run>) { forall r :: r in runs ==> r.stop == Finished }

  lemma {:induction false} HistoryHolds(e: Engine, db: DB, b: Build, runs: seq<Run>)
    requires NoneStopped(runs)
    requires runs == [] || Reuses(db, runs[0]) ==> Holds(e, db, b)
    ensures Holds(e, After(e, db, runs), LastBuild(e, db, b, runs))
    decreases |runs|
  {
    if runs != [] {
      var next := if Reuses(db, runs[0]) then b else BuildOf(e, AfterIndex(db, runs[0]), runs[0]);
      assert runs[0] in runs;
      StepHolds(e, db, b, runs[0]);
      HistoryHolds(e, Step(e, db, runs[0]), next, runs[1..]);
    }
  }

  lemma StepHolds(e: Engine, db: DB, b: Build, run: Run)
    requires Rank(run.stop) >= 7 && (Reuses(db, run) ==> Holds(e, db, b))
    ensures Holds(e, Step(e, db, run), if Reuses(db, run) then b else BuildOf(e, AfterIndex(db, run), run))
  {
    if Reuses(db, run) {
      ReuseChangesNothing(e, db, run);
    }
  }

  const NoBuild := Build(Inputs(Snapshot(map[], map[]), Config("", false), {}), {}, {})

  /** Over every history of commands in which no run stopped early, with any targets, skip sets,
      unreadable files, failing detectors and failing meta writes, and for all builders and
      detectors: when a scan reuses, the store holds exactly what the last build computed from the
      rows it has. So the reuse is right for this engine when a fresh build computes the same; what the
      two must be made of for that is in ReuseConditions.HistoryIff. */
  lemma ReuseEqualsRebuild(e: Engine, runs: seq<Run>, next: Run)
    requires NoneStopped(runs) && Reuses(After(e, EmptyDB, runs), next)
    ensures var db, b := After(e, EmptyDB, runs), LastBuild(e, EmptyDB, NoBuild, runs);
            && Holds(e, db, b)
            && (ReuseIsRight(e, db, next) <==> SameResult(e, b, Fresh(db, next)))
            && (b == Fresh(db, next) ==> ReuseIsRight(e, db, next))
  {
    if runs != [] {
      assert runs[0] in runs;
      HistoryHolds(e, EmptyDB, NoBuild, runs);
    }
  }

  /** A run over the whole indexed tree in which nothing fails. */
  ghost predicate Clean(run: Run, skip: set<string>) {
    && run.stop == Finished && run.checksumSaved && run.flagSaved && run.lost == {}
    && run.unreadable == {} && run.stuck == {}
    && (forall p :: p in run.disk <==> p in run.walk)
    && SkipSet(run) == skip
  }

  lemma CleanIndexMirrorsDisk(rows: Source, run: Run, skip: set<string>)
    requires Clean(run, skip)
    ensures IndexedRows(rows, run) == run.disk
    ensures Look(run.disk, run.disk) == Snapshot(run.disk, run.disk)
  {
    IndexedFilesAgree(rows, run, run.walk);
  }

  /** The build is one of these rows, of the configuration whose checksum is stored, with this skip
      set and no detector lost; only the slot table it read is left open. */
  ghost predicate Current(db: DB, b: Build, skip: set<string>) {
    b == Build(Inputs(Snapshot(db.rows, db.rows), b.inputs.config, b.inputs.slots), skip, {})
    && db.checksum == Some(b.inputs.config)
  }

  lemma {:induction false} CleanHistoryIsCurrent(e: Engine, db: DB, b: Build, runs: seq<Run>, skip: set<string>)
    requires forall r :: r in runs ==> Clean(r, skip)
    requires runs == [] || Reuses(db, runs[0]) ==> Current(db, b, skip)
    ensures Current(After(e, db, runs), LastBuild(e, db, b, runs), skip)
    decreases |runs|
  {
    if runs != [] {
      var next := if Reuses(db, runs[0]) then b else BuildOf(e, AfterIndex(db, runs[0]), runs[0]);
      assert runs[0] in runs;
      CleanIndexMirrorsDisk(db.rows, runs[0], skip);
      if Reuses(db, runs[0]) {
        ReuseChangesNothing(e, db, runs[0]);
      }
      CleanHistoryIsCurrent(e, Step(e, db, runs[0]), next, runs[1..], skip);
    }
  }

  /** Over every history of whole-tree commands with one skip set in which nothing failed, a fresh
      build differs from the stored one in the slot table at most: the reuse is right for this engine
      if and only if its graphs for the two tables agree, and so whenever the table stored now is the
      one the last build read. */
  lemma CleanReuseDiffersInTheTable(e: Engine, runs: seq<Run>, next: Run, skip: set<string>)
    requires forall r :: r in runs ==> Clean(r, skip)
    requires Clean(next, skip) && Reuses(After(e, EmptyDB, runs), next)
    ensures var db, b := After(e, EmptyDB, runs), LastBuild(e, EmptyDB, NoBuild, runs);
            && Fresh(db, next) == b.(inputs := b.inputs.(slots := db.slots))
            && (ReuseIsRight(e, db, next) <==> GraphOf(e, b.inputs) == GraphOf(e, b.inputs.(slots := db.slots)))
            && (b.inputs.slots == db.slots ==> ReuseIsRight(e, db, next))
  {
    var db := After(e, EmptyDB, runs);
    if runs != [] {
      assert runs[0] in runs;
      CleanHistoryIsCurrent(e, EmptyDB, NoBuild, runs, skip);
    }
    ReuseEqualsRebuild(e, runs, next);
    ReuseChangesNothing(e, db, next);
    CleanIndexMirrorsDisk(db.rows, next, skip);
  }

  /** With the indirect-call pass off in every configuration used, nothing is left to differ. */
  lemma {:induction false} WithoutThePassTheTableStaysEmpty(e: Engine, db: DB, b: Build, runs: seq<Run>)
    requires db.slots == {} && b.inputs.slots == {} && forall r :: r in runs ==> !r.config.indirectCalls
    ensures After(e, db, runs).slots == {} && LastBuild(e, db, b, runs).inputs.slots == {}
    decreases |runs|
  {
    if runs != [] {
      var next := if Reuses(db, runs[0]) then b else BuildOf(e, AfterIndex(db, runs[0]), runs[0]);
      assert runs[0] in runs;
      WithoutThePassTheTableStaysEmpty(e, Step(e, db, runs[0]), next, runs[1..]);
    }
  }

  lemma ReuseEqualsRebuildWithoutThePass(e: Engine, runs: seq<Run>, next: Run, skip: set<string>)
    requires forall r :: r in runs ==> Clean(r, skip) && !r.config.indirectCalls
    requires Clean(next, skip) && Reuses(After(e, EmptyDB, runs), next)
    ensures ReuseIsRight(e, After(e, EmptyDB, runs), next)
  {
    CleanReuseDiffersInTheTable(e, runs, next, skip);
    WithoutThePassTheTableStaysEmpty(e, EmptyDB, NoBuild, runs);
  }

  // ---------- one build and the scan that reuses it ----------

  /** What a store holds after a build that recorded its events (whether or not it also saved the
      checksum and the flag), whatever it held before. That build and a fresh one are made of the same
      if and only if the skip set and the configuration are the build's own, no detector of it failed,
      no indexed file changed behind the index, and the builders had read the slot table that is
      stored. */
  lemma ReuseAfterRecordedBuild(e: Engine, before: DB, run: Run, next: Run)
    requires Rank(run.stop) >= 7 && !Reuses(before, run)
    requires Reuses(Step(e, before, run), next)
    ensures var db, b := Step(e, before, run), BuildOf(e, AfterIndex(before, run), run);
            && Holds(e, db, b)
            && (ReuseIsRight(e, db, next) <==> SameResult(e, b, Fresh(db, next)))
            && (b == Fresh(db, next) <==>
                  && SkipSet(run) == next.skip && run.lost == {} && run.config == next.config
                  && Look(db.rows, run.disk) == Look(db.rows, next.disk)
                  && (run.command == Scan && run.slotsRead ==> before.slots == db.slots))
  {
    StepHolds(e, before, NoBuild, run);
  }

  /** The first scan of a store builds its graph with an empty slot table, and the next unchanged
      scan reuses it: rightly for this engine if and only if the table that the first one wrote makes
      no difference to its graph, as when the project has no function-pointer writes. */
  lemma FirstScanIsReusedUnresolved(e: Engine, run: Run, next: Run)
    requires Clean(run, run.skip) && run.command == Scan && run.slotsRead && run.config.indirectCalls
    requires Reuses(Step(e, EmptyDB, run), next) && next.disk == run.disk && next.skip == run.skip
    ensures var db := Step(e, EmptyDB, run);
            var inputs := Inputs(Snapshot(run.disk, run.disk), run.config, {});
            && db.slots == e.slotPass(inputs.input) && db.graph == GraphOf(e, inputs)
            && (ReuseIsRight(e, db, next) <==> GraphOf(e, inputs) == GraphOf(e, inputs.(slots := db.slots)))
            && (db.slots == {} ==> ReuseIsRight(e, db, next))
  {
    CleanIndexMirrorsDisk(map[], run, run.skip);
    ReuseAfterRecordedBuild(e, EmptyDB, run, next);
  }

  /** A second rebuild of the same text reads the table of the first: from then on reuse is right. */
  lemma SecondRebuildSettlesTheSlots(e: Engine, db: DB, first: Run, second: Run, next: Run, skip: set<string>)
    requires Clean(first, skip) && Clean(second, skip) && Clean(next, skip)
    requires first.command == second.command == Scan && first.config.indirectCalls && second.config.indirectCalls
    requires first.disk == second.disk == next.disk
    requires !Reuses(db, first) && !Reuses(Step(e, db, first), second)
    requires Reuses(Step(e, Step(e, db, first), second), next)
    ensures ReuseIsRight(e, Step(e, Step(e, db, first), second), next)
  {
    var mid := Step(e, db, first);
    CleanIndexMirrorsDisk(db.rows, first, skip);
    CleanIndexMirrorsDisk(mid.rows, second, skip);
    ReuseAfterRecordedBuild(e, mid, second, next);
  }

  // ---------- runs that stop early ----------

  /** Nothing lowers the flag when a rebuild starts. So after a rebuild that stopped early, the next
      unchanged scan can reuse what it left: that takes a flag raised before and a stop that leaves
      neither table empty. */
  lemma ReuseAfterInterruptedRebuild(e: Engine, db: DB, cut: Run, next: Run)
    requires cut.stop != Finished && !Reuses(db, cut)
    requires Reuses(Step(e, db, cut), next)
    ensures db.complete
    ensures cut.stop in {Indexing, Indexed, Building, GraphBuilt, Detected, ChecksumSet}
  {}

  /** What a store that held build b holds after a run stopped while building: the new graph without
      the facts still missing, and the old events. When the stopped builders saw what a fresh build
      sees, reusing it is right for this engine if and only if no fact of its graph was missing and
      its old events are the new ones. */
  lemma ReuseAfterStoppedBuilder(e: Engine, db: DB, b: Build, cut: Run, next: Run)
    requires Holds(e, db, b) && cut.stop == Building && !Reuses(db, cut)
    requires Reuses(Step(e, db, cut), next)
    ensures var db', c := Step(e, db, cut), BuildOf(e, AfterIndex(db, cut), cut);
            var renewed := Fresh(db', next);
            && db'.graph == GraphOf(e, c.inputs) - cut.missing && db'.events == EventsOf(e, b)
            && (ReuseIsRight(e, db', next) <==>
                  GraphOf(e, c.inputs) - cut.missing == GraphOf(e, renewed.inputs) &&
                    EventsOf(e, b) == EventsOf(e, renewed))
            && (c.inputs == renewed.inputs ==>
                  (ReuseIsRight(e, db', next) <==>
                   GraphOf(e, c.inputs) !! cut.missing && EventsOf(e, b) == EventsOf(e, renewed)))
  {}

  /** What a store that held build b holds after a run stopped before ClearGraph: new rows, and the
      tables of b. That build and a fresh one are made of the same if and only if nothing was
      re-indexed and they were before. */
  lemma ReuseAfterStopBeforeClear(e: Engine, db: DB, b: Build, cut: Run, next: Run)
    requires Holds(e, db, b) && cut.stop in {Indexing, Indexed} && !Reuses(db, cut)
    requires Reuses(Step(e, db, cut), next)
    ensures var db' := Step(e, db, cut);
            && db' == db.(rows := IndexedRows(db.rows, cut))
            && (ReuseIsRight(e, db', next) <==> SameResult(e, b, Fresh(db', next)))
            && (b == Fresh(db', next) <==> IndexedRows(db.rows, cut) == db.rows && b == Fresh(db, next))
  {}

  /** What a store that held build b holds after a run stopped between the last builder and
      ClearSecurityEvents: the new graph, and the old events. */
  lemma ReuseAfterStopBeforeEvents(e: Engine, db: DB, b: Build, cut: Run, next: Run)
    requires Holds(e, db, b) && cut.stop == GraphBuilt && !Reuses(db, cut)
    requires Reuses(Step(e, db, cut), next)
    ensures var db', c := Step(e, db, cut), BuildOf(e, AfterIndex(db, cut), cut);
            && db'.graph == GraphOf(e, c.inputs) && db'.events == EventsOf(e, b)
            && (ReuseIsRight(e, db', next) <==>
                  GraphOf(e, c.inputs) == GraphOf(e, Fresh(db', next).inputs) &&
                    EventsOf(e, b) == EventsOf(e, Fresh(db', next)))
            && (c.inputs == Fresh(db', next).inputs && b == Fresh(db', next) ==> ReuseIsRight(e, db', next))
  {}

  /** And such reuse does happen: whatever complete store a failing rebuild met, if the checksum, the
      events and a part of the graph are there, the next unchanged scan takes it for complete. */
  lemma FailedRebuildIsReused(e: Engine, db: DB, cut: Run, next: Run)
    requires db.complete && db.events != {} && db.checksum == Some(next.config)
    requires cut.stop == Building && !Reuses(db, cut) && Step(e, db, cut).graph != {}
    requires next.command == Scan && next.stop != Indexing && next.edgesSeen && next.eventsSeen
    requires FilesChanged(Step(e, db, cut).rows, next) == 0
    ensures Reuses(Step(e, db, cut), next)
  {
    NoChangeKeepsRows(Step(e, db, cut).rows, next, next.walk);
  }

  /** What a store holds after an index command, which leaves the slot table as it was and reads it,
      and whose detectors ignore the skip set. Its build and a fresh one are made of the same if and
      only if the skip set is empty, no detector failed, and configuration and files are as they
      were. */
  lemma ReuseAfterIndexCommand(e: Engine, before: DB, run: Run, next: Run)
    requires run.command == Index && run.stop == Finished
    requires Reuses(Step(e, before, run), next)
    ensures var db, b := Step(e, before, run), BuildOf(e, AfterIndex(before, run), run);
            && db.slots == before.slots && Holds(e, db, b)
            && (ReuseIsRight(e, db, next) <==> SameResult(e, b, Fresh(db, next)))
            && (b == Fresh(db, next) <==>
                  next.skip == {} && run.lost == {} && run.config == next.config
                  && Look(db.rows, run.disk) == Look(db.rows, next.disk))
  {
    ReuseAfterRecordedBuild(e, before, run, next);
  }

  // ---------- concrete histories ----------

  /** An engine whose graph is the texts and the slots it reads, whose pass always finds a slot, and
      whose two detectors each report themselves. */
  const Echo: Engine := Engine(
    s => {"slot"},
    (b, i: Inputs) => if b == "call_graph" then i.input.texts.Values + i.slots else {},
    {"null_source", "leak"},
    (d, s, c, g) => {d})

  lemma EchoGraph(inputs: Inputs)
    ensures GraphOf(Echo, inputs) == inputs.input.texts.Values + inputs.slots
  {
    assert "call_graph" in Builders;
    forall f ensures f in GraphOf(Echo, inputs) <==> f in inputs.input.texts.Values + inputs.slots {
      assert f in Echo.builder("call_graph", inputs) <==> f in inputs.input.texts.Values + inputs.slots;
    }
  }

  lemma EchoEvents(b: Build)
    ensures EventsOf(Echo, b) == {"null_source", "leak"} - b.skip - b.lost
  {
    var graph := GraphOf(Echo, b.inputs);
    forall f ensures f in EventsOf(Echo, b) <==> f in {"null_source", "leak"} - b.skip - b.lost {
      assert f in Echo.detector(f, b.inputs.input, b.inputs.config, graph);
    }
  }

  function PlainScan(text: string, stop: Stop, skip: set<string>): Run {
    Run(Scan, map["a.c" := text], ["a.c"], {}, {}, Config("", true), skip, true, true, true, {}, true, true, stop, 1,
        {"slot"})
  }

  lemma PlainIndex(rows: Source, text: string, stop: Stop, skip: set<string>)
    requires rows.Keys <= {"a.c"}
    ensures var run := PlainScan(text, stop, skip);
            && IndexedRows(rows, run) == run.disk
            && FilesChanged(rows, run) == (if rows == run.disk then 0 else 1)
  {
    var run := PlainScan(text, stop, skip);
    assert run.walk[1..] == [] && run.walk[..1] == run.walk;
    assert IndexFiles(rows, run, run.walk) == rows["a.c" := run.disk["a.c"]] == run.disk;
    assert CountChanged(rows, run, run.walk) == if rows == run.disk then 0 else 1;
    assert StaleRows(run.disk, run) == {};
    assert run.disk - {} == run.disk;
  }

  lemma ChangedIsRebuilt(e: Engine, db: DB, run: Run)
    requires run.stop != Indexing && (FilesChanged(db.rows, run) != 0 || !db.complete)
    ensures !Reuses(db, run) && Step(e, db, run) == Rebuild(e, AfterIndex(db, run), run)
  {}

  /** What a plain scan of a changed file builds. */
  lemma PlainBuild(db: DB, text: string, stop: Stop, skip: set<string>)
    requires db.rows.Keys <= {"a.c"} && db.rows != map["a.c" := text] && stop != Indexing
    ensures var run := PlainScan(text, stop, skip);
            var b := BuildOf(Echo, AfterIndex(db, run), run);
            && Step(Echo, db, run) == Rebuild(Echo, db.(rows := map["a.c" := text]), run)
            && AfterIndex(db, run) == db.(rows := map["a.c" := text])
            && GraphOf(Echo, b.inputs) == {text} + db.slots
            && EventsOf(Echo, b) == {"null_source", "leak"} - skip
  {
    var run := PlainScan(text, stop, skip);
    PlainIndex(db.rows, text, stop, skip);
    ChangedIsRebuilt(Echo, db, run);
    var b := BuildOf(Echo, AfterIndex(db, run), run);
    assert b.inputs.input.texts == map["a.c" := text];
    EchoGraph(b.inputs);
    EchoEvents(b);
  }

  /** The store that a first plain scan leaves. */
  lemma FirstPlainScan(text: string, skip: set<string>)
    ensures Step(Echo, EmptyDB, PlainScan(text, Finished, skip))
         == DB(map["a.c" := text], {"slot"}, {text}, {"null_source", "leak"} - skip, Some(Config("", true)), true)
  {
    assert "a.c" in map["a.c" := text] && "a.c" !in EmptyDB.rows;
    PlainBuild(EmptyDB, text, Finished, skip);
    assert {text} + {} == {text};
  }

  lemma PlainReuse(db: DB, text: string, skip: set<string>)
    requires db.rows == map["a.c" := text] && db.graph != {} && db.events != {}
    requires db.checksum == Some(Config("", true)) && db.complete
    ensures Reuses(db, PlainScan(text, Finished, skip))
    ensures GraphOf(Echo, Fresh(db, PlainScan(text, Finished, skip)).inputs) == {text} + db.slots
    ensures EventsOf(Echo, Fresh(db, PlainScan(text, Finished, skip))) == {"null_source", "leak"} - skip
  {
    var run := PlainScan(text, Finished, skip);
    PlainIndex(db.rows, text, Finished, skip);
    assert Fresh(db, run).inputs.input.texts == map["a.c" := text];
    EchoGraph(Fresh(db, run).inputs);
    EchoEvents(Fresh(db, run));
  }

  /** A first scan whose reuse is wrong: the slot it found is not in its graph. */
  lemma FirstScanIsReusedWrongly()
    ensures var db := Step(Echo, EmptyDB, PlainScan("f", Finished, {}));
            Reuses(db, PlainScan("f", Finished, {})) && !ReuseIsRight(Echo, db, PlainScan("f", Finished, {}))
  {
    FirstPlainScan("f", {});
    var db := Step(Echo, EmptyDB, PlainScan("f", Finished, {}));
    PlainReuse(db, "f", {});
    assert db.graph == {"f"} && "slot" in {"f"} + db.slots;
  }

  /** A scan, an edit, a scan canceled after the edited file was indexed, and an unchanged scan: the
      last one reuses the graph of the old text. */
  lemma CanceledIndexIsReused()
    ensures var db := After(Echo, EmptyDB, [PlainScan("f", Finished, {}), PlainScan("g", Indexing, {})]);
            && Reuses(db, PlainScan("g", Finished, {})) && !ReuseIsRight(Echo, db, PlainScan("g", Finished, {}))
            && db.rows == map["a.c" := "g"] && db.graph == {"f"}
  {
    var first, cut := PlainScan("f", Finished, {}), PlainScan("g", Indexing, {});
    FirstPlainScan("f", {});
    var db := Step(Echo, EmptyDB, first);
    PlainIndex(db.rows, "g", Indexing, {});
    TwoSteps(Echo, EmptyDB, first, cut);
    PlainReuse(Step(Echo, db, cut), "g", {});
  }

  lemma TwoSteps(e: Engine, db: DB, first: Run, second: Run)
    ensures After(e, db, [first, second]) == Step(e, Step(e, db, first), second)
  {
    assert [first, second][1..] == [second] && [second][1..] == [];
    assert After(e, Step(e, db, first), [second]) == After(e, Step(e, Step(e, db, first), second), []);
  }

  /** A scan, an edit, a scan stopped in a builder before the slot's edge was written, and an
      unchanged scan: the last one reuses the partial graph. */
  lemma StoppedBuilderIsReused()
    ensures var db := After(Echo, EmptyDB, [PlainScan("f", Finished, {}), PlainScan("g", Building, {})]);
            && Reuses(db, PlainScan("g", Finished, {})) && !ReuseIsRight(Echo, db, PlainScan("g", Finished, {}))
            && db.graph == {"g"} && GraphOf(Echo, Fresh(db, PlainScan("g", Finished, {})).inputs) == {"g", "slot"}
  {
    StoppedHistory("f", "g");
    PlainReuse(After(Echo, EmptyDB, [PlainScan("f", Finished, {}), PlainScan("g", Building, {})]), "g", {});
    assert "slot" !in {"g"};
  }

  lemma StoppedPlainScan(db: DB, text: string)
    requires db.rows.Keys == {"a.c"} && db.rows != map["a.c" := text] && db.slots == {"slot"} && text != "slot"
    ensures Step(Echo, db, PlainScan(text, Building, {})) == db.(rows := map["a.c" := text], graph := {text})
  {
    PlainBuild(db, text, Building, {});
    assert {text} + {"slot"} - {"slot"} == {text};
  }

  /** A scan of one text stopped in a builder, after a finished scan of another. */
  lemma StoppedHistory(before: string, text: string)
    requires before != text && text != "slot"
    ensures After(Echo, EmptyDB, [PlainScan(before, Finished, {}), PlainScan(text, Building, {})])
         == DB(map["a.c" := text], {"slot"}, {text}, {"null_source", "leak"}, Some(Config("", true)), true)
  {
    FirstPlainScan(before, {});
    TwoSteps(Echo, EmptyDB, PlainScan(before, Finished, {}), PlainScan(text, Building, {}));
    var db := Step(Echo, EmptyDB, PlainScan(before, Finished, {}));
    assert db.rows["a.c"] == before;
    StoppedPlainScan(db, text);
    assert {"null_source", "leak"} - {} == {"null_source", "leak"};
  }

  /** The skip set is not part of the gate: events of another skip set are reused. */
  lemma OtherSkipSetIsReused()
    ensures var db := Step(Echo, EmptyDB, PlainScan("f", Finished, {"null_source"}));
            && Reuses(db, PlainScan("f", Finished, {}))
            && db.events == {"leak"} &&
              EventsOf(Echo, Fresh(db, PlainScan("f", Finished, {}))) == {"null_source", "leak"}
  {
    FirstPlainScan("f", {"null_source"});
    assert {"null_source", "leak"} - {"null_source"} == {"leak"};
    PlainReuse(Step(Echo, EmptyDB, PlainScan("f", Finished, {"null_source"})), "f", {});
  }
}
