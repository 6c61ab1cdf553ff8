# Verification of the secguard-clang driver

A Dafny 4.11 model of the code around the analysis engine of secguard-clang: the scan pipeline and
its caches, the settlement and write paths of the reporting command, the frontmatter parser of the
editor extension, and the name analysis of the allocator discovery. `dafny verify dfyconfig.toml`
checks all of it.

The modules follow the program:

- `Gate`, `BuilderPhase`, `PlanPhase`, `PlanTermination`, `PlanRuns`, `TypeLists`: the two concurrent
  phases of `runPipeline` as state machines whose steps are the atomic actions of single goroutines,
  the admission gate both use, and the per-type loops that read the plans by position.
- `GraphReuse`, `ReuseConditions`: the database that outlives a command, and when reusing a stored
  graph is right whatever the builders and detectors compute.
- `BraceScanner`, `Json`, `Salvage`: recovery of finding objects from a truncated batch. JSON text is
  RFC 8259, sections 2 to 7, with all whitespace and escapes kept.
- `Frontmatter`, `FrontmatterParser`, `FrontmatterFile`: the YAML subset, once as a reading of lines
  and once as the loop over a stack of aliased mutable maps, and the file around it.
- `FirstPerKey`, `Ordering`, `Settlement`: selection of authoritative reports; the compaction that
  writes into the slice it reads, and stable sorting.
- `Paths`, `FindingPaths`, `WriteBatch`, `WriteBatchLaws`, `Candidates`, `Text`: paths against the
  index, the `--write-json` transaction over the location-keyed store, the fate of every candidate,
  and the NUL-joined keys.
- `MemoryMonitor.dfy`, `NameAnalysis`, `Signatures`, `Discovery`: hysteresis in 64-bit arithmetic,
  ownership-transfer names, C signatures, and what the discovered suggestions depend on.

## What the proofs found

Where the code does less than its comments or tests suggest, the code is modelled as it is, a lemma
shows an instance, and another says exactly when the expected property holds.

- The comment at `sgre/internal/cli/pipeline.go:190-194` has the builders read the function-pointer
  slots that the pass just wrote. The repository index is loaded before the pass, so a scan's
  builders read the table of the run before, and an empty one in the first scan, which the next
  unchanged scan reuses. That reuse is right, for all builders and detectors, exactly when the pass
  found no slot (`FirstScanIff`, instance `FirstScanIsReusedWrongly`); after later clean runs, exactly
  when the table stored now is the one the last rebuild read (`CleanHistoryIff`), which a second
  rebuild of the same text brings about (`SecondRebuildSettlesTheSlots`).
- The reuse gate compares the configuration and the indexed files only. Over histories with any
  targets, skip sets and failures, the reuse is right for all builders and detectors exactly when the
  last rebuild had this configuration, this text of the indexed files and this slot table, and the
  detectors it skipped or lost are those the scan skips (`HistoryIff`, `RecordedBuildIff`,
  `IndexCommandIff`; instance `OtherSkipSetIsReused`).
- `graph_build_complete` is never lowered when a rebuild starts, so what a stopped rebuild left can be
  reused (`FailedRebuildIsReused`). That is right for all builders and detectors exactly when: stopped
  before ClearGraph, nothing was re-indexed and the old build read what a fresh one reads
  (`StopBeforeClearIff`, instance `CanceledIndexIsReused`); stopped in a builder, no fact was missing
  and the stopped build, the old one and a fresh one read the same (`StoppedBuilderIff`, instance
  `StoppedBuilderIsReused`); stopped before ClearSecurityEvents, all three read the same
  (`StopBeforeEventsIff`). In each case the detectors that the old build went without must be those
  the scan skips.
- The indent of a frontmatter line counts its trailing blanks as well (`IndentCountsTrailingBlanks`,
  instance `TrailingBlanksLoseTheChild`).
- Salvage takes an object nested in a row for a finding when its text decodes to one
  (`NestedObjectBecomesAFinding`; nothing but the rows is salvaged exactly when there is no such
  object, `CutBatchIsRecovered`).
- "One authoritative record per batch" holds exactly when no report's keys straddle
  (`OneRecordPerKeyIffNoStraddling`, instance `OverlappingSnapshotsAreBothListed`).
- A duplicate is counted before its upsert, and rows stay listed as written when the commit fails
  (`WrittenMinusDuplicates`, `ListedRowsAreStored`).
- When the transaction cannot begin, a batch lists none of the rows it was to write: not as written,
  not as failed. Every row is accounted for exactly when the transaction began or no row was to be
  written (`EveryRowIsAccountedFor`, instance `UnbegunBatchHidesItsRow`).
- A rejected batch has entered the dismissals before its invalid row in the ledger; the store is
  unchanged exactly when they were there already (`BadStatusRejectsTheBatch`).
- The unique key keeps the rule as spelled: two rows are one finding exactly when they agree on the
  spelled rule, the resolved path, the line and the variable (`RowsShareAFindingIff`, instance
  `RuleSpellingSplitsAFinding`).
- Review reads plans by a list that ignores the type filter; that is right exactly when the filter
  drops no active type (`ReviewReadsItsOwnPlansIffNothingIsFiltered`). Only scan sets that filter.
- A cgroup limit above a seventh of 2^63 wraps in the watermark computation
  (`DerivedWatermarksAreOrdered`, instance `HugeLimitGetsNoMonitor`).
- Two functions of one suggestion list with the same confidence, whose names differ in case only, come
  out in map iteration order; macros never do (`DiscoveryIsOrderFree`,
  `TiedFunctionsFollowTheIteration`, `MacroTwinDoesNotMatter`).

## Assumptions

Planner.Plan, builders, detectors, the JSON decoder and the store's failures are arbitrary: they
appear as events or as function parameters, and every theorem holds for all of them. In `GraphReuse`
the function-pointer pass, the builders and the detectors are functions of the snapshot, the
configuration and the tables they read. Transactions are atomic. SHA-256 and the configuration
checksum are injective. A sort called through sort.SliceStable is the stable sort of its input. Upper
and lower case concern ASCII letters.

## Model

| member | source | states |
|---|---|---|
| Gate.NewGate | sgre/internal/concurrency/gate.go:23-30 | a gate always has room for at least one task and starts empty |
| Gate.AdmissionGate.constructor | sgre/internal/concurrency/gate.go:25-30 | the object starts as that gate |
| Gate.AdmissionGate.TryAcquire | sgre/internal/concurrency/gate.go:34-47 | one attempt under the lock: admitted exactly below the limit (1 under pressure); a refused caller waits on the open channel and somebody holds a slot whose release will close it |
| Gate.AdmissionGate.Release | sgre/internal/concurrency/gate.go:57-71 | one slot less (never below zero) and every channel handed out so far is closed |
| PlanPhase.StepKeepsInv | sgre/internal/cli/pipeline.go:434-543 | every atomic step of every goroutine keeps the joint invariant of gate, mutex, summary channel, WaitGroup and per-type records |
| PlanRuns.EveryInterleavingIsSafe | sgre/internal/cli/pipeline.go:465-540 | in every interleaving: slot holders never exceed the gate's limit, a goroutine waiting on summaryReady holds none and taint types hold one only after it is closed, it is closed at most once, and planErrors is never written by two goroutines at once |
| PlanTermination.StepShrinksMeasure | sgre/internal/cli/pipeline.go:499-540 | every step lowers a natural number, so no schedule runs for ever, wake-ups and re-parking included |
| PlanRuns.Progress | sgre/internal/cli/pipeline.go:465-540 | until the phase has returned some step other than a cancellation is possible: no deadlock |
| PlanRuns.CanReturn | sgre/internal/cli/pipeline.go:496-543 | from every reachable state some continuation without a cancellation returns |
| PlanRuns.EveryScheduleEnds | sgre/internal/cli/pipeline.go:496-540 | every run is bounded by the initial measure, and a run that cannot go on has returned |
| PlanRuns.VerdictsComeFromEvents | sgre/internal/cli/pipeline.go:507-538 | a type's outcome is the one its own Plan call, panic or cancellation produced, and nothing else |
| PlanRuns.OutcomeIsComplete | sgre/internal/cli/pipeline.go:434-556 | on return every type has exactly one of plans[i] and planErrors[type], holding its own call's result or error text, planErrors has no other key, and summaryReady has been closed exactly once |
| TypeLists.ListsAgree | sgre/internal/planner/registry.go:223-256 | the pipeline (which prunes unknown disabled names) and the scan command (which does not) get the same list from any two iteration orders of the registry map |
| TypeLists.ReadPlans | sgre/internal/cli/scan.go:315-328 | the per-type loop gives an error package or the plan at the type's position, for each type in order |
| TypeLists.ScanReadsItsOwnPlans | sgre/internal/cli/scan.go:315-328 | after any interleaving of the plan phase, scan dereferences no missing plan and takes each plan for the type it was made for |
| TypeLists.ReviewReadsItsOwnPlansIffNothingIsFiltered | sgre/internal/cli/diff.go:181-193 | review, which builds its list without the type filter, does so if and only if the filter drops no active type; otherwise its list is longer than the plans |
| BuilderPhase.StepKeepsInv | sgre/internal/cli/pipeline.go:235-291 | every step keeps the joint invariant of gate, buffered channel, WaitGroup and the collecting goroutine |
| BuilderPhase.SendNeverBlocks | sgre/internal/cli/pipeline.go:264-285 | a goroutine with an error to send finds room in the channel, and the channel open |
| BuilderPhase.EveryInterleavingIsSafe | sgre/internal/cli/pipeline.go:235-291 | in every interleaving: at most `concurrency` builders run, no send blocks or follows the close, each goroutine has at most one error on the way, every schedule ends and can go on until the phase has returned |
| BuilderPhase.VerdictsComeFromEvents | sgre/internal/cli/pipeline.go:264-282 | a builder's verdict is the one its own build, panic or cancellation in the run produced, and nothing else |
| BuilderPhase.PhaseFailsExactlyWhenABuilderDoes | sgre/internal/cli/pipeline.go:264-291 | when the phase returns, each builder has the one verdict its own build or cancellation event in the run gave it; a text is among the errors, once, if and only if it is that of a builder whose event is a failure, panic or cancellation; the phase succeeds exactly when every builder's own success is in the run |
| BuilderPhase.StepShrinksMeasure | sgre/internal/cli/pipeline.go:235-291 | every step lowers a natural number |
| BuilderPhase.Progress | sgre/internal/cli/pipeline.go:235-291 | until the phase has returned some step other than a cancellation is possible |
| BuilderPhase.CanReturn | sgre/internal/cli/pipeline.go:264-291 | from every reachable state some continuation without a cancellation returns |
| GraphReuse.Store.IndexTree | sgre/internal/indexer/indexer.go:80-160 | the file loop and the deletion sweep leave the rows and the change count of the specification, also when canceled between two files |
| GraphReuse.Store.BuildGraph | sgre/internal/cli/pipeline.go:155-291 | the updates from ClearGraph to the last builder, cut off anywhere |
| GraphReuse.Store.RecordEvents | sgre/internal/cli/pipeline.go:296-389 | the updates from ClearSecurityEvents to the second SetMeta, cut off anywhere |
| GraphReuse.Store.Execute | sgre/internal/cli/pipeline.go:133-389 | a whole command's store updates, with the reuse gate, are the transition function the lemmas are about |
| GraphReuse.ReuseChangesNothing | sgre/internal/cli/pipeline.go:141-153 | a scan that reuses leaves the store as it found it |
| GraphReuse.ReuseEqualsRebuild | sgre/internal/cli/pipeline.go:133-389 | over every history of commands in which none stopped early, with any targets, skip sets, unreadable files, lost detectors and failed meta writes, and for each engine: a reusing scan finds exactly what the last build computed from the rows the store has |
| GraphReuse.CleanReuseDiffersInTheTable | sgre/internal/cli/pipeline.go:141-199 | over every history of whole-tree commands with one skip set in which nothing failed, a fresh build differs from the stored one in the slot table at most, and the reuse is right if and only if the graphs for the two tables agree |
| GraphReuse.ReuseEqualsRebuildWithoutThePass | sgre/internal/cli/pipeline.go:141-199 | with the indirect-call pass off in every configuration used, the reuse over such a history is right without a condition |
| GraphReuse.FirstScanIsReusedWrongly | sgre/internal/cli/pipeline.go:171-199 | a history and an engine for which it is wrong |
| GraphReuse.SecondRebuildSettlesTheSlots | sgre/internal/cli/pipeline.go:171-199 | after a second rebuild of the same text the reuse is right, for all builders |
| GraphReuse.ReuseAfterInterruptedRebuild | sgre/internal/cli/pipeline.go:133-389 | a reuse after an early stop means the flag was up before and the stop is one of six |
| GraphReuse.StoppedBuilderIsReused | sgre/internal/cli/pipeline.go:283-291 | a history and an engine for which a partial graph is reused and wrong |
| GraphReuse.FailedRebuildIsReused | sgre/internal/cli/pipeline.go:283-291 | whatever complete store a failing rebuild met, if checksum, events and part of the graph are there, the next unchanged scan reuses them |
| GraphReuse.CanceledIndexIsReused | sgre/internal/indexer/indexer.go:90-122 | a scan, an edit, a canceled scan and an unchanged scan, and an engine: the last scan reuses the graph of the old text, wrongly |
| GraphReuse.OtherSkipSetIsReused | sgre/internal/cli/pipeline.go:141-153 | a history and an engine for which events of another skip set are reused |
| ReuseConditions.OnlyTheSameAlwaysAgrees | sgre/internal/cli/pipeline.go:133-389 | what is left in graph and event tables is what a build computes, for every engine whose result the gate lets through, if and only if no fact is missing, both tables come from the inputs of that build, and the same detectors were skipped or lost |
| ReuseConditions.RecordedBuildIff | sgre/internal/cli/pipeline.go:296-389 | after any store whatever and a build that recorded its events: the reuse is right for all builders and detectors if and only if configuration, texts of the indexed files and slot table are the ones it read, and the detectors it skipped or lost are those the scan skips |
| ReuseConditions.FirstScanIff | sgre/internal/cli/pipeline.go:171-199 | the first scan of a store and the next unchanged one: the reuse is right for all builders and detectors if and only if the slot pass found nothing |
| ReuseConditions.IndexCommandIff | sgre/internal/cli/index.go:83-145 | reusing the build of an index command is right for all builders and detectors if and only if configuration and files are as they were and the detectors it lost are those the scan skips |
| ReuseConditions.HistoryIff | sgre/internal/cli/pipeline.go:133-389 | over every history in which no run stopped early: the reused store is the one its last rebuild left, and the reuse is right for all builders and detectors of that rebuild if and only if it read the configuration, texts and slot table of now and went without exactly the detectors the scan skips |
| ReuseConditions.CleanHistoryIff | sgre/internal/cli/pipeline.go:141-199 | over every history of whole-tree commands with one skip set in which nothing failed: the reuse is right for all builders and detectors of the last rebuild if and only if the slot table stored now is the one the last rebuild read |
| ReuseConditions.StopBeforeClearIff | sgre/internal/indexer/indexer.go:90-122 | stopped in or after Index on a store that held a build: the reuse is right for all builders and detectors if and only if nothing was re-indexed, the old build read what a fresh one reads, and it went without exactly the detectors the scan skips |
| ReuseConditions.StoppedBuilderIff | sgre/internal/cli/pipeline.go:235-291 | stopped in a builder: if and only if no fact was missing, the stopped build, the old one and a fresh one read the same, and the old one went without exactly the detectors the scan skips |
| ReuseConditions.StopBeforeEventsIff | sgre/internal/cli/pipeline.go:291-300 | stopped between the last builder and ClearSecurityEvents: if and only if the stopped build, the old one and a fresh one read the same, and the old one went without exactly the detectors the scan skips |
| BraceScanner.BalancedObjects | sgre/internal/cli/report.go:2099-2130 | the loop over the array returns the spans of the specification |
| BraceScanner.ScanConcat | sgre/internal/cli/report.go:2099-2130 | scanning two texts after one another is scanning their concatenation |
| BraceScanner.SpansAreTheMatches | sgre/internal/cli/report.go:2099-2130 | on arbitrary bytes: a span is listed exactly when an opening brace outside strings has its matching brace at the end, and the list is ordered by end without repetition |
| BraceScanner.SpansAreNestedOrDisjoint | sgre/internal/cli/report.go:2112-2126 | any two spans are nested or disjoint |
| BraceScanner.InnerEndsFirst | sgre/internal/cli/report.go:2112-2126 | of two nested spans the inner one is listed first |
| BraceScanner.SpansOfPrefix | sgre/internal/cli/report.go:2099-2130 | the spans of any byte prefix are a prefix of the spans of the whole |
| Json.ScanValue | sgre/internal/cli/report.go:2099-2130 | scanning the text of any JSON value (any whitespace, any escapes) from outside a string restores the scanner and emits one span per object, in post-order |
| Json.SpansOfCutValue | sgre/internal/cli/report.go:2099-2130 | a value cut at any byte yields exactly the objects complete before the cut |
| Salvage.SalvageFindingObjects | sgre/internal/cli/report.go:2081-2094 | the loop keeps, in order, what decodes from each span with a rule and a status |
| Salvage.ParseInput | sgre/internal/cli/report.go:2020-2037 | empty input is rejected, a strict parse wins, otherwise salvage, and the strict error when it finds nothing |
| Salvage.CutBatchIsRecovered | sgre/internal/cli/report.go:2020-2094 | a batch of any rows cut at any byte: every complete accepted row is recovered, in order, and nothing else if and only if no object nested in a row was itself complete and accepted |
| Salvage.NestedObjectBecomesAFinding | sgre/internal/cli/report.go:2081-2094 | in any batch complete up to its closing bracket, an object at any depth in any row, whose own text decodes to a usable finding, is salvaged as a finding of its own, so more is salvaged than there are complete accepted rows |
| Frontmatter.LineRoundTrip | extension/opencode/index.ts:52-62 | a printed line is read back with its indent, key and value |
| Frontmatter.RoundTrip | extension/opencode/index.ts:50-80 | for every nested document with colon- and newline-free keys and newline-free values, at any start indent and any step, parsing its quoted, indented text gives the map it stands for |
| Frontmatter.IndentCountsTrailingBlanks | extension/opencode/index.ts:58 | for every line that is read, the indent is its leading and its trailing white characters together, and the leading ones alone if and only if it does not end in a white character |
| Frontmatter.PrintedWithBlanks | extension/opencode/index.ts:52-62 | a printed line with blanks behind it is read with the indent of both |
| Frontmatter.LinePair | extension/opencode/index.ts:66-78 | a value line becomes a child of the key line before it exactly when it is indented deeper |
| Frontmatter.TrailingBlanksLoseTheChild | extension/opencode/index.ts:58 | two blanks after a key move its child out of the map |
| FrontmatterParser.ReadLines | extension/opencode/index.ts:51-62 | the first loop collects the lines of the specification |
| FrontmatterParser.PopClosed | extension/opencode/index.ts:67-69 | popping down to a shallower frame keeps the stack invariant and the meaning of what is still to be read |
| FrontmatterParser.PlaceLine | extension/opencode/index.ts:70-77 | storing a value, or a child map that is pushed, keeps the invariant: indents strictly increasing from -1, every stacked map the child stored in the one below |
| FrontmatterParser.Pop | extension/opencode/index.ts:67-69 | a popped frame's map is finished: it stands for a value that no later step changes |
| FrontmatterParser.BuildTree | extension/opencode/index.ts:64-79 | the aliased, mutated maps end up standing for the recursive reading of the lines |
| FrontmatterParser.ParseTree | extension/opencode/index.ts:50-80 | the object graph built from a text stands for the map of the specification |
| FrontmatterFile.FirstFenceBehind | extension/opencode/index.ts:83 | the lazy match stops at the first fence behind a text none of whose lines starts with a dash |
| FrontmatterFile.FileRoundTrip | extension/opencode/index.ts:82-86 | a printed document between fences, with any body behind, is read back as its map and the trimmed body |
| Settlement.ListReports | sgre/internal/cli/reports.go:161-206 | sorting, compacting and sorting again in one backing array gives the listing of the specification |
| FirstPerKey.CompactInPlace | sgre/internal/cli/reports.go:177-195 | compaction into the prefix of the slice being read equals the filter, for any items and keys |
| FirstPerKey.HasNewKey | sgre/internal/cli/reports.go:181-189 | the inner loop decides whether some key is new |
| FirstPerKey.KeptInOrder | sgre/internal/cli/reports.go:177-195 | the kept items are, in order, those at the positions that open a key |
| FirstPerKey.CompactTwice | sgre/internal/cli/reports.go:177-195 | compaction is idempotent |
| Ordering.SortForgetsOrder | sgre/internal/cli/reports.go:168-176 | a stable sort without ties gives one result for every arrangement of its input |
| Ordering.OrderForgottenIffTieFree | sgre/internal/allocdiscover/discover.go:538-546 | and it does so if and only if no two different elements are tied |
| Ordering.SortOfConcat | sgre/internal/allocdiscover/discover.go:147-150 | sorting a list with a tail is the stable merge of the two sorted |
| Ordering.SortIsStable | sgre/internal/allocdiscover/discover.go:538-546 | sorting keeps tied elements in their order |
| Settlement.KeptExactlyTheLeaders | sgre/internal/cli/reports.go:161-206 | the listed reports are exactly those that come first, in the order (valid, newer, smaller file name), for at least one of their keys; they are listed newest first |
| Settlement.NoKeyLosesCoverage | sgre/internal/cli/reports.go:168-195 | for every key of every report the report that leads it is listed |
| Settlement.ValidIsDisplacedByValid | sgre/internal/cli/reports.go:161-195 | a dropped valid report has every key covered by a listed valid report before it |
| Settlement.DirectoryOrderIsForgotten | sgre/internal/cli/reports.go:168-206 | the listing does not depend on the order the directory is read in |
| Settlement.OneRecordPerKeyIffNoStraddling | sgre/internal/cli/reports.go:161-195 | a key is listed once if and only if no report has some keys taken by earlier reports and leads another |
| Settlement.OverlappingSnapshotsAreBothListed | sgre/internal/cli/reports.go:161-195 | a newer snapshot of one type and an older one of that type and another are both listed |
| Settlement.KeysAreFaithful | sgre/internal/cli/reports.go:208-220 | a key stands for one subagent, type and normalised range when no name holds NUL, and is never the key of a report without processed types |
| Settlement.SettledRangeStaysSettled | sgre/internal/cli/reports.go:88-206 | from the directory to the listing: every range of a valid report stays covered by a listed valid report, which is no chunk file |
| Paths.RootTest | sgre/internal/cli/report.go:1604 | the string prefix test of the loop is the component prefix, except for the root directory |
| Paths.DirOfPath | sgre/internal/cli/report.go:1601-1605 | filepath.Dir drops the last component, and the root is its own directory |
| Paths.ShrinkRoot | sgre/internal/cli/report.go:1604-1610 | shrinking ends at the longest directory, by components, that both are under |
| Paths.IndexPathRoot | sgre/internal/cli/report.go:1597-1613 | the result is the longest common directory, by components, of all indexed files, and empty without files |
| FindingPaths.ResolvePath | sgre/internal/cli/report.go:239-260 | the loop returns the resolution of the specification |
| FindingPaths.ResolvesToAShortestMatch | sgre/internal/cli/report.go:246-259 | a relative path resolves to the first of the shortest indexed paths that equal it or end in it at a component boundary, and to itself when there is none |
| FindingPaths.TailsResolve | sgre/internal/cli/report.go:229-238 | an indexed path is found from any clean tail of it, or a path at most as long is |
| FindingPaths.DedupeAndNormalize | sgre/internal/cli/report.go:268-285 | every finding's path is rewritten in place and the result is the specified selection of the same objects |
| FindingPaths.KeepsTheFirstOfEachKey | sgre/internal/cli/report.go:261-285 | the result is, in order and normalised, exactly the rows that are the first of their key |
| FindingPaths.DedupeTwice | sgre/internal/cli/report.go:268-285 | with absolute or clean indexed paths a second pass changes nothing |
| FindingPaths.RowKeysAreFaithful | sgre/internal/cli/report.go:277 | the joined key stands for one row when the fields before the last hold no NUL |
| WriteBatch.Store.Validate | sgre/internal/cli/report.go:634-752 | the first pass stops at the first invalid status, otherwise collects pending rows, errors and dismissals; dismissals enter the ledger at once |
| WriteBatch.Store.WriteAll | sgre/internal/cli/report.go:764-797 | the transaction probes and upserts every pending row and commits all or nothing; if it does not begin it takes no row and changes nothing |
| WriteBatch.Store.Write | sgre/internal/cli/report.go:634-840 | a whole batch: outcome and store are those of the specification, also when the transaction does not begin or its commit fails |
| WriteBatchLaws.EveryRowIsAccountedFor | sgre/internal/cli/report.go:634-840 | an accepted batch lists no row twice; a row is listed nowhere exactly when it was to be written and the transaction did not begin, so every row is listed, and the counts add up, if and only if the transaction began or no row was to be written; the commit error is listed exactly when begin or commit failed; the exit code is 0 exactly when both worked and every row that was not dismissed is written |
| WriteBatchLaws.UnbegunBatchHidesItsRow | sgre/internal/db/store_impl.go:63-72 | one valid row and a transaction that does not begin: nothing is written, dismissed or listed but the one commit error, and the store is as it was |
| WriteBatchLaws.BadStatusRejectsTheBatch | sgre/internal/cli/report.go:669-717 | a batch enters exactly the dismissals before its first invalid status in the ledger; such a status rejects it and no finding is written, and the store is left as it was if and only if these dismissals were all there already |
| WriteBatchLaws.UpsertKeeps | sgre/internal/db/crud_findings.go:108-162 | an upsert adds at most its own key and keeps the id and review of every row |
| WriteBatchLaws.StoreHoldsTheKeysWritten | sgre/internal/cli/report.go:754-797 | over any sequence of batches, accepted or not, committed or not: the rows are those before and the distinct keys committed since, and a row keeps its id and review |
| WriteBatchLaws.IdsStayDistinct | sgre/internal/db/crud_findings.go:132-162 | over whole runs no two findings have the same id |
| WriteBatchLaws.WrittenMinusDuplicates | sgre/internal/cli/report.go:764-797 | from an empty store the row count is the number of distinct keys committed; the sum of written minus duplicates is that number if and only if no committed batch found a row it then failed to write |
| WriteBatchLaws.ListedRowsAreStored | sgre/internal/cli/report.go:791-804 | the rows a batch reports as written are all in the store afterwards if and only if the commit did not fail or they were all there before; a transaction that does not begin reports none |
| WriteBatchLaws.ReplayChangesNothing | sgre/internal/cli/report.go:754-797 | replaying a faultlessly written batch leaves every finding as it is and reports every written row as a duplicate |
| WriteBatchLaws.RowsShareAFindingIff | sgre/internal/cli/report.go:733-797 | any two rows that a batch lists as written, its commit not failing, are the same stored finding if and only if they agree on the rule as spelled, the resolved path, the line and the variable |
| WriteBatchLaws.RuleSpellingSplitsAFinding | sgre/internal/cli/report.go:719-748 | two rows for one location whose rules differ in case or blanks only become two findings |
| Candidates.SplitBySuspicion | sgre/internal/cli/scan.go:773-789 | the two tiers are the two complementary filters |
| Candidates.AutoConfirm | sgre/internal/cli/scan.go:791-878 | upserts stop at the first failing located candidate; stored and unwritten are stated exactly |
| Candidates.ConfirmOrReview | sgre/internal/cli/scan.go:364-375 | whatever upsert fails and whichever candidates lack a location, the kept candidates are the stored ones plus the review list, each exactly once; only proved, located ones are stored |
| Candidates.ReviewType | sgre/internal/cli/diff.go:196-217 | in an incremental review each candidate on a changed line, new and not suppressed is in exactly one of the store and the review list |
| Candidates.ScopeToDiffLines | sgre/internal/cli/diff.go:420-436 | keeps exactly the candidates whose sink or source line is changed, in order |
| Candidates.FilterByBaseline | sgre/internal/cli/diff.go:437-452 | keeps exactly the candidates whose fingerprint is new, and counts the others |
| Candidates.FilterSuppressed | sgre/internal/cli/suppression.go:95-111 | kept, suppressed and known candidates add up |
| Candidates.PayloadsAreFaithful | sgre/internal/cli/fingerprint.go:20-28 | the payload determines the normalised rule, file, function, line and statement when rule, file and function hold no NUL |
| Candidates.BaselineHitMeansSameDefect | sgre/internal/cli/diff.go:437-452 | without a hash collision a candidate is dropped exactly when an earlier finding has the same rule, file, function, line and statement |
| Candidates.LocationKeysAreFaithful | sgre/internal/cli/scan.go:764-771 | a location key stands for one file, line and variable when no file name holds NUL |
| Candidates.NulInAFileNameMergesPlaces | sgre/internal/cli/scan.go:764-771 | with NUL in a file name two places share a key |
| Candidates.CountLocations | sgre/internal/cli/scan.go:764-771 | the count is the number of distinct places |
| Candidates.LocationsAreRows | sgre/internal/cli/scan.go:755-771 | it is the number of rows that writing the candidates under one rule creates |
| Text.ItoaIsUnique | sgre/internal/cli/fingerprint.go:24 | a line number is read off its decimal form |
| Text.FirstField | sgre/internal/cli/fingerprint.go:20-28 | a field without NUL is read off the front of a joined key |
| MemoryMonitors.MemoryMonitor.constructor | sgre/internal/cli/mempressure.go:32-41 | the low watermark is kept, or pinned to 75% of the high one, in wrapping int64 arithmetic |
| MemoryMonitors.MemoryMonitor.Sample | sgre/internal/cli/mempressure.go:82-101 | one sample updates flag and reading as the history demands |
| MemoryMonitors.FlagMeans | sgre/internal/cli/mempressure.go:82-101 | after every sample sequence the flag is up exactly when some sample reached the high watermark and every later one stayed above the low one |
| MemoryMonitors.MemoryMonitor.PressuredMeans | sgre/internal/cli/mempressure.go:56-65 | what Pressured answers, in terms of everything sampled so far |
| MemoryMonitors.EqualWatermarksToggle | sgre/internal/cli/mempressure.go:32-41 | with equal watermarks it would not be |
| MemoryMonitors.WatermarksAreOrdered | sgre/internal/cli/mempressure.go:32-41 | 0 < low < high holds for a usable low watermark, and for the pinned one exactly when high is at least 2 and the product by 3 does not wrap to less than 4 |
| MemoryMonitors.DerivedWatermarksAreOrdered | sgre/internal/cli/pipeline.go:238-257 | for every limit: the watermarks are ordered and not above the limit whenever a monitor is started; one is started exactly when the product by 7, as it wraps, is at least 10 MiB and not negative; the high watermark is 70% of the limit in whole MiB exactly when the product does not wrap |
| MemoryMonitors.HugeLimitGetsNoMonitor | sgre/internal/config/cgroup.go:113-135 | a limit of two exabytes, which is read as finite, gets no monitor |
| NameAnalysis.ContainsCamelWord | sgre/internal/apikb/apikb.go:911-929 | the loop is the skipping search of the specification |
| NameAnalysis.SearchIsExactIffSkippable | sgre/internal/apikb/apikb.go:907-929 | the search finds exactly the whole words, for every name, if and only if a capital letter follows wherever the word overlaps itself |
| NameAnalysis.VerbsAreFound | sgre/internal/apikb/apikb.go:897-904 | which holds for each of the ten verbs |
| NameAnalysis.Registry.RegisterOwnershipTransfer | sgre/internal/apikb/apikb.go:938-945 | adds the name unless it is empty |
| NameAnalysis.Registry.IsEscapeFunction | sgre/internal/apikb/apikb.go:870-905 | the two loops decide: an ownership model first, then the declared names, then the name heuristic |
| NameAnalysis.SuggestedIffEscapesByName | sgre/internal/allocdiscover/discover.go:572-593 | a name without model or declaration is suggested exactly when it is treated as an escape |
| NameAnalysis.DeclaringASuggestionChangesNothing | sgre/internal/allocdiscover/discover.go:572-593 | declaring a name changes some answer if and only if it is new, has no ownership model and is not suggested |
| Signatures.SplitParams | sgre/internal/allocdiscover/discover.go:480-511 | the loop cuts where the specification does |
| Signatures.CutsExactlyAtOuterCommas | sgre/internal/allocdiscover/discover.go:490-510 | for every text and every list: the loop's cut is this list if and only if joining it with commas gives the text, no piece has a comma outside brackets and every piece but the last is closed |
| Signatures.SignatureRoundTrip | sgre/internal/allocdiscover/discover.go:480-511 | for any name, any blanks after commas and any trimmed, closed parameters without outer commas, splitting gives back the list (and nothing for void) |
| Discovery.JoinCallees | sgre/internal/allocdiscover/discover.go:513-525 | the loop keeps each name once, then sorts and joins |
| Discovery.CalleeTextIsASet | sgre/internal/allocdiscover/discover.go:513-525 | the text depends on the set of callees only |
| Discovery.CallOrderIsForgotten | sgre/internal/allocdiscover/discover.go:91-110 | reordering the call edges changes no classification |
| Discovery.DiscoverSymbols | sgre/internal/allocdiscover/discover.go:112-132 | the function loop places each symbol as specified and records its name |
| Discovery.DiscoverMacros | sgre/internal/allocdiscover/discover.go:133-146 | the macro loop skips the names already suggested |
| Discovery.Discover | sgre/internal/allocdiscover/discover.go:112-152 | the two loops and the sorting give the suggestions of the specification |
| Discovery.EachNameOnce | sgre/internal/allocdiscover/discover.go:112-152 | every name is suggested at most once over the four lists |
| Discovery.DiscoveryIsOrderFree | sgre/internal/allocdiscover/discover.go:91-152 | with the macros in the order of their names, every iteration order of the symbol map and every order of the call edges give the same result if and only if no two different functions of one list have the same confidence and names that agree ignoring case |
| Discovery.TiedFunctionsFollowTheIteration | sgre/internal/allocdiscover/discover.go:538-546 | two such functions, anywhere in any project: some other iteration of the map gives another result |
| Discovery.MacroTwinDoesNotMatter | sgre/internal/allocdiscover/discover.go:133-150 | a function and any macros, whatever their names, are order-free |
| Discovery.DistinctNamesLeaveNoTie | sgre/internal/allocdiscover/discover.go:538-546 | functions whose names differ ignoring case are never tied |

## Left out

- The analysis itself: parsers, graph builders, detectors, the planner's filters and SQLite; they are oracles here.
- Logging, timings, timers, signals, subprocesses, git and the rendering of Markdown, SARIF and xlsx.
- GraphReuse.Store.BuildGraph: the slot pass stores its table in one step, and a stopped builder phase leaves a part of the graph that the complete phase would have stored; other leftovers are not modelled.
- GraphReuse: builders that read one another's edges while they run are not modelled.
- Goroutine interleavings finer than one channel, mutex, gate or map operation: the Go memory model is not modelled.
- PlanRuns.EveryScheduleEnds: assumes that every Plan call and the summary prewarm return or panic; a call that never ends is not modelled.
- The summary prewarm's own errors and panics: they only end the prewarm, which still closes the channel.
- Salvage.ParseInput: takes trimmed input; bytes.TrimSpace and the accepted envelopes of the strict parse are not modelled.
- Json.ScanValue: works on bytes and does not check that strings are UTF-8 or that numbers are well formed, which the scanner ignores.
- JavaScript strings are sequences of characters; UTF-16 surrogates are not modelled.
- FrontmatterParser.ParseTree: a plain map stands for the JavaScript object, so the special key `__proto__`, which does not become an entry there, is not modelled.
- asString, asMap, asNumber and the agent loader of the extension: one-branch accessors.
- Settlement.ListReports: the progress figures, times and error texts of a report are not modelled; a clock reading is an input.
- WriteBatch.Store.Write: confidence, severity and the texts of a row are one opaque field; alias normalisation, scan id resolution and the Markdown sync are not modelled.
- WriteBatch.Store.Write: fault positions are the rows' own; busy retries inside one store call are part of the call.
- Candidates.AutoConfirm: the finding's summary, severity and fix text are not modelled, only whether and in which order candidates reach the store.
- readStatement: the trimmed source line is a function parameter.
- Paths.IndexPathRoot: POSIX separators, and clean absolute indexed paths, which is how the indexer stores them.
- MemoryMonitor.Wait and the readers of cgroup and /proc files: samples are inputs.
- Discovery.Discover: the macro bodies' identifiers and the merging of functions, declarations and node ids into one record per name are inputs.
- The constant tables of apikb, the release policies and normalizeAliases: finite facts.
- classify.go: it depends on the worker contract, and its line 111 drops the unwritten remainder, so it is not part of the conservation claim.
