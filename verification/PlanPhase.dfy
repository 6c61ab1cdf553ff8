/** The plan phase of runPipeline (pipeline.go:434-543) as a state machine.

    One goroutine per vulnerability type runs Planner.Plan under an admission gate; goroutines of
    taint types first wait for the shared summary; failures and panics are written to planErrors
    under a mutex; the launching goroutine waits on a WaitGroup. Every step below is one atomic
    action of one goroutine, and runs are arbitrary interleavings. Planner.Plan is an oracle that
    returns a result, returns an error or panics; memory pressure is whatever each admission
    attempt happens to observe; the context may be canceled at any time. */
module PlanPhase {
  import opened Options
  import opened Gate
  import opened Sums

  datatype PlanResult = PlanResult(seedCount: nat, candidates: seq<string>)

  /** What became of one type: the result of its Plan call, or the reason there is none. */
  datatype Verdict =
    | Planned(result: PlanResult)
    | Failed(error: string)
    | Panicked(reason: string)
    | Canceled

  function ErrorText(vulnType: string, v: Verdict): string
    requires !v.Planned?
  {
    match v
    case Failed(error) => error
    case Panicked(reason) => "plan " + vulnType + " panicked: " + reason
    case Canceled => "canceled while waiting for memory capacity"
  }

  /** Where a goroutine is. `holding` says whether its deferred planGate.Release is still due. */
  datatype Pc =
    | Unborn
    | Start
    | AwaitSummary
    | TryAcquire
    | Parked(channel: nat)
    | Planning
    | LockErrors(text: string, holding: bool)
    | WriteErrors(text: string, holding: bool)
    | UnlockErrors(holding: bool)
    | Releasing(panic: Option<string>)
    | Finishing
    | Done

  datatype Summary = Computing | Closing | Closed

  datatype State = State(
    pcs: seq<Pc>,
    gate: GateState,
    plans: seq<Option<PlanResult>>,
    planErrors: map<string, string>,
    mutex: Option<nat>,          // owner of planErrMu
    summary: Summary,
    summaryCloses: nat,          // how often close(summaryReady) ran
    canceled: bool,
    launched: nat,               // goroutines started so far
    waiting: nat,                // the WaitGroup counter
    returned: bool,              // pwg.Wait() has passed
    verdicts: seq<Option<Verdict>>)  // history: no guard below reads it

  datatype Config = Config(types: seq<string>, taint: set<string>, concurrency: int) {
    predicate Valid() {
      forall i, j :: 0 <= i < j < |types| ==> types[i] != types[j]
    }
  }

  datatype Event =
    | Launch
    | WaitPasses
    | SummaryEnds                 // success, error and panic all lead to the deferred close
    | SummaryCloses
    | Cancel
    | Begin(i: nat)
    | SummarySeen(i: nat)
    | Acquire(i: nat, pressured: bool)
    | Woken(i: nat)
    | SeesCancel(i: nat)
    | PlanEnds(i: nat, outcome: Verdict)
    | TakeLock(i: nat)
    | StoreError(i: nat)
    | DropLock(i: nat)
    | Release(i: nat)
    | Finish(i: nat)

  /** The summary is computed in the background only when a taint type has a seed event;
      otherwise the channel is closed before the first goroutine starts. */
  function Init(cfg: Config, prewarm: bool): State {
    var n := |cfg.types|;
    State(seq(n, i => Unborn), NewGate(cfg.concurrency), seq(n, i => None), map[], None,
          if prewarm then Computing else Closed, if prewarm then 0 else 1,
          false, 0, 0, false, seq(n, i => None))
  }

  predicate Enabled(cfg: Config, s: State, e: Event)
    requires |s.pcs| == |cfg.types|
  {
    match e
    case Launch => s.launched < |s.pcs|
    case WaitPasses => s.launched == |s.pcs| && s.waiting == 0 && !s.returned
    case SummaryEnds => s.summary == Computing
    case SummaryCloses => s.summary == Closing
    case Cancel => !s.canceled
    case Begin(i) => i < |s.pcs| && s.pcs[i] == Start
    case SummarySeen(i) => i < |s.pcs| && s.pcs[i] == AwaitSummary && s.summaryCloses > 0
    case Acquire(i, _) => i < |s.pcs| && s.pcs[i] == TryAcquire
    case Woken(i) => i < |s.pcs| && s.pcs[i].Parked? && s.gate.Closed(s.pcs[i].channel)
    case SeesCancel(i) => i < |s.pcs| && s.pcs[i].Parked? && s.canceled
    case PlanEnds(i, outcome) => i < |s.pcs| && s.pcs[i] == Planning && outcome != Canceled
    case TakeLock(i) => i < |s.pcs| && s.pcs[i].LockErrors? && s.mutex == None
    case StoreError(i) => i < |s.pcs| && s.pcs[i].WriteErrors?
    case DropLock(i) => i < |s.pcs| && s.pcs[i].UnlockErrors?
    case Release(i) => i < |s.pcs| && s.pcs[i].Releasing?
    case Finish(i) => i < |s.pcs| && s.pcs[i] == Finishing
  }

  function Goto(s: State, i: nat, pc: Pc): State
    requires i < |s.pcs|
  {
    s.(pcs := s.pcs[i := pc])
  }

  ghost predicate Shape(cfg: Config, s: State) {
    && cfg.Valid()
    && |s.pcs| == |s.plans| == |s.verdicts| == |cfg.types|
    && s.launched <= |s.pcs|
    && (forall i :: 0 <= i < |s.pcs| ==> (s.pcs[i].Unborn? <==> s.launched <= i))
    && s.waiting == Sum(LiveFlags(s.pcs))
  }

  function Apply(cfg: Config, s: State, e: Event): State
    requires |s.pcs| == |s.plans| == |s.verdicts| == |cfg.types| && Enabled(cfg, s, e)
  {
    match e
    case Launch =>
      Goto(s, s.launched, Start).(launched := s.launched + 1, waiting := s.waiting + 1)
    case WaitPasses => s.(returned := true)
    case SummaryEnds => s.(summary := Closing)
    case SummaryCloses => s.(summary := Closed, summaryCloses := s.summaryCloses + 1)
    case Cancel => s.(canceled := true)
    case Begin(i) => Goto(s, i, if cfg.types[i] in cfg.taint then AwaitSummary else TryAcquire)
    case SummarySeen(i) => Goto(s, i, TryAcquire)
    case Acquire(i, pressured) =>
      if s.gate.Admits(pressured) then
        Goto(s, i, Planning).(gate := s.gate.Admit())
      else
        Goto(s, i, Parked(s.gate.generation))
    case Woken(i) => Goto(s, i, TryAcquire)
    case SeesCancel(i) => Fail(cfg, s, i, Canceled, false)
    case PlanEnds(i, outcome) =>
      (match outcome
       case Planned(r) =>
         Goto(s, i, Releasing(None)).(plans := s.plans[i := Some(r)], verdicts := s.verdicts[i := Some(outcome)])
       case Panicked(_) =>
         Goto(s, i, Releasing(Some(ErrorText(cfg.types[i], outcome)))).(verdicts := s.verdicts[i := Some(outcome)])
       case _ => Fail(cfg, s, i, outcome, true))
    case TakeLock(i) => Goto(s, i, WriteErrors(s.pcs[i].text, s.pcs[i].holding)).(mutex := Some(i))
    case StoreError(i) =>
      Goto(s, i, UnlockErrors(s.pcs[i].holding)).(planErrors := s.planErrors[cfg.types[i] := s.pcs[i].text])
    case DropLock(i) => Goto(s, i, if s.pcs[i].holding then Releasing(None) else Finishing).(mutex := None)
    case Release(i) =>
      Goto(s, i, match s.pcs[i].panic case None => Finishing case Some(text) => LockErrors(text, false))
      .(gate := s.gate.Freed())
    case Finish(i) => Goto(s, i, Done).(waiting := if s.waiting > 0 then s.waiting - 1 else 0)
  }

  /** The two paths that write an error before any deferred call runs. */
  function Fail(cfg: Config, s: State, i: nat, v: Verdict, holding: bool): State
    requires i < |s.pcs| == |s.verdicts| == |cfg.types| && !v.Planned?
  {
    Goto(s, i, LockErrors(ErrorText(cfg.types[i], v), holding)).(verdicts := s.verdicts[i := Some(v)])
  }

  // ---------- counting goroutines ----------

  predicate Holds(pc: Pc) {
    match pc
    case Planning => true
    case LockErrors(_, holding) => holding
    case WriteErrors(_, holding) => holding
    case UnlockErrors(holding) => holding
    case Releasing(_) => true
    case _ => false
  }

  /** The goroutine may still run planGate.Release. */
  predicate MayRelease(pc: Pc) {
    Holds(pc) || pc in {Unborn, Start, AwaitSummary, TryAcquire} || pc.Parked?
  }

  function HoldFlags(pcs: seq<Pc>): seq<nat> {
    seq(|pcs|, i requires 0 <= i < |pcs| => Flag(Holds(pcs[i])))
  }

  function ReleaseFlags(pcs: seq<Pc>): seq<nat> {
    seq(|pcs|, i requires 0 <= i < |pcs| => Flag(MayRelease(pcs[i])))
  }

  function LiveFlags(pcs: seq<Pc>): seq<nat> {
    seq(|pcs|, i requires 0 <= i < |pcs| => Flag(!pcs[i].Unborn? && !pcs[i].Done?))
  }

  lemma HoldFlagsAfterGoto(pcs: seq<Pc>, i: nat, pc: Pc)
    requires i < |pcs|
    ensures Sum(HoldFlags(pcs[i := pc])) + Flag(Holds(pcs[i])) == Sum(HoldFlags(pcs)) + Flag(Holds(pc))
  {
    assert HoldFlags(pcs[i := pc]) == HoldFlags(pcs)[i := Flag(Holds(pc))];
    SumUpdate(HoldFlags(pcs), i, Flag(Holds(pc)));
  }

  lemma ReleaseFlagsAfterGoto(pcs: seq<Pc>, i: nat, pc: Pc)
    requires i < |pcs|
    ensures Sum(ReleaseFlags(pcs[i := pc])) + Flag(MayRelease(pcs[i])) == Sum(ReleaseFlags(pcs)) + Flag(MayRelease(pc))
  {
    assert ReleaseFlags(pcs[i := pc]) == ReleaseFlags(pcs)[i := Flag(MayRelease(pc))];
    SumUpdate(ReleaseFlags(pcs), i, Flag(MayRelease(pc)));
  }

  lemma LiveFlagsAfterGoto(pcs: seq<Pc>, i: nat, pc: Pc)
    requires i < |pcs|
    ensures Sum(LiveFlags(pcs[i := pc])) + Flag(!pcs[i].Unborn? && !pcs[i].Done?)
         == Sum(LiveFlags(pcs)) + Flag(!pc.Unborn? && !pc.Done?)
  {
    assert LiveFlags(pcs[i := pc]) == LiveFlags(pcs)[i := Flag(!pc.Unborn? && !pc.Done?)];
    SumUpdate(LiveFlags(pcs), i, Flag(!pc.Unborn? && !pc.Done?));
  }

  // ---------- the invariant ----------

  /** The slots in use are exactly those of the goroutines between admission and release, and a
      goroutine parked on the open channel has somebody who will close it. */
  ghost predicate GateOk(s: State) {
    && s.gate.Valid()
    && s.gate.inflight == Sum(HoldFlags(s.pcs))
    && (forall i :: 0 <= i < |s.pcs| && s.pcs[i].Parked? ==>
          s.pcs[i].channel <= s.gate.generation
          && (s.pcs[i].channel == s.gate.generation ==> s.gate.inflight >= 1))
  }

  predicate InCriticalSection(pc: Pc) {
    pc.WriteErrors? || pc.UnlockErrors?
  }

  ghost predicate MutexOk(s: State) {
    && (s.mutex.Some? ==> s.mutex.value < |s.pcs|)
    && (forall i :: 0 <= i < |s.pcs| ==> (InCriticalSection(s.pcs[i]) <==> s.mutex == Some(i)))
  }

  /** The summary channel is closed at most once, and a taint type is past its wait only after. */
  ghost predicate SummaryOk(cfg: Config, s: State)
    requires |s.pcs| == |cfg.types|
  {
    && s.summaryCloses == (if s.summary == Closed then 1 else 0)
    && (forall i :: 0 <= i < |s.pcs| && cfg.types[i] in cfg.taint && s.summary != Closed ==>
          s.pcs[i] in {Unborn, Start, AwaitSummary})
  }

  predicate Undecided(pc: Pc) {
    pc in {Unborn, Start, AwaitSummary, TryAcquire, Planning} || pc.Parked?
  }

  /** The text a goroutine still has to write to planErrors. */
  function Unwritten(pc: Pc): Option<string> {
    match pc
    case LockErrors(text, _) => Some(text)
    case WriteErrors(text, _) => Some(text)
    case Releasing(panic) => panic
    case _ => None
  }

  /** What the outcome of type i must be once its goroutine has written it. */
  ghost predicate Recorded(cfg: Config, s: State, i: nat)
    requires i < |cfg.types| == |s.plans| == |s.verdicts|
  {
    match s.verdicts[i]
    case None => s.plans[i] == None && cfg.types[i] !in s.planErrors
    case Some(Planned(r)) => s.plans[i] == Some(r) && cfg.types[i] !in s.planErrors
    case Some(v) => s.plans[i] == None && cfg.types[i] in s.planErrors
                    && s.planErrors[cfg.types[i]] == ErrorText(cfg.types[i], v)
  }

  ghost predicate RecordOk(cfg: Config, s: State, i: nat)
    requires i < |cfg.types| == |s.plans| == |s.verdicts| == |s.pcs|
  {
    && (Undecided(s.pcs[i]) <==> s.verdicts[i] == None)
    && (match Unwritten(s.pcs[i])
        case Some(text) =>
          && s.verdicts[i].Some? && !s.verdicts[i].value.Planned?
          && text == ErrorText(cfg.types[i], s.verdicts[i].value)
          && s.plans[i] == None && cfg.types[i] !in s.planErrors
        case None => Recorded(cfg, s, i))
  }

  ghost predicate Inv(cfg: Config, s: State) {
    && Shape(cfg, s)
    && s.gate.max == NewGate(cfg.concurrency).max
    && GateOk(s)
    && MutexOk(s)
    && SummaryOk(cfg, s)
    && (forall i :: 0 <= i < |s.pcs| ==> RecordOk(cfg, s, i))
    && (forall t :: t in s.planErrors ==> t in cfg.types)
    && (s.returned ==> s.launched == |s.pcs| && s.waiting == 0)
  }

  lemma InitEstablishesInv(cfg: Config, prewarm: bool)
    requires cfg.Valid()
    ensures Inv(cfg, Init(cfg, prewarm))
  {
    var s := Init(cfg, prewarm);
    ZeroSum(|s.pcs|);
    assert LiveFlags(s.pcs) == seq(|s.pcs|, i => 0) == HoldFlags(s.pcs);
    forall i | 0 <= i < |s.pcs| ensures RecordOk(cfg, s, i) {
      assert s.pcs[i] == Unborn;
    }
  }

  /** The goroutine an event moves, if any. */
  function Mover(s: State, e: Event): Option<nat> {
    match e
    case Launch => Some(s.launched)
    case Begin(i) => Some(i)
    case SummarySeen(i) => Some(i)
    case Acquire(i, _) => Some(i)
    case Woken(i) => Some(i)
    case SeesCancel(i) => Some(i)
    case PlanEnds(i, _) => Some(i)
    case TakeLock(i) => Some(i)
    case StoreError(i) => Some(i)
    case DropLock(i) => Some(i)
    case Release(i) => Some(i)
    case Finish(i) => Some(i)
    case _ => None
  }

  ghost predicate Sized(cfg: Config, s: State) {
    |s.pcs| == |s.plans| == |s.verdicts| == |cfg.types|
  }

  lemma StepMovesOne(cfg: Config, s: State, e: Event)
    requires Sized(cfg, s) && Enabled(cfg, s, e)
    requires e.Launch? ==> s.pcs[s.launched] == Unborn
    ensures var s' := Apply(cfg, s, e);
            match Mover(s, e)
            case None => s'.pcs == s.pcs && s'.gate == s.gate && s'.waiting == s.waiting
            case Some(i) =>
              && i < |s.pcs| && |s'.pcs| == |s.pcs| && s'.pcs == s.pcs[i := s'.pcs[i]]
              && (e.Launch? ==> s'.pcs[i] == Start)
              && (!e.Launch? ==> s.pcs[i] !in {Unborn, Done} && s'.pcs[i] != Unborn)
  {
    match e
    case PlanEnds(i, outcome) => match outcome { case Planned(_) => case Failed(_) => case Panicked(_) => }
    case _ =>
  }

  lemma StepMovesGate(cfg: Config, s: State, e: Event, i: nat)
    requires Sized(cfg, s) && Enabled(cfg, s, e) && Mover(s, e) == Some(i) && i < |s.pcs|
    requires e.Launch? ==> s.pcs[i] == Unborn
    ensures var s' := Apply(cfg, s, e);
            && i < |s'.pcs|
            && (Holds(s.pcs[i]) ==> s.gate.inflight > 0 ==>
                  s'.gate.inflight + 1 == s.gate.inflight + Flag(Holds(s'.pcs[i])))
            && (!Holds(s.pcs[i]) ==> s'.gate.inflight == s.gate.inflight + Flag(Holds(s'.pcs[i])))
  {
    match e
    case PlanEnds(_, outcome) => match outcome { case Planned(_) => case Failed(_) => case Panicked(_) => }
    case _ =>
  }

  lemma StepMovesGroup(cfg: Config, s: State, e: Event, i: nat)
    requires Sized(cfg, s) && Enabled(cfg, s, e) && Mover(s, e) == Some(i) && i < |s.pcs|
    ensures var s' := Apply(cfg, s, e);
            && i < |s'.pcs|
            && (e.Launch? ==> s'.waiting == s.waiting + 1)
            && (!e.Launch? && s.waiting > 0 ==> s'.waiting + 1 == s.waiting + Flag(s'.pcs[i] != Done))
  {
    match e
    case PlanEnds(_, outcome) => match outcome { case Planned(_) => case Failed(_) => case Panicked(_) => }
    case _ =>
  }

  /** A step moves one goroutine at most, and the gate and WaitGroup counters move with it. */
  lemma StepIsLocal(cfg: Config, s: State, e: Event)
    requires Sized(cfg, s) && Enabled(cfg, s, e)
    requires e.Launch? ==> s.pcs[s.launched] == Unborn
    ensures var s' := Apply(cfg, s, e);
            match Mover(s, e)
            case None => s'.pcs == s.pcs && s'.gate == s.gate && s'.waiting == s.waiting
            case Some(i) =>
              && i < |s.pcs| && |s'.pcs| == |s.pcs| && s'.pcs == s.pcs[i := s'.pcs[i]]
              && (Holds(s.pcs[i]) ==> s.gate.inflight > 0 ==>
                    s'.gate.inflight + 1 == s.gate.inflight + Flag(Holds(s'.pcs[i])))
              && (!Holds(s.pcs[i]) ==> s'.gate.inflight == s.gate.inflight + Flag(Holds(s'.pcs[i])))
              && (e.Launch? ==> s'.waiting == s.waiting + 1 && s'.pcs[i] == Start)
              && (!e.Launch? ==> s.pcs[i] !in {Unborn, Done} && s'.pcs[i] != Unborn)
              && (!e.Launch? && s.waiting > 0 ==> s'.waiting + 1 == s.waiting + Flag(s'.pcs[i] != Done))
  {
    StepMovesOne(cfg, s, e);
    match Mover(s, e)
    case None =>
    case Some(i) =>
      StepMovesGate(cfg, s, e, i);
      StepMovesGroup(cfg, s, e, i);
  }

  lemma CountsAfterStep(cfg: Config, s: State, e: Event)
    requires Sized(cfg, s) && Enabled(cfg, s, e)
    requires e.Launch? ==> s.pcs[s.launched] == Unborn
    requires s.gate.inflight == Sum(HoldFlags(s.pcs)) && s.waiting == Sum(LiveFlags(s.pcs))
    ensures var s' := Apply(cfg, s, e);
            s'.gate.inflight == Sum(HoldFlags(s'.pcs)) && s'.waiting == Sum(LiveFlags(s'.pcs))
  {
    StepIsLocal(cfg, s, e);
    match Mover(s, e)
    case None =>
    case Some(i) =>
      HoldFlagsAfterGoto(s.pcs, i, Apply(cfg, s, e).pcs[i]);
      LiveFlagsAfterGoto(s.pcs, i, Apply(cfg, s, e).pcs[i]);
      EntryAtMostSum(HoldFlags(s.pcs), i);
      EntryAtMostSum(LiveFlags(s.pcs), i);
  }

  /** Every parked goroutine of s' was parked there before, or parked just now on the open channel of
      a gate that is in use. */
  ghost predicate ParkedSafely(s: State, s': State) {
    forall j :: 0 <= j < |s'.pcs| && s'.pcs[j].Parked? ==>
      || (j < |s.pcs| && s'.pcs[j] == s.pcs[j])
      || (s'.gate == s.gate && s'.pcs[j].channel == s.gate.generation && s.gate.inflight >= 1)
  }

  /** An attempt at the gate is admitted, or parks on the open channel of a gate that is in use. */
  lemma AcquireMovesGate(cfg: Config, s: State, e: Event)
    requires Sized(cfg, s) && e.Acquire? && Enabled(cfg, s, e) && s.gate.Valid()
    ensures var s' := Apply(cfg, s, e);
            && (s'.gate == s.gate || (s.gate.inflight < s.gate.max && s'.gate == s.gate.Admit()))
            && ParkedSafely(s, s')
  {}

  lemma ReleaseMovesGate(cfg: Config, s: State, e: Event)
    requires Sized(cfg, s) && e.Release? && Enabled(cfg, s, e)
    ensures Apply(cfg, s, e).gate == s.gate.Freed() && ParkedSafely(s, Apply(cfg, s, e))
  {}

  lemma OthersLeaveTheGate(cfg: Config, s: State, e: Event)
    requires Sized(cfg, s) && Enabled(cfg, s, e) && !e.Acquire? && !e.Release?
    ensures Apply(cfg, s, e).gate == s.gate && ParkedSafely(s, Apply(cfg, s, e))
  {
    match e
    case PlanEnds(i, outcome) => match outcome { case Planned(_) => case Failed(_) => case Panicked(_) => }
    case _ =>
  }

  /** The gate admits, frees or stays; a goroutine that parks does so on the open channel of a gate
      that is in use. */
  lemma GateMoves(cfg: Config, s: State, e: Event)
    requires Sized(cfg, s) && Enabled(cfg, s, e) && s.gate.Valid()
    ensures var s' := Apply(cfg, s, e);
            || s'.gate == s.gate
            || (s.gate.inflight < s.gate.max && s'.gate == s.gate.Admit())
            || s'.gate == s.gate.Freed()
    ensures ParkedSafely(s, Apply(cfg, s, e))
  {
    if e.Acquire? {
      AcquireMovesGate(cfg, s, e);
    } else if e.Release? {
      ReleaseMovesGate(cfg, s, e);
    } else {
      OthersLeaveTheGate(cfg, s, e);
    }
  }

  /** Parked goroutines: nobody can be parked on an open channel with no slot in use. */
  lemma StepKeepsParking(cfg: Config, s: State, e: Event)
    requires Sized(cfg, s) && Enabled(cfg, s, e) && GateOk(s)
    ensures var s' := Apply(cfg, s, e);
            && s'.gate.Valid()
            && forall j :: 0 <= j < |s'.pcs| && s'.pcs[j].Parked? ==>
                 s'.pcs[j].channel <= s'.gate.generation
                 && (s'.pcs[j].channel == s'.gate.generation ==> s'.gate.inflight >= 1)
  {
    GateMoves(cfg, s, e);
  }

  lemma LaunchMoves(cfg: Config, s: State, e: Event)
    requires Sized(cfg, s) && Enabled(cfg, s, e)
    ensures Sized(cfg, Apply(cfg, s, e)) && Apply(cfg, s, e).launched == s.launched + Flag(e.Launch?)
  {
    match e
    case PlanEnds(i, outcome) => match outcome { case Planned(_) => case Failed(_) => case Panicked(_) => }
    case _ =>
  }

  /** The goroutines launched are a prefix after one of them moves, or the next one starts. */
  lemma LaunchedStaysPrefix(s: State, s': State, i: nat)
    requires forall j :: 0 <= j < |s.pcs| ==> (s.pcs[j].Unborn? <==> s.launched <= j)
    requires i < |s.pcs| == |s'.pcs| && s'.pcs == s.pcs[i := s'.pcs[i]] && s'.pcs[i] != Unborn
    requires s'.launched == s.launched + Flag(i == s.launched) && i <= s.launched
    ensures forall j :: 0 <= j < |s'.pcs| ==> (s'.pcs[j].Unborn? <==> s'.launched <= j)
  {}

  lemma StepKeepsShape(cfg: Config, s: State, e: Event)
    requires Shape(cfg, s) && Enabled(cfg, s, e) && s.gate.inflight == Sum(HoldFlags(s.pcs))
    ensures Shape(cfg, Apply(cfg, s, e))
  {
    CountsAfterStep(cfg, s, e);
    LaunchMoves(cfg, s, e);
    StepMovesOne(cfg, s, e);
    if Mover(s, e).Some? {
      LaunchedStaysPrefix(s, Apply(cfg, s, e), Mover(s, e).value);
    }
  }

  /** The mutex moves with the goroutine that takes or drops it. */
  lemma MutexMoves(cfg: Config, s: State, e: Event, i: nat)
    requires Sized(cfg, s) && Enabled(cfg, s, e) && Mover(s, e) == Some(i) && i < |s.pcs|
    requires s.mutex == Some(i) <==> InCriticalSection(s.pcs[i])
    requires e.Launch? ==> s.pcs[i] == Unborn
    ensures var s' := Apply(cfg, s, e);
            && i < |s'.pcs| && (s'.mutex == Some(i) <==> InCriticalSection(s'.pcs[i]))
            && (s'.mutex == s.mutex || (s.mutex == None && s'.mutex == Some(i)) ||
                (s.mutex == Some(i) && s'.mutex == None))
  {
    match e
    case PlanEnds(_, outcome) => match outcome { case Planned(_) => case Failed(_) => case Panicked(_) => }
    case _ =>
  }

  lemma StepKeepsMutex(cfg: Config, s: State, e: Event)
    requires Sized(cfg, s) && Enabled(cfg, s, e) && MutexOk(s)
    requires e.Launch? ==> s.pcs[s.launched] == Unborn
    ensures MutexOk(Apply(cfg, s, e))
  {
    var s' := Apply(cfg, s, e);
    StepIsLocal(cfg, s, e);
    match Mover(s, e)
    case None => assert s'.mutex == s.mutex;
    case Some(i) => MutexMoves(cfg, s, e, i);
  }

  /** Only its own two steps move the summary. */
  lemma SummaryMoves(cfg: Config, s: State, e: Event)
    requires Sized(cfg, s) && Enabled(cfg, s, e)
    ensures var s' := Apply(cfg, s, e);
            && (!e.SummaryEnds? && !e.SummaryCloses? ==>
                  s'.summary == s.summary && s'.summaryCloses == s.summaryCloses)
            && (e.SummaryEnds? ==> s.summary == Computing && s'.summary == Closing
                                   && s'.summaryCloses == s.summaryCloses)
            && (e.SummaryCloses? ==> s.summary == Closing && s'.summary == Closed
                                     && s'.summaryCloses == s.summaryCloses + 1)
  {
    match e
    case PlanEnds(i, outcome) => match outcome { case Planned(_) => case Failed(_) => case Panicked(_) => }
    case _ =>
  }

  /** Without the summary a goroutine of a taint type gets as far as waiting for it. */
  lemma TaintWaits(cfg: Config, s: State, e: Event, i: nat)
    requires Sized(cfg, s) && Enabled(cfg, s, e) && Mover(s, e) == Some(i) && i < |s.pcs|
    requires cfg.types[i] in cfg.taint && s.summaryCloses == 0 && s.pcs[i] in {Unborn, Start, AwaitSummary}
    ensures i < |Apply(cfg, s, e).pcs| && Apply(cfg, s, e).pcs[i] in {Unborn, Start, AwaitSummary}
  {
    assert e.Launch? || e.Begin?;
  }

  lemma StepKeepsSummary(cfg: Config, s: State, e: Event)
    requires Sized(cfg, s) && Enabled(cfg, s, e) && SummaryOk(cfg, s)
    requires e.Launch? ==> s.pcs[s.launched] == Unborn
    ensures Sized(cfg, Apply(cfg, s, e)) && SummaryOk(cfg, Apply(cfg, s, e))
    ensures s.summary == Closed ==> Apply(cfg, s, e).summary == Closed
  {
    LaunchMoves(cfg, s, e);
    SummaryMoves(cfg, s, e);
    StepMovesOne(cfg, s, e);
    match Mover(s, e)
    case None =>
    case Some(i) =>
      if cfg.types[i] in cfg.taint && s.summary != Closed {
        TaintWaits(cfg, s, e, i);
      }
  }

  /** A failure or cancellation decides the type, and its text is still to be written. */
  lemma FailKeepsOwnRecord(cfg: Config, s: State, i: nat, v: Verdict, holding: bool)
    requires Sized(cfg, s) && i < |s.pcs| && RecordOk(cfg, s, i) && Undecided(s.pcs[i]) && !v.Planned?
    ensures RecordOk(cfg, Fail(cfg, s, i, v, holding), i)
  {}

  lemma CancelKeepsOwnRecord(cfg: Config, s: State, i: nat)
    requires Sized(cfg, s) && Enabled(cfg, s, SeesCancel(i)) && RecordOk(cfg, s, i)
    ensures RecordOk(cfg, Apply(cfg, s, SeesCancel(i)), i)
  {
    FailKeepsOwnRecord(cfg, s, i, Canceled, false);
  }

  lemma FailedPlanKeepsOwnRecord(cfg: Config, s: State, i: nat, v: Verdict)
    requires Sized(cfg, s) && v.Failed? && Enabled(cfg, s, PlanEnds(i, v)) && RecordOk(cfg, s, i)
    ensures RecordOk(cfg, Apply(cfg, s, PlanEnds(i, v)), i)
  {
    FailKeepsOwnRecord(cfg, s, i, v, true);
  }

  lemma PanicKeepsOwnRecord(cfg: Config, s: State, i: nat, v: Verdict)
    requires Sized(cfg, s) && v.Panicked? && Enabled(cfg, s, PlanEnds(i, v)) && RecordOk(cfg, s, i)
    ensures RecordOk(cfg, Apply(cfg, s, PlanEnds(i, v)), i)
  {}

  lemma PlanKeepsOwnRecord(cfg: Config, s: State, i: nat, v: Verdict)
    requires Sized(cfg, s) && v.Planned? && Enabled(cfg, s, PlanEnds(i, v)) && RecordOk(cfg, s, i)
    ensures RecordOk(cfg, Apply(cfg, s, PlanEnds(i, v)), i)
  {}

  lemma DecisionKeepsOwnRecord(cfg: Config, s: State, e: Event, i: nat)
    requires Sized(cfg, s) && Enabled(cfg, s, e) && i < |s.pcs| && RecordOk(cfg, s, i)
    requires e.SeesCancel? || e.PlanEnds?
    requires Mover(s, e) == Some(i)
    ensures RecordOk(cfg, Apply(cfg, s, e), i)
  {
    if e.SeesCancel? {
      CancelKeepsOwnRecord(cfg, s, i);
    } else if e.outcome.Failed? {
      FailedPlanKeepsOwnRecord(cfg, s, i, e.outcome);
    } else if e.outcome.Panicked? {
      PanicKeepsOwnRecord(cfg, s, i, e.outcome);
    } else {
      PlanKeepsOwnRecord(cfg, s, i, e.outcome);
    }
  }

  /** Once the text decided earlier is the type's error, the record is complete. */
  lemma TextBecomesRecord(cfg: Config, s: State, s': State, i: nat)
    requires Sized(cfg, s) && Sized(cfg, s') && i < |s.pcs| && RecordOk(cfg, s, i)
    requires s.pcs[i].WriteErrors? && s'.pcs[i].UnlockErrors?
    requires s'.verdicts == s.verdicts && s'.plans == s.plans
    requires s'.planErrors == s.planErrors[cfg.types[i] := s.pcs[i].text]
    ensures RecordOk(cfg, s', i)
  {
    assert s'.planErrors[cfg.types[i]] == ErrorText(cfg.types[i], s.verdicts[i].value);
  }

  lemma StoreKeepsOwnRecord(cfg: Config, s: State, i: nat)
    requires Sized(cfg, s) && Enabled(cfg, s, StoreError(i)) && RecordOk(cfg, s, i)
    ensures RecordOk(cfg, Apply(cfg, s, StoreError(i)), i)
  {
    TextBecomesRecord(cfg, s, Apply(cfg, s, StoreError(i)), i);
  }

  /** Every other step keeps the verdict, the plan, the errors and what is still to be written. */
  lemma QuietStep(cfg: Config, s: State, e: Event, i: nat)
    requires Sized(cfg, s) && Enabled(cfg, s, e) && i < |s.pcs| && Mover(s, e) == Some(i)
    requires e.Launch? ==> s.pcs[i] == Unborn
    requires !e.SeesCancel? && !e.PlanEnds? && !e.StoreError?
    ensures var s' := Apply(cfg, s, e);
            && Sized(cfg, s') && s'.verdicts == s.verdicts && s'.plans == s.plans && s'.planErrors == s.planErrors
            && Undecided(s'.pcs[i]) == Undecided(s.pcs[i]) && Unwritten(s'.pcs[i]) == Unwritten(s.pcs[i])
  {}

  lemma StepKeepsOwnRecord(cfg: Config, s: State, e: Event, i: nat)
    requires Sized(cfg, s) && Enabled(cfg, s, e) && i < |s.pcs| && RecordOk(cfg, s, i)
    requires Mover(s, e) == Some(i)
    requires e.Launch? ==> s.pcs[i] == Unborn
    ensures RecordOk(cfg, Apply(cfg, s, e), i)
  {
    if e.SeesCancel? || e.PlanEnds? {
      DecisionKeepsOwnRecord(cfg, s, e, i);
    } else if e.StoreError? {
      StoreKeepsOwnRecord(cfg, s, i);
    } else {
      QuietStep(cfg, s, e, i);
    }
  }

  /** A step writes no other type's verdict, plan or error. */
  lemma StepTouchesOwn(cfg: Config, s: State, e: Event, i: nat)
    requires Sized(cfg, s) && Enabled(cfg, s, e) && cfg.Valid() && i < |s.pcs| && Mover(s, e) != Some(i)
    ensures var s' := Apply(cfg, s, e);
            && Sized(cfg, s') && s'.verdicts[i] == s.verdicts[i] && s'.plans[i] == s.plans[i]
            && (cfg.types[i] in s'.planErrors <==> cfg.types[i] in s.planErrors)
            && (cfg.types[i] in s.planErrors ==> s'.planErrors[cfg.types[i]] == s.planErrors[cfg.types[i]])
  {
    match e
    case PlanEnds(_, outcome) => match outcome { case Planned(_) => case Failed(_) => case Panicked(_) => }
    case _ =>
  }

  lemma OthersStay(cfg: Config, s: State, e: Event, i: nat)
    requires Sized(cfg, s) && Enabled(cfg, s, e) && i < |s.pcs| && Mover(s, e) != Some(i)
    ensures |Apply(cfg, s, e).pcs| == |s.pcs| && Apply(cfg, s, e).pcs[i] == s.pcs[i]
  {
    match e
    case PlanEnds(_, outcome) => match outcome { case Planned(_) => case Failed(_) => case Panicked(_) => }
    case _ =>
  }

  lemma StepKeepsOtherRecords(cfg: Config, s: State, e: Event, i: nat)
    requires Sized(cfg, s) && Enabled(cfg, s, e) && cfg.Valid()
    requires i < |s.pcs| && RecordOk(cfg, s, i) && Mover(s, e) != Some(i)
    ensures RecordOk(cfg, Apply(cfg, s, e), i)
  {
    StepTouchesOwn(cfg, s, e, i);
    OthersStay(cfg, s, e, i);
  }

  lemma StepKeepsErrorKeys(cfg: Config, s: State, e: Event)
    requires Sized(cfg, s) && Enabled(cfg, s, e)
    requires forall t :: t in s.planErrors ==> t in cfg.types
    ensures forall t :: t in Apply(cfg, s, e).planErrors ==> t in cfg.types
  {
    match e
    case PlanEnds(_, outcome) => match outcome { case Planned(_) => case Failed(_) => case Panicked(_) => }
    case _ =>
  }

  /** Once Wait has passed nothing moves any more but the context and, if unused, the summary. */
  lemma StepKeepsReturned(cfg: Config, s: State, e: Event)
    requires Shape(cfg, s) && Enabled(cfg, s, e)
    requires s.returned ==> s.launched == |s.pcs| && s.waiting == 0
    ensures var s' := Apply(cfg, s, e); s'.returned ==> s'.launched == |s'.pcs| && s'.waiting == 0
  {
    if s.returned {
      match Mover(s, e)
      case None =>
      case Some(i) =>
        if !e.Launch? {
          StepIsLocal(cfg, s, e);
          EntryAtMostSum(LiveFlags(s.pcs), i);
        }
    }
  }

  lemma StepKeepsRecords(cfg: Config, s: State, e: Event)
    requires Sized(cfg, s) && Enabled(cfg, s, e) && cfg.Valid()
    requires e.Launch? ==> s.pcs[s.launched] == Unborn
    requires forall i :: 0 <= i < |s.pcs| ==> RecordOk(cfg, s, i)
    ensures Sized(cfg, Apply(cfg, s, e))
    ensures forall i :: 0 <= i < |s.pcs| ==> RecordOk(cfg, Apply(cfg, s, e), i)
  {
    LaunchMoves(cfg, s, e);
    forall i | 0 <= i < |s.pcs| ensures RecordOk(cfg, Apply(cfg, s, e), i) {
      if Mover(s, e) == Some(i) {
        StepKeepsOwnRecord(cfg, s, e, i);
      } else {
        StepKeepsOtherRecords(cfg, s, e, i);
      }
    }
  }

  lemma StepKeepsGate(cfg: Config, s: State, e: Event)
    requires Inv(cfg, s) && Enabled(cfg, s, e)
    ensures GateOk(Apply(cfg, s, e)) && Apply(cfg, s, e).gate.max == s.gate.max
  {
    CountsAfterStep(cfg, s, e);
    StepKeepsParking(cfg, s, e);
    GateMoves(cfg, s, e);
  }

  /** Every step of every goroutine keeps the invariant. */
  lemma StepKeepsInv(cfg: Config, s: State, e: Event)
    requires Inv(cfg, s) && Enabled(cfg, s, e)
    ensures Inv(cfg, Apply(cfg, s, e))
  {
    StepKeepsShape(cfg, s, e);
    StepKeepsGate(cfg, s, e);
    StepKeepsMutex(cfg, s, e);
    StepKeepsSummary(cfg, s, e);
    StepKeepsRecords(cfg, s, e);
    StepKeepsErrorKeys(cfg, s, e);
    StepKeepsReturned(cfg, s, e);
  }
}
