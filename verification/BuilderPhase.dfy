/** The graph-builder phase of runPipeline (pipeline.go:235-291) as a state machine.

    One goroutine per builder runs under the admission gate and reports a failure on a channel
    whose buffer has one place per builder; the launching goroutine waits for all of them, closes
    the channel and drains it. A builder is an oracle that succeeds, fails or panics. */
module BuilderPhase {
  import opened Options
  import opened Gate
  import opened Sums

  datatype Verdict = Built | Failed(error: string) | Panicked(reason: string) | Canceled

  function ErrorText(name: string, v: Verdict): string
    requires v != Built
  {
    match v
    case Failed(error) => name + ": " + error
    case Panicked(reason) => name + " panicked: " + reason
    case Canceled => name + ": canceled while waiting for memory capacity"
  }

  /** `recovering` marks the deferred calls of a panicking goroutine: the slot is released first,
      the recover handler sends afterwards. */
  datatype Pc =
    | Unborn
    | TryAcquire
    | Parked(channel: nat)
    | Building
    | Sending(holding: bool)
    | Releasing(recovering: bool)
    | Finishing
    | Done

  datatype Goroutine = Goroutine(pc: Pc, verdict: Option<Verdict>)

  /** An error in the channel; `sender` is history, the program sees only the text. */
  datatype Message = Message(sender: nat, text: string)

  datatype Main = Waiting | Closing | Draining | Returned

  datatype State = State(
    gs: seq<Goroutine>,
    gate: GateState,
    buffer: seq<Message>,
    closed: bool,
    errs: seq<Message>,
    canceled: bool,
    launched: nat,
    waiting: nat,
    main: Main)

  datatype Config = Config(names: seq<string>, concurrency: int)

  datatype Event =
    | Launch
    | WaitPasses
    | CloseChannel
    | Receive
    | Return
    | Cancel
    | Acquire(i: nat, pressured: bool)
    | Woken(i: nat)
    | SeesCancel(i: nat)
    | BuildEnds(i: nat, outcome: Verdict)
    | Send(i: nat)
    | Release(i: nat)
    | Finish(i: nat)

  function Init(cfg: Config): State {
    State(seq(|cfg.names|, i => Goroutine(Unborn, None)), NewGate(cfg.concurrency), [], false, [], false, 0, 0, Waiting)
  }

  /** A send can proceed only while the buffer has room. */
  predicate Enabled(cfg: Config, s: State, e: Event)
    requires |s.gs| == |cfg.names|
  {
    match e
    case Launch => s.launched < |s.gs|
    case WaitPasses => s.launched == |s.gs| && s.waiting == 0 && s.main == Waiting
    case CloseChannel => s.main == Closing
    case Receive => s.main == Draining && s.buffer != []
    case Return => s.main == Draining && s.buffer == []
    case Cancel => !s.canceled
    case Acquire(i, _) => i < |s.gs| && s.gs[i].pc == TryAcquire
    case Woken(i) => i < |s.gs| && s.gs[i].pc.Parked? && s.gate.Closed(s.gs[i].pc.channel)
    case SeesCancel(i) => i < |s.gs| && s.gs[i].pc.Parked? && s.canceled
    case BuildEnds(i, outcome) => i < |s.gs| && s.gs[i].pc == Building && outcome != Canceled
    case Send(i) => i < |s.gs| && s.gs[i].pc.Sending? && Failure(s.gs[i]) && |s.buffer| < |cfg.names|
    case Release(i) => i < |s.gs| && s.gs[i].pc.Releasing?
    case Finish(i) => i < |s.gs| && s.gs[i].pc == Finishing
  }

  predicate Failure(g: Goroutine) {
    g.verdict.Some? && g.verdict.value != Built
  }

  function Goto(s: State, i: nat, pc: Pc): State
    requires i < |s.gs|
  {
    s.(gs := s.gs[i := s.gs[i].(pc := pc)])
  }

  function Decide(s: State, i: nat, pc: Pc, v: Verdict): State
    requires i < |s.gs|
  {
    s.(gs := s.gs[i := Goroutine(pc, Some(v))])
  }

  function Apply(cfg: Config, s: State, e: Event): State
    requires |s.gs| == |cfg.names| && Enabled(cfg, s, e)
  {
    match e
    case Launch => Goto(s, s.launched, TryAcquire).(launched := s.launched + 1, waiting := s.waiting + 1)
    case WaitPasses => s.(main := Closing)
    case CloseChannel => s.(main := Draining, closed := true)
    case Receive => s.(errs := s.errs + [s.buffer[0]], buffer := s.buffer[1..])
    case Return => s.(main := Returned)
    case Cancel => s.(canceled := true)
    case Acquire(i, pressured) =>
      if s.gate.Admits(pressured) then
        Goto(s, i, Building).(gate := s.gate.Admit())
      else
        Goto(s, i, Parked(s.gate.generation))
    case Woken(i) => Goto(s, i, TryAcquire)
    case SeesCancel(i) => Decide(s, i, Sending(false), Canceled)
    case BuildEnds(i, outcome) =>
      (match outcome
       case Built => Decide(s, i, Releasing(false), outcome)
       case Panicked(_) => Decide(s, i, Releasing(true), outcome)
       case _ => Decide(s, i, Sending(true), outcome))
    case Send(i) =>
      Goto(s, i, if s.gs[i].pc.holding then Releasing(false) else Finishing)
      .(buffer := s.buffer + [Message(i, ErrorText(cfg.names[i], s.gs[i].verdict.value))])
    case Release(i) =>
      Goto(s, i, if s.gs[i].pc.recovering then Sending(false) else Finishing).(gate := s.gate.Freed())
    case Finish(i) => Goto(s, i, Done).(waiting := if s.waiting > 0 then s.waiting - 1 else 0)
  }

  function Mover(s: State, e: Event): Option<nat> {
    match e
    case Launch => Some(s.launched)
    case Acquire(i, _) => Some(i)
    case Woken(i) => Some(i)
    case SeesCancel(i) => Some(i)
    case BuildEnds(i, _) => Some(i)
    case Send(i) => Some(i)
    case Release(i) => Some(i)
    case Finish(i) => Some(i)
    case _ => None
  }

  // ---------- counting goroutines ----------

  predicate Holds(g: Goroutine) {
    g.pc == Building || g.pc == Sending(true) || g.pc.Releasing?
  }

  predicate MayRelease(g: Goroutine) {
    Holds(g) || g.pc in {Unborn, TryAcquire} || g.pc.Parked?
  }

  predicate Live(g: Goroutine) {
    g.pc != Unborn && g.pc != Done
  }

  /** The goroutine has put its error into the channel. */
  predicate Sent(g: Goroutine) {
    Failure(g) && g.pc in {Releasing(false), Finishing, Done}
  }

  function Flags(gs: seq<Goroutine>, p: Goroutine -> bool): (fs: seq<nat>)
    ensures |fs| == |gs| && forall i :: 0 <= i < |gs| ==> fs[i] == Flag(p(gs[i]))
  {
    seq(|gs|, i requires 0 <= i < |gs| => Flag(p(gs[i])))
  }

  function Count(gs: seq<Goroutine>, p: Goroutine -> bool): nat {
    Sum(Flags(gs, p))
  }

  lemma CountAfterUpdate(gs: seq<Goroutine>, i: nat, g: Goroutine, p: Goroutine -> bool)
    requires i < |gs|
    ensures Count(gs[i := g], p) + Flag(p(gs[i])) == Count(gs, p) + Flag(p(g))
    ensures Flag(p(gs[i])) <= Count(gs, p)
  {
    assert Flags(gs[i := g], p) == Flags(gs, p)[i := Flag(p(g))];
    SumUpdate(Flags(gs, p), i, Flag(p(g)));
    EntryAtMostSum(Flags(gs, p), i);
  }

  /** If some goroutine does not satisfy p, fewer than all do. */
  lemma {:induction false} SomeoneMissing(gs: seq<Goroutine>, i: nat, p: Goroutine -> bool)
    requires i < |gs| && !p(gs[i])
    ensures Count(gs, p) < |gs|
  {
    var ones := seq(|gs|, j => 1);
    SumOnes(|gs|);
    SumStrictlyDrops(Flags(gs, p), ones, i);
  }

  lemma {:induction false} SumOnes(n: nat)
    ensures Sum(seq(n, j => 1)) == n
  {
    if n > 0 {
      assert seq(n, j => 1)[1..] == seq(n - 1, j => 1);
      SumOnes(n - 1);
    }
  }

  // ---------- the invariant ----------

  ghost predicate Sized(cfg: Config, s: State) {
    |s.gs| == |cfg.names|
  }

  ghost predicate Launched(s: State) {
    && s.launched <= |s.gs|
    && (forall i :: 0 <= i < |s.gs| ==> (s.gs[i].pc.Unborn? <==> s.launched <= i))
  }

  ghost predicate GateOk(s: State) {
    && s.gate.Valid()
    && (forall i :: 0 <= i < |s.gs| && s.gs[i].pc.Parked? ==>
          s.gs[i].pc.channel <= s.gate.generation
          && (s.gs[i].pc.channel == s.gate.generation ==> s.gate.inflight >= 1))
  }

  ghost predicate CountsOk(s: State) {
    && s.gate.inflight == Count(s.gs, Holds)
    && s.waiting == Count(s.gs, Live)
    && |s.buffer| + |s.errs| == Count(s.gs, Sent)
  }

  predicate VerdictOk(g: Goroutine) {
    && (g.verdict == None <==> g.pc in {Unborn, TryAcquire, Building} || g.pc.Parked?)
    && (g.pc.Sending? || g.pc == Releasing(true) ==> Failure(g))
  }

  ghost predicate MessageOk(cfg: Config, s: State, m: Message)
    requires Sized(cfg, s)
  {
    && m.sender < |s.gs| && Sent(s.gs[m.sender])
    && m.text == ErrorText(cfg.names[m.sender], s.gs[m.sender].verdict.value)
  }

  /** The messages on their way are those of the goroutines that have sent, one each. */
  ghost predicate MessagesOk(cfg: Config, s: State)
    requires Sized(cfg, s)
  {
    var all := s.errs + s.buffer;
    && (forall m :: m in all ==> MessageOk(cfg, s, m))
    && (forall i :: 0 <= i < |s.gs| && Sent(s.gs[i]) ==>
        Message(i, ErrorText(cfg.names[i], s.gs[i].verdict.value)) in all)
    && (forall j, k :: 0 <= j < k < |all| ==> all[j].sender != all[k].sender)
  }

  ghost predicate MainOk(s: State) {
    && (s.main != Waiting ==> s.launched == |s.gs| && s.waiting == 0)
    && (s.closed <==> s.main in {Draining, Returned})
    && (s.main in {Waiting, Closing} ==> s.errs == [])
    && (s.main == Returned ==> s.buffer == [])
  }

  ghost predicate Inv(cfg: Config, s: State) {
    && Sized(cfg, s)
    && s.gate.max == NewGate(cfg.concurrency).max
    && Launched(s)
    && GateOk(s)
    && CountsOk(s)
    && (forall i :: 0 <= i < |s.gs| ==> VerdictOk(s.gs[i]))
    && MessagesOk(cfg, s)
    && MainOk(s)
  }

  lemma InitEstablishesInv(cfg: Config)
    ensures Inv(cfg, Init(cfg))
  {
    var s := Init(cfg);
    var zeros := seq(|cfg.names|, i => 0);
    ZeroSum(|cfg.names|);
    forall p: Goroutine -> bool | !p(Goroutine(Unborn, None)) ensures Count(s.gs, p) == 0 {
      assert Flags(s.gs, p) == zeros;
    }
  }

  ghost predicate Ready(cfg: Config, s: State, e: Event) {
    && Sized(cfg, s) && Enabled(cfg, s, e)
    && (e.Launch? ==> s.gs[s.launched].pc == Unborn && VerdictOk(s.gs[s.launched]))
  }

  lemma StepIsLocal(cfg: Config, s: State, e: Event)
    requires Ready(cfg, s, e)
    ensures var s' := Apply(cfg, s, e);
            match Mover(s, e)
            case None => s'.gs == s.gs && s'.gate == s.gate && s'.waiting == s.waiting && s'.launched == s.launched
            case Some(i) =>
              && i < |s.gs| && |s'.gs| == |s.gs| && s'.gs == s.gs[i := s'.gs[i]]
              && s'.main == s.main && s'.closed == s.closed && s'.errs == s.errs && s'.canceled == s.canceled
              && (e.Launch? || (s.gs[i].pc !in {Unborn, Done} && s'.gs[i].pc != Unborn))
  {
    match e
    case BuildEnds(_, outcome) => match outcome { case Built => case Failed(_) => case Panicked(_) => }
    case _ =>
  }

  lemma StepKeepsCounts(cfg: Config, s: State, e: Event)
    requires Ready(cfg, s, e) && CountsOk(s) && (forall i :: 0 <= i < |s.gs| ==> VerdictOk(s.gs[i]))
    ensures CountsOk(Apply(cfg, s, e))
  {
    var s' := Apply(cfg, s, e);
    StepIsLocal(cfg, s, e);
    match Mover(s, e)
    case None =>
    case Some(i) =>
      assert VerdictOk(s.gs[i]);
      CountAfterUpdate(s.gs, i, s'.gs[i], Holds);
      CountAfterUpdate(s.gs, i, s'.gs[i], Live);
      CountAfterUpdate(s.gs, i, s'.gs[i], Sent);
      GoroutineEffect(cfg, s, e, i);
  }

  /** The counters an event changes are the ones its goroutine's new position calls for. */
  lemma GoroutineEffect(cfg: Config, s: State, e: Event, i: nat)
    requires Ready(cfg, s, e) && Mover(s, e) == Some(i) && i < |s.gs| && VerdictOk(s.gs[i])
    requires Flag(Holds(s.gs[i])) <= s.gate.inflight && Flag(Live(s.gs[i])) <= s.waiting
    ensures var s' := Apply(cfg, s, e);
            && i < |s'.gs|
            && s'.gate.inflight + Flag(Holds(s.gs[i])) == s.gate.inflight + Flag(Holds(s'.gs[i]))
            && s'.waiting + Flag(Live(s.gs[i])) == s.waiting + Flag(Live(s'.gs[i]))
            && |s'.buffer| + Flag(Sent(s.gs[i])) == |s.buffer| + Flag(Sent(s'.gs[i]))
  {
    SlotEffect(cfg, s, e, i);
    GroupEffect(cfg, s, e, i);
    MessageEffect(cfg, s, e, i);
  }

  lemma SlotEffect(cfg: Config, s: State, e: Event, i: nat)
    requires Ready(cfg, s, e) && Mover(s, e) == Some(i) && i < |s.gs| && Flag(Holds(s.gs[i])) <= s.gate.inflight
    ensures var s' := Apply(cfg, s, e);
            && i < |s'.gs|
            && s'.gate.inflight + Flag(Holds(s.gs[i])) == s.gate.inflight + Flag(Holds(s'.gs[i]))
  {
    match e
    case BuildEnds(_, outcome) => match outcome { case Built => case Failed(_) => case Panicked(_) => }
    case _ =>
  }

  lemma GroupEffect(cfg: Config, s: State, e: Event, i: nat)
    requires Ready(cfg, s, e) && Mover(s, e) == Some(i) && i < |s.gs| && Flag(Live(s.gs[i])) <= s.waiting
    ensures var s' := Apply(cfg, s, e);
            i < |s'.gs| && s'.waiting + Flag(Live(s.gs[i])) == s.waiting + Flag(Live(s'.gs[i]))
  {
    match e
    case BuildEnds(_, outcome) => match outcome { case Built => case Failed(_) => case Panicked(_) => }
    case _ =>
  }

  lemma MessageEffect(cfg: Config, s: State, e: Event, i: nat)
    requires Ready(cfg, s, e) && Mover(s, e) == Some(i) && i < |s.gs| && VerdictOk(s.gs[i])
    ensures var s' := Apply(cfg, s, e);
            i < |s'.gs| && |s'.buffer| + Flag(Sent(s.gs[i])) == |s.buffer| + Flag(Sent(s'.gs[i]))
  {
    match e
    case BuildEnds(_, outcome) => match outcome { case Built => case Failed(_) => case Panicked(_) => }
    case _ =>
  }

  lemma MoverKeepsVerdictOk(cfg: Config, s: State, e: Event, i: nat)
    requires Ready(cfg, s, e) && Mover(s, e) == Some(i) && i < |s.gs| && VerdictOk(s.gs[i])
    ensures i < |Apply(cfg, s, e).gs| && VerdictOk(Apply(cfg, s, e).gs[i])
  {
    match e
    case BuildEnds(_, outcome) => match outcome { case Built => case Failed(_) => case Panicked(_) => }
    case _ =>
  }

  lemma StepKeepsParking(cfg: Config, s: State, e: Event)
    requires Ready(cfg, s, e) && GateOk(s)
    ensures GateOk(Apply(cfg, s, e))
  {
    match e
    case BuildEnds(_, outcome) => match outcome { case Built => case Failed(_) => case Panicked(_) => }
    case _ =>
  }

  lemma SendKeepsMessages(cfg: Config, s: State, i: nat)
    requires Sized(cfg, s) && Enabled(cfg, s, Send(i)) && MessagesOk(cfg, s)
    ensures MessagesOk(cfg, Apply(cfg, s, Send(i)))
  {
    var s' := Apply(cfg, s, Send(i));
    var all, m := s.errs + s.buffer, Message(i, ErrorText(cfg.names[i], s.gs[i].verdict.value));
    assert s'.errs + s'.buffer == all + [m];
    assert s'.gs[i].verdict == s.gs[i].verdict && Sent(s'.gs[i]) && !Sent(s.gs[i]);
    assert forall j :: 0 <= j < |s.gs| && j != i ==> s'.gs[j] == s.gs[j];
    forall k | 0 <= k < |all| ensures all[k].sender != i && MessageOk(cfg, s', all[k]) {
      assert MessageOk(cfg, s, all[k]);
    }
  }

  lemma OtherStepsKeepMessages(cfg: Config, s: State, s': State)
    requires Sized(cfg, s) && Sized(cfg, s') && MessagesOk(cfg, s)
    requires s'.errs + s'.buffer == s.errs + s.buffer
    requires forall i :: 0 <= i < |s.gs| ==>
               (Sent(s'.gs[i]) <==> Sent(s.gs[i])) && (Sent(s.gs[i]) ==> s'.gs[i].verdict == s.gs[i].verdict)
    ensures MessagesOk(cfg, s')
  {
    forall m | m in s'.errs + s'.buffer ensures MessageOk(cfg, s', m) {
      assert MessageOk(cfg, s, m);
    }
  }

  lemma StepKeepsMessages(cfg: Config, s: State, e: Event)
    requires Ready(cfg, s, e) && MessagesOk(cfg, s) && (forall i :: 0 <= i < |s.gs| ==> VerdictOk(s.gs[i]))
    ensures MessagesOk(cfg, Apply(cfg, s, e))
  {
    if e.Send? {
      SendKeepsMessages(cfg, s, e.i);
    } else {
      SentStays(cfg, s, e);
      ChannelKept(cfg, s, e);
      OtherStepsKeepMessages(cfg, s, Apply(cfg, s, e));
    }
  }

  /** Receiving moves a message from the channel to the list; nothing else but Send touches them. */
  lemma ChannelKept(cfg: Config, s: State, e: Event)
    requires Ready(cfg, s, e) && !e.Send?
    ensures Apply(cfg, s, e).errs + Apply(cfg, s, e).buffer == s.errs + s.buffer
  {
    match e
    case BuildEnds(_, outcome) => match outcome { case Built => case Failed(_) => case Panicked(_) => }
    case _ =>
  }

  /** Only a Send makes a goroutine one that has sent, and none goes back. */
  lemma SentStays(cfg: Config, s: State, e: Event)
    requires Ready(cfg, s, e) && !e.Send? && (forall i :: 0 <= i < |s.gs| ==> VerdictOk(s.gs[i]))
    ensures var s' := Apply(cfg, s, e);
            |s'.gs| == |s.gs| && forall i :: 0 <= i < |s.gs| ==>
              && (Sent(s'.gs[i]) <==> Sent(s.gs[i]))
              && (Sent(s.gs[i]) ==> s'.gs[i].verdict == s.gs[i].verdict)
  {
    StepIsLocal(cfg, s, e);
    if Mover(s, e).Some? {
      var i := Mover(s, e).value;
      assert VerdictOk(s.gs[i]);
      SentStaysFor(cfg, s, e, i);
    }
  }

  lemma SentStaysFor(cfg: Config, s: State, e: Event, i: nat)
    requires Ready(cfg, s, e) && !e.Send? && Mover(s, e) == Some(i) && i < |s.gs| && VerdictOk(s.gs[i])
    ensures var s' := Apply(cfg, s, e);
            && i < |s'.gs| && (Sent(s'.gs[i]) <==> Sent(s.gs[i]))
            && (Sent(s.gs[i]) ==> s'.gs[i].verdict == s.gs[i].verdict)
  {
    match e
    case BuildEnds(_, outcome) => match outcome { case Built => case Failed(_) => case Panicked(_) => }
    case _ =>
  }

  /** Once the WaitGroup is at zero no goroutine is left to move. */
  lemma NobodyMovesAfterWait(cfg: Config, s: State, e: Event)
    requires Ready(cfg, s, e) && CountsOk(s) && MainOk(s) && s.main != Waiting
    ensures Mover(s, e) == None
  {
    StepIsLocal(cfg, s, e);
    if Mover(s, e).Some? && !e.Launch? {
      CountAfterUpdate(s.gs, Mover(s, e).value, s.gs[Mover(s, e).value], Live);
    }
  }

  lemma StepKeepsMain(cfg: Config, s: State, e: Event)
    requires Ready(cfg, s, e) && CountsOk(s) && MainOk(s)
    ensures MainOk(Apply(cfg, s, e))
  {
    if s.main != Waiting {
      NobodyMovesAfterWait(cfg, s, e);
    }
    StepIsLocal(cfg, s, e);
  }

  lemma StepKeepsLaunched(cfg: Config, s: State, e: Event)
    requires Ready(cfg, s, e) && Launched(s)
    ensures Launched(Apply(cfg, s, e))
    ensures Apply(cfg, s, e).gate.max == s.gate.max
  {
    StepIsLocal(cfg, s, e);
    match e
    case BuildEnds(_, outcome) => match outcome { case Built => case Failed(_) => case Panicked(_) => }
    case _ =>
  }

  lemma StepKeepsVerdicts(cfg: Config, s: State, e: Event)
    requires Ready(cfg, s, e) && (forall j :: 0 <= j < |s.gs| ==> VerdictOk(s.gs[j]))
    ensures forall j :: 0 <= j < |Apply(cfg, s, e).gs| ==> VerdictOk(Apply(cfg, s, e).gs[j])
  {
    StepIsLocal(cfg, s, e);
    if Mover(s, e).Some? {
      MoverKeepsVerdictOk(cfg, s, e, Mover(s, e).value);
    }
  }

  lemma StepKeepsInv(cfg: Config, s: State, e: Event)
    requires Inv(cfg, s) && Enabled(cfg, s, e)
    ensures Inv(cfg, Apply(cfg, s, e))
  {
    assert Ready(cfg, s, e);
    StepKeepsCounts(cfg, s, e);
    StepKeepsParking(cfg, s, e);
    StepKeepsMessages(cfg, s, e);
    StepKeepsMain(cfg, s, e);
    StepKeepsLaunched(cfg, s, e);
    StepKeepsVerdicts(cfg, s, e);
    assert Sized(cfg, Apply(cfg, s, e)) by { StepIsLocal(cfg, s, e); }
  }

  // ---------- termination and progress ----------

  function ReleasesLeft(s: State): nat {
    Count(s.gs, MayRelease)
  }

  function Weight(pc: Pc, generation: nat, releases: nat): nat {
    match pc
    case Unborn => 2 * releases + 11
    case Parked(channel) => 2 * releases + (if channel < generation then 9 else 7)
    case TryAcquire => 2 * releases + 8
    case Building => 6
    case Sending(holding) => if holding then 5 else 3
    case Releasing(recovering) => if recovering then 5 else 4
    case Finishing => 2
    case Done => 0
  }

  function Weights(s: State): seq<nat> {
    seq(|s.gs|, i requires 0 <= i < |s.gs| => Weight(s.gs[i].pc, s.gate.generation, ReleasesLeft(s)))
  }

  /** A message costs one step to receive; a goroutine pays for its message when it sends it. */
  function Measure(s: State): nat {
    2 * Sum(Weights(s)) + |s.buffer|
    + MainSteps(s.main) + Flag(!s.canceled)
  }

  function MainSteps(main: Main): nat {
    match main case Waiting => 3 case Closing => 2 case Draining => 1 case Returned => 0
  }

  /** What a step does to the releases its goroutine may still make, to the channels of the gate and
      to the error channel. */
  lemma ReleaseMoves(cfg: Config, s: State, e: Event, i: nat)
    requires Ready(cfg, s, e) && Mover(s, e) == Some(i) && i < |s.gs|
    ensures var s' := Apply(cfg, s, e);
            && i < |s'.gs|
            && (MayRelease(s'.gs[i]) ==> MayRelease(s.gs[i]))
            && (e.Release? ==> MayRelease(s.gs[i]) && !MayRelease(s'.gs[i]))
            && s'.gate.generation == s.gate.generation + Flag(e.Release?)
            && |s'.buffer| == |s.buffer| + Flag(e.Send?)
  {
    match e
    case BuildEnds(_, outcome) => match outcome { case Built => case Failed(_) => case Panicked(_) => }
    case _ =>
  }

  lemma ReleasesAfterStep(cfg: Config, s: State, e: Event, i: nat)
    requires Ready(cfg, s, e) && Mover(s, e) == Some(i)
    ensures var s' := Apply(cfg, s, e);
            && ReleasesLeft(s') <= ReleasesLeft(s)
            && s'.gate.generation == s.gate.generation + Flag(e.Release?)
            && (e.Release? ==> ReleasesLeft(s') + 1 == ReleasesLeft(s))
            && |s'.buffer| == |s.buffer| + Flag(e.Send?)
  {
    StepIsLocal(cfg, s, e);
    ReleaseMoves(cfg, s, e, i);
    CountAfterUpdate(s.gs, i, Apply(cfg, s, e).gs[i], MayRelease);
  }

  /** Up to the gate the weight falls while the releases to come do not increase. */
  lemma ApproachLosesWeight(cfg: Config, s: State, e: Event, i: nat, r: nat, r': nat)
    requires Ready(cfg, s, e) && Mover(s, e) == Some(i) && i < |s.gs| && r' <= r
    requires e.Launch? || e.Woken? || e.Acquire? || e.SeesCancel?
    ensures var s' := Apply(cfg, s, e);
            && i < |s'.gs|
            && Weight(s'.gs[i].pc, s'.gate.generation, r') < Weight(s.gs[i].pc, s.gate.generation, r)
  {}

  /** Behind the gate the weight does not depend on the releases to come. */
  lemma WorkLosesWeight(cfg: Config, s: State, e: Event, i: nat, r: nat, r': nat)
    requires Ready(cfg, s, e) && Mover(s, e) == Some(i) && i < |s.gs|
    requires e.BuildEnds? || e.Send? || e.Release? || e.Finish?
    ensures var s' := Apply(cfg, s, e);
            && i < |s'.gs|
            && Weight(s'.gs[i].pc, s'.gate.generation, r') < Weight(s.gs[i].pc, s.gate.generation, r)
  {
    match e
    case BuildEnds(_, outcome) => match outcome { case Built => case Failed(_) => case Panicked(_) => }
    case _ =>
  }

  lemma MoverLosesWeight(cfg: Config, s: State, e: Event, i: nat)
    requires Ready(cfg, s, e) && Mover(s, e) == Some(i) && i < |s.gs|
    ensures var s' := Apply(cfg, s, e);
            && i < |s'.gs|
            && Weight(s'.gs[i].pc, s'.gate.generation, ReleasesLeft(s'))
               < Weight(s.gs[i].pc, s.gate.generation, ReleasesLeft(s))
  {
    var r, r' := ReleasesLeft(s), ReleasesLeft(Apply(cfg, s, e));
    ReleasesAfterStep(cfg, s, e, i);
    if e.Launch? || e.Woken? || e.Acquire? || e.SeesCancel? {
      ApproachLosesWeight(cfg, s, e, i, r, r');
    } else {
      WorkLosesWeight(cfg, s, e, i, r, r');
    }
  }

  lemma WeightsShrink(cfg: Config, s: State, e: Event, i: nat)
    requires Ready(cfg, s, e) && GateOk(s) && Mover(s, e) == Some(i)
    ensures Sum(Weights(Apply(cfg, s, e))) < Sum(Weights(s))
  {
    var s' := Apply(cfg, s, e);
    ReleasesAfterStep(cfg, s, e, i);
    assert i < |s.gs| && s'.gs == s.gs[i := s'.gs[i]] by { StepIsLocal(cfg, s, e); }
    MoverLosesWeight(cfg, s, e, i);
    forall j | 0 <= j < |s.gs|
      ensures Weight(s'.gs[j].pc, s'.gate.generation, ReleasesLeft(s')) <=
          Weight(s.gs[j].pc, s.gate.generation, ReleasesLeft(s))
    {
      if j != i {
        OthersKeepWeight(s.gs[j].pc, s.gate.generation, ReleasesLeft(s), s'.gate.generation, ReleasesLeft(s'));
      }
    }
    SumStrictlyDrops(Weights(s'), Weights(s), i);
  }

  lemma OthersKeepWeight(pc: Pc, g: nat, r: nat, g': nat, r': nat)
    requires r' <= r && (g' == g || (g' == g + 1 && r' + 1 == r))
    requires pc.Parked? ==> pc.channel <= g
    ensures Weight(pc, g', r') <= Weight(pc, g, r)
  {}

  lemma StepShrinksMeasure(cfg: Config, s: State, e: Event)
    requires Inv(cfg, s) && Enabled(cfg, s, e)
    ensures Measure(Apply(cfg, s, e)) < Measure(s)
  {
    match Mover(s, e)
    case None => MainShrinks(cfg, s, e);
    case Some(i) =>
      assert Ready(cfg, s, e);
      WeightsShrink(cfg, s, e, i);
      ReleasesAfterStep(cfg, s, e, i);
      MoverLeavesMain(cfg, s, e);
  }

  /** A step of the launching goroutine, or a cancellation. */
  lemma MainMoves(cfg: Config, s: State, e: Event)
    requires Sized(cfg, s) && Enabled(cfg, s, e) && Mover(s, e) == None
    ensures var s' := Apply(cfg, s, e);
            && s'.gs == s.gs && s'.gate == s.gate
            && |s'.buffer| + MainSteps(s'.main) + Flag(!s'.canceled)
               < |s.buffer| + MainSteps(s.main) + Flag(!s.canceled)
  {}

  lemma MainShrinks(cfg: Config, s: State, e: Event)
    requires Inv(cfg, s) && Enabled(cfg, s, e) && Mover(s, e) == None
    ensures Measure(Apply(cfg, s, e)) < Measure(s)
  {
    MainMoves(cfg, s, e);
    assert Weights(Apply(cfg, s, e)) == Weights(s);
  }

  lemma MoverLeavesMain(cfg: Config, s: State, e: Event)
    requires Sized(cfg, s) && Enabled(cfg, s, e) && Mover(s, e).Some?
    ensures Apply(cfg, s, e).main == s.main && Apply(cfg, s, e).canceled == s.canceled
  {
    match e
    case BuildEnds(_, outcome) => match outcome { case Built => case Failed(_) => case Panicked(_) => }
    case _ =>
  }

  /** A goroutine with an error to report finds room in the channel, and the channel open. */
  lemma SendNeverBlocks(cfg: Config, s: State, i: nat)
    requires Inv(cfg, s) && i < |s.gs| && s.gs[i].pc.Sending?
    ensures Enabled(cfg, s, Send(i)) && !s.closed
  {
    assert VerdictOk(s.gs[i]);
    SomeoneMissing(s.gs, i, Sent);
    CountAfterUpdate(s.gs, i, s.gs[i], Live);
  }

  lemma GoroutineCanMove(cfg: Config, s: State, i: nat) returns (e: Event)
    requires Inv(cfg, s) && i < |s.gs| && Live(s.gs[i])
    requires s.gs[i].pc.Parked? ==> s.gate.Closed(s.gs[i].pc.channel)
    ensures Enabled(cfg, s, e) && e != Cancel
  {
    match s.gs[i].pc
    case Parked(_) => e := Woken(i);
    case TryAcquire => e := Acquire(i, false);
    case Building => e := BuildEnds(i, Built);
    case Sending(_) => SendNeverBlocks(cfg, s, i); e := Send(i);
    case Releasing(_) => e := Release(i);
    case Finishing => e := Finish(i);
  }

  lemma Progress(cfg: Config, s: State) returns (e: Event)
    requires Inv(cfg, s) && s.main != Returned
    ensures Enabled(cfg, s, e) && e != Cancel
  {
    if s.launched < |s.gs| {
      e := Launch;
    } else if s.waiting > 0 {
      var i := PositiveSumHasPositiveEntry(Flags(s.gs, Live));
      assert Live(s.gs[i]);
      if s.gs[i].pc.Parked? && !s.gate.Closed(s.gs[i].pc.channel) {
        var holder := PositiveSumHasPositiveEntry(Flags(s.gs, Holds));
        assert Holds(s.gs[holder]);
        e := GoroutineCanMove(cfg, s, holder);
      } else {
        e := GoroutineCanMove(cfg, s, i);
      }
    } else {
      e := match s.main
           case Waiting => WaitPasses
           case Closing => CloseChannel
           case Draining => if s.buffer == [] then Return else Receive;
    }
  }

  // ---------- runs ----------

  ghost predicate Runs(cfg: Config, s: State, es: seq<Event>, s': State)
    decreases es
  {
    if es == [] then s == s'
    else Sized(cfg, s) && Enabled(cfg, s, es[0]) && Runs(cfg, Apply(cfg, s, es[0]), es[1..], s')
  }

  lemma {:induction false} RunKeepsInv(cfg: Config, s: State, es: seq<Event>, s': State)
    requires Inv(cfg, s) && Runs(cfg, s, es, s')
    ensures Inv(cfg, s') && |es| + Measure(s') <= Measure(s)
    decreases es
  {
    if es != [] {
      StepKeepsInv(cfg, s, es[0]);
      StepShrinksMeasure(cfg, s, es[0]);
      RunKeepsInv(cfg, Apply(cfg, s, es[0]), es[1..], s');
    }
  }

  /** From every state it can get to, the phase can still return, and without being canceled. */
  lemma {:induction false} CanReturn(cfg: Config, s: State) returns (es: seq<Event>, end: State)
    requires Inv(cfg, s)
    ensures Runs(cfg, s, es, end) && end.main == Returned && Cancel !in es
    decreases Measure(s)
  {
    if s.main == Returned {
      es, end := [], s;
    } else {
      var e := Progress(cfg, s);
      StepKeepsInv(cfg, s, e);
      StepShrinksMeasure(cfg, s, e);
      var rest;
      rest, end := CanReturn(cfg, Apply(cfg, s, e));
      es := [e] + rest;
      assert es[1..] == rest;
    }
  }

  /** In every interleaving: at most `concurrency` builders run at once, no goroutine ever blocks on
      the error channel or sends after its close, each goroutine has at most one error on the way,
      every schedule ends, and it can always go on until the phase has returned. */
  lemma EveryInterleavingIsSafe(cfg: Config, es: seq<Event>, s: State)
    requires Runs(cfg, Init(cfg), es, s)
    ensures Sized(cfg, s)
    ensures Count(s.gs, Holds) <= NewGate(cfg.concurrency).max
    ensures forall i: nat :: i < |s.gs| && s.gs[i].pc.Sending? ==> |s.buffer| < |cfg.names| && !s.closed
    ensures forall j, k :: 0 <= j < k < |s.buffer| ==> s.buffer[j].sender != s.buffer[k].sender
    ensures |es| <= Measure(Init(cfg))
    ensures s.main != Returned ==> exists e :: e != Cancel && Enabled(cfg, s, e)
  {
    InitEstablishesInv(cfg);
    RunKeepsInv(cfg, Init(cfg), es, s);
    InvIsSafe(cfg, s);
    if s.main != Returned {
      var e := Progress(cfg, s);
    }
  }

  lemma InvIsSafe(cfg: Config, s: State)
    requires Inv(cfg, s)
    ensures Count(s.gs, Holds) <= NewGate(cfg.concurrency).max
    ensures forall i: nat :: i < |s.gs| && s.gs[i].pc.Sending? ==> |s.buffer| < |cfg.names| && !s.closed
    ensures forall j, k :: 0 <= j < k < |s.buffer| ==> s.buffer[j].sender != s.buffer[k].sender
  {
    forall i: nat | i < |s.gs| && s.gs[i].pc.Sending? ensures |s.buffer| < |cfg.names| && !s.closed {
      SendNeverBlocks(cfg, s, i);
    }
    var all := s.errs + s.buffer;
    assert forall j :: 0 <= j < |s.buffer| ==> s.buffer[j] == all[|s.errs| + j];
  }

  /** The verdict a run's events give builder i. */
  ghost predicate Decides(es: seq<Event>, i: nat, v: Verdict) {
    BuildEnds(i, v) in es || (v == Canceled && SeesCancel(i) in es)
  }

  /** A builder's verdict is the one its own build, or its own cancellation, produced. */
  lemma {:induction false} VerdictsComeFromEvents(cfg: Config, s: State, es: seq<Event>, s': State, i: nat, v: Verdict)
    requires Inv(cfg, s) && Runs(cfg, s, es, s') && i < |cfg.names|
    ensures |s'.gs| == |cfg.names|
    ensures s'.gs[i].verdict == Some(v) <==> s.gs[i].verdict == Some(v) || Decides(es, i, v)
    decreases es
  {
    if es != [] {
      StepKeepsInv(cfg, s, es[0]);
      VerdictsComeFromEvents(cfg, Apply(cfg, s, es[0]), es[1..], s', i, v);
      assert es == [es[0]] + es[1..];
      assert VerdictOk(s.gs[i]);
      StepDecides(cfg, s, es[0], i, v);
      assert Decides(es, i, v) <==> Decides([es[0]], i, v) || Decides(es[1..], i, v);
    }
  }

  /** Only these two events decide a builder, and each decides its own. */
  lemma StepWritesVerdict(cfg: Config, s: State, e: Event, i: nat)
    requires Sized(cfg, s) && Enabled(cfg, s, e) && i < |s.gs|
    ensures |Apply(cfg, s, e).gs| == |s.gs|
    ensures Apply(cfg, s, e).gs[i].verdict ==
            match e
            case BuildEnds(j, outcome) => if i == j then Some(outcome) else s.gs[i].verdict
            case SeesCancel(j) => if i == j then Some(Canceled) else s.gs[i].verdict
            case _ => s.gs[i].verdict
  {
    match e
    case BuildEnds(_, outcome) => match outcome { case Built => case Failed(_) => case Panicked(_) => }
    case _ =>
  }

  lemma StepDecides(cfg: Config, s: State, e: Event, i: nat, v: Verdict)
    requires Sized(cfg, s) && Enabled(cfg, s, e) && i < |s.gs| && VerdictOk(s.gs[i])
    ensures |Apply(cfg, s, e).gs| == |s.gs|
    ensures Apply(cfg, s, e).gs[i].verdict == Some(v) <==> s.gs[i].verdict == Some(v) || Decides([e], i, v)
  {
    StepWritesVerdict(cfg, s, e, i);
    assert forall d :: d in [e] <==> d == e;
  }

  /** By its events, builder i failed, panicked or was canceled, and this is the text it reports. */
  ghost predicate FailedWith(cfg: Config, es: seq<Event>, i: nat, text: string)
    requires i < |cfg.names|
  {
    exists v :: v != Built && Decides(es, i, v) && text == ErrorText(cfg.names[i], v)
  }

  /** When the phase returns, every builder has come to exactly one end, and the collected errors are
      the texts of the ends that are no success, each builder's once; so the phase succeeds exactly
      when every builder's own build succeeded. */
  lemma PhaseFailsExactlyWhenABuilderDoes(cfg: Config, es: seq<Event>, s: State)
    requires Runs(cfg, Init(cfg), es, s) && s.main == Returned
    ensures Sized(cfg, s)
    ensures forall i :: 0 <= i < |s.gs| ==> s.gs[i].pc == Done && s.gs[i].verdict.Some?
    ensures forall i: nat, v :: i < |s.gs| ==> (Decides(es, i, v) <==> s.gs[i].verdict == Some(v))
    ensures forall i: nat, text :: i < |s.gs| ==> (Message(i, text) in s.errs <==> FailedWith(cfg, es, i, text))
    ensures forall m :: m in s.errs ==> m.sender < |s.gs|
    ensures forall j, k :: 0 <= j < k < |s.errs| ==> s.errs[j].sender != s.errs[k].sender
    ensures s.errs == [] <==> forall i: nat :: i < |s.gs| ==> BuildEnds(i, Built) in es
  {
    InitEstablishesInv(cfg);
    RunKeepsInv(cfg, Init(cfg), es, s);
    ErrorsAreTheFailures(cfg, s);
    forall i: nat, v | i < |s.gs| ensures Decides(es, i, v) <==> s.gs[i].verdict == Some(v) {
      VerdictsComeFromEvents(cfg, Init(cfg), es, s, i, v);
    }
    forall i: nat, text | i < |s.gs| ensures Message(i, text) in s.errs <==> FailedWith(cfg, es, i, text) {
      OneTextPerBuilder(cfg, es, s.gs[i], i, text);
    }
    forall i: nat | i < |s.gs| ensures BuildEnds(i, Built) in es <==> s.gs[i].verdict == Some(Built) {
      assert Decides(es, i, Built) <==> BuildEnds(i, Built) in es;
    }
  }

  lemma OneTextPerBuilder(cfg: Config, es: seq<Event>, g: Goroutine, i: nat, text: string)
    requires i < |cfg.names| && g.verdict.Some?
    requires forall v :: Decides(es, i, v) <==> g.verdict == Some(v)
    ensures FailedWith(cfg, es, i, text) <==>
        g.verdict.value != Built && text == ErrorText(cfg.names[i], g.verdict.value)
  {
    assert Decides(es, i, g.verdict.value);
  }

  lemma ErrorsAreTheFailures(cfg: Config, s: State)
    requires Inv(cfg, s) && s.main == Returned
    ensures forall i :: 0 <= i < |s.gs| ==> s.gs[i].pc == Done && s.gs[i].verdict.Some?
    ensures forall i: nat, text :: i < |s.gs| ==>
              (Message(i, text) in s.errs <==>
               s.gs[i].verdict.value != Built && text == ErrorText(cfg.names[i], s.gs[i].verdict.value))
    ensures forall m :: m in s.errs ==> m.sender < |s.gs|
    ensures forall j, k :: 0 <= j < k < |s.errs| ==> s.errs[j].sender != s.errs[k].sender
    ensures s.errs == [] <==> forall i :: 0 <= i < |s.gs| ==> s.gs[i].verdict.value == Built
  {
    EveryoneIsDone(cfg, s);
    assert s.errs + s.buffer == s.errs;
    forall m | m in s.errs ensures MessageOk(cfg, s, m) {
      assert m in s.errs + s.buffer;
    }
    if s.errs != [] {
      assert s.errs[0] in s.errs;
    }
  }

  lemma EveryoneIsDone(cfg: Config, s: State)
    requires Inv(cfg, s) && s.main == Returned
    ensures forall i :: 0 <= i < |s.gs| ==>
        s.gs[i].pc == Done && s.gs[i].verdict.Some? && (Sent(s.gs[i]) <==> Failure(s.gs[i]))
  {
    forall i | 0 <= i < |s.gs|
      ensures s.gs[i].pc == Done && s.gs[i].verdict.Some? && (Sent(s.gs[i]) <==> Failure(s.gs[i]))
    {
      CountAfterUpdate(s.gs, i, s.gs[i], Live);
      assert VerdictOk(s.gs[i]);
    }
  }
}
