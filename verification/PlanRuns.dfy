/** The plan phase over whole runs: it cannot get stuck, it is safe in every interleaving, and its
    outcome is complete. */
module PlanRuns {
  import opened Options
  import opened Gate
  import opened Sums
  import opened PlanPhase
  import opened PlanTermination

  // ---------- progress ----------

  /** The step a goroutine takes next when it does not have to wait for another one. */
  lemma GoroutineCanMove(cfg: Config, s: State, i: nat) returns (e: Event)
    requires Inv(cfg, s) && i < |s.pcs| && !s.pcs[i].Unborn? && !s.pcs[i].Done?
    requires s.pcs[i].AwaitSummary? ==> s.summaryCloses > 0
    requires s.pcs[i].Parked? ==> s.gate.Closed(s.pcs[i].channel)
    ensures Enabled(cfg, s, e) && e != Cancel
  {
    match s.pcs[i]
    case Start => e := Begin(i);
    case AwaitSummary => e := SummarySeen(i);
    case Parked(_) => e := Woken(i);
    case TryAcquire => e := Acquire(i, false);
    case Planning => e := PlanEnds(i, Failed(""));
    case LockErrors(_, _) =>
      match s.mutex {
        case None => e := TakeLock(i);
        case Some(k) =>
          e := OwnerCanMove(cfg, s, k);
      }
    case WriteErrors(_, _) => e := StoreError(i);
    case UnlockErrors(_) => e := DropLock(i);
    case Releasing(_) => e := Release(i);
    case Finishing => e := Finish(i);
  }

  lemma OwnerCanMove(cfg: Config, s: State, k: nat) returns (e: Event)
    requires Inv(cfg, s) && s.mutex == Some(k)
    ensures Enabled(cfg, s, e) && e != Cancel
  {
    e := if s.pcs[k].WriteErrors? then StoreError(k) else DropLock(k);
  }

  /** Nobody waits for ever: until Wait passes, some step other than a cancellation is possible. A
      goroutine parked on the open channel leaves a slot holder, which can move itself. */
  lemma Progress(cfg: Config, s: State) returns (e: Event)
    requires Inv(cfg, s) && !s.returned
    ensures Enabled(cfg, s, e) && e != Cancel
  {
    if s.launched < |s.pcs| {
      e := Launch;
    } else if s.waiting == 0 {
      e := WaitPasses;
    } else {
      var i := PositiveSumHasPositiveEntry(LiveFlags(s.pcs));
      if s.pcs[i].AwaitSummary? && s.summaryCloses == 0 {
        e := if s.summary == Computing then SummaryEnds else SummaryCloses;
      } else if s.pcs[i].Parked? && !s.gate.Closed(s.pcs[i].channel) {
        var holder := PositiveSumHasPositiveEntry(HoldFlags(s.pcs));
        e := GoroutineCanMove(cfg, s, holder);
      } else {
        e := GoroutineCanMove(cfg, s, i);
      }
    }
  }

  // ---------- runs ----------

  /** `es` is a schedule from s to s'. */
  ghost predicate Runs(cfg: Config, s: State, es: seq<Event>, s': State)
    decreases es
  {
    if es == [] then s == s'
    else Sized(cfg, s) && Enabled(cfg, s, es[0]) && Runs(cfg, Apply(cfg, s, es[0]), es[1..], s')
  }

  lemma {:induction false} RunKeepsInv(cfg: Config, s: State, es: seq<Event>, s': State)
    requires Inv(cfg, s) && Runs(cfg, s, es, s')
    ensures Inv(cfg, s')
    ensures |es| + Measure(s') <= Measure(s)
    ensures s.summary == Closed ==> s'.summary == Closed
    decreases es
  {
    if es != [] {
      StepKeepsSummary(cfg, s, es[0]);
      StepKeepsInv(cfg, s, es[0]);
      StepShrinksMeasure(cfg, s, es[0]);
      RunKeepsInv(cfg, Apply(cfg, s, es[0]), es[1..], s');
    }
  }

  ghost predicate Reaches(cfg: Config, prewarm: bool, es: seq<Event>, s: State) {
    cfg.Valid() && Runs(cfg, Init(cfg, prewarm), es, s)
  }

  lemma ReachableInv(cfg: Config, prewarm: bool, es: seq<Event>, s: State)
    requires Reaches(cfg, prewarm, es, s)
    ensures Inv(cfg, s)
  {
    InitEstablishesInv(cfg, prewarm);
    RunKeepsInv(cfg, Init(cfg, prewarm), es, s);
  }

  /** From every state it can get to, the phase can still return, and without being canceled. */
  lemma {:induction false} CanReturn(cfg: Config, s: State) returns (es: seq<Event>, end: State)
    requires Inv(cfg, s)
    ensures Runs(cfg, s, es, end) && end.returned && Cancel !in es
    decreases Measure(s)
  {
    if s.returned {
      es, end := [], s;
    } else {
      var e := Progress(cfg, s);
      StepKeepsInv(cfg, s, e);
      StepShrinksMeasure(cfg, s, e);
      var rest;
      rest, end := CanReturn(cfg, Apply(cfg, s, e));
      es := [e] + rest;
      assert es[1..] == rest;
    }
  }

  function Holders(pcs: seq<Pc>): set<nat> {
    set i: nat | i < |pcs| && Holds(pcs[i])
  }

  lemma {:induction false} HoldersAreCounted(pcs: seq<Pc>)
    ensures |Holders(pcs)| == Sum(HoldFlags(pcs))
  {
    if pcs == [] {
      assert Holders(pcs) == {};
    } else {
      var n := |pcs| - 1;
      HoldersAreCounted(pcs[..n]);
      LastFlag(pcs[..n], pcs[n]);
      assert pcs[..n] + [pcs[n]] == pcs;
      assert Holders(pcs) == Holders(pcs[..n]) + (if Holds(pcs[n]) then {n} else {});
    }
  }

  lemma LastFlag(init: seq<Pc>, pc: Pc)
    ensures Sum(HoldFlags(init + [pc])) == Sum(HoldFlags(init)) + Flag(Holds(pc))
  {
    var padded := init + [Unborn];
    assert HoldFlags(padded) == HoldFlags(init) + [0];
    SumAppendZero(HoldFlags(init));
    assert init + [pc] == padded[|init| := pc];
    HoldFlagsAfterGoto(padded, |init|, pc);
  }

  /** In every interleaving: no more goroutines hold a slot than the gate allows; a goroutine
      waiting for the summary holds none, and one of a taint type holds a slot only after the
      summary is there; the summary channel is closed at most once; and no two goroutines are
      between Lock and Unlock of planErrMu, so planErrors is never written concurrently. */
  lemma EveryInterleavingIsSafe(cfg: Config, prewarm: bool, es: seq<Event>, s: State)
    requires Reaches(cfg, prewarm, es, s)
    ensures |s.pcs| == |cfg.types|
    ensures |Holders(s.pcs)| <= NewGate(cfg.concurrency).max
    ensures forall i :: i in Holders(s.pcs) ==>
              s.pcs[i] != AwaitSummary && (cfg.types[i] in cfg.taint ==> s.summaryCloses == 1)
    ensures s.summaryCloses <= 1
    ensures forall i, j | 0 <= i < |s.pcs| && 0 <= j < |s.pcs| ::
              InCriticalSection(s.pcs[i]) && InCriticalSection(s.pcs[j]) ==> i == j
  {
    ReachableInv(cfg, prewarm, es, s);
    HoldersAreCounted(s.pcs);
  }

  /** Every schedule ends: its length is bounded by a number fixed at the start, and as long as the
      phase has not returned the schedule can go on without anybody canceling it. */
  lemma EveryScheduleEnds(cfg: Config, prewarm: bool, es: seq<Event>, s: State)
    requires Reaches(cfg, prewarm, es, s)
    ensures |es| <= Measure(Init(cfg, prewarm))
    ensures |s.pcs| == |cfg.types|
    ensures !s.returned ==> exists e :: e != Cancel && Enabled(cfg, s, e)
  {
    InitEstablishesInv(cfg, prewarm);
    RunKeepsInv(cfg, Init(cfg, prewarm), es, s);
    if !s.returned {
      var e := Progress(cfg, s);
    }
  }

  /** The verdict a run's events give type i. */
  ghost predicate Decides(es: seq<Event>, i: nat, v: Verdict) {
    PlanEnds(i, v) in es || (v == Canceled && SeesCancel(i) in es)
  }

  lemma {:induction false} VerdictsComeFromEvents(cfg: Config, s: State, es: seq<Event>, s': State, i: nat, v: Verdict)
    requires Inv(cfg, s) && Runs(cfg, s, es, s') && i < |cfg.types|
    ensures |s'.verdicts| == |cfg.types|
    ensures s'.verdicts[i] == Some(v) <==> s.verdicts[i] == Some(v) || Decides(es, i, v)
    decreases es
  {
    if es != [] {
      var mid := Apply(cfg, s, es[0]);
      StepKeepsInv(cfg, s, es[0]);
      VerdictsComeFromEvents(cfg, mid, es[1..], s', i, v);
      assert es == [es[0]] + es[1..];
      assert RecordOk(cfg, s, i);
      StepDecides(cfg, s, es[0], i, v);
      assert Decides(es, i, v) <==> Decides([es[0]], i, v) || Decides(es[1..], i, v);
    }
  }

  /** Only these two events decide a type, and each decides its own. */
  lemma StepWritesVerdict(cfg: Config, s: State, e: Event)
    requires Sized(cfg, s) && Enabled(cfg, s, e)
    ensures Apply(cfg, s, e).verdicts ==
            match e
            case PlanEnds(i, outcome) => s.verdicts[i := Some(outcome)]
            case SeesCancel(i) => s.verdicts[i := Some(Canceled)]
            case _ => s.verdicts
  {
    match e
    case PlanEnds(_, outcome) => match outcome { case Planned(_) => case Failed(_) => case Panicked(_) => }
    case _ =>
  }

  lemma OneEventDecides(e: Event, i: nat, v: Verdict)
    ensures Decides([e], i, v) <==> e == PlanEnds(i, v) || (v == Canceled && e == SeesCancel(i))
  {
    assert forall d :: d in [e] <==> d == e;
  }

  lemma StepDecides(cfg: Config, s: State, e: Event, i: nat, v: Verdict)
    requires Sized(cfg, s) && Enabled(cfg, s, e) && i < |s.pcs| && RecordOk(cfg, s, i)
    ensures |Apply(cfg, s, e).verdicts| == |s.verdicts|
    ensures Apply(cfg, s, e).verdicts[i] == Some(v) <==> s.verdicts[i] == Some(v) || Decides([e], i, v)
  {
    StepWritesVerdict(cfg, s, e);
    OneEventDecides(e, i, v);
    if e == PlanEnds(i, v) || e == SeesCancel(i) {
      assert Undecided(s.pcs[i]);
    }
  }

  /** When the phase returns, every type has exactly one of a result and an error, it is the one
      its own goroutine's Plan call (or cancellation) produced, and planErrors has no other key. The
      summary channel, prewarmed only when some type is a taint type, has then been closed. */
  lemma OutcomeIsComplete(cfg: Config, prewarm: bool, es: seq<Event>, s: State)
    requires Reaches(cfg, prewarm, es, s) && s.returned
    ensures |s.plans| == |cfg.types| == |s.pcs|
    ensures forall i :: 0 <= i < |s.pcs| ==> s.pcs[i] == Done
    ensures (prewarm ==> exists i :: 0 <= i < |cfg.types| && cfg.types[i] in cfg.taint) ==> s.summaryCloses == 1
    ensures forall i :: 0 <= i < |s.plans| ==> (s.plans[i].Some? <==> cfg.types[i] !in s.planErrors)
    ensures forall t :: t in s.planErrors ==> t in cfg.types
    ensures forall i: nat, r :: i < |s.plans| ==>
              (s.plans[i] == Some(r) <==> PlanEnds(i, Planned(r)) in es)
    ensures forall i: nat, v: Verdict :: i < |s.plans| && !v.Planned? && Decides(es, i, v) ==>
              cfg.types[i] in s.planErrors && s.planErrors[cfg.types[i]] == ErrorText(cfg.types[i], v)
  {
    InitEstablishesInv(cfg, prewarm);
    RunKeepsInv(cfg, Init(cfg, prewarm), es, s);
    EveryoneIsSettled(cfg, s);
    forall i: nat, v: Verdict | i < |s.pcs| ensures s.verdicts[i] == Some(v) <==> Decides(es, i, v) {
      VerdictsComeFromEvents(cfg, Init(cfg, prewarm), es, s, i, v);
    }
    forall i: nat, r | i < |s.plans| ensures s.plans[i] == Some(r) <==> PlanEnds(i, Planned(r)) in es {
      assert Decides(es, i, Planned(r)) <==> PlanEnds(i, Planned(r)) in es;
    }
  }

  /** Every goroutine is done, and what its verdict calls for is recorded. */
  lemma EveryoneIsSettled(cfg: Config, s: State)
    requires Inv(cfg, s) && s.returned
    ensures forall i :: 0 <= i < |s.pcs| ==> s.pcs[i] == Done && s.verdicts[i].Some?
    ensures forall i :: 0 <= i < |s.pcs| ==> (s.plans[i].Some? <==> cfg.types[i] !in s.planErrors)
    ensures forall i: nat, r :: i < |s.pcs| ==> (s.plans[i] == Some(r) <==> s.verdicts[i] == Some(Planned(r)))
    ensures forall i: nat, v: Verdict :: i < |s.pcs| && !v.Planned? && s.verdicts[i] == Some(v) ==>
              cfg.types[i] in s.planErrors && s.planErrors[cfg.types[i]] == ErrorText(cfg.types[i], v)
  {
    forall i | 0 <= i < |s.pcs|
      ensures s.pcs[i] == Done && s.verdicts[i].Some?
      ensures s.plans[i].Some? <==> cfg.types[i] !in s.planErrors
      ensures Settled(cfg, s, i, s.verdicts[i].value)
    {
      EntryAtMostSum(LiveFlags(s.pcs), i);
      assert RecordOk(cfg, s, i);
      RecordedIsSettled(cfg, s, i);
    }
  }

  /** The plan is there exactly for a planned type, the error exactly for another one. */
  ghost predicate Settled(cfg: Config, s: State, i: nat, v: Verdict)
    requires i < |cfg.types| == |s.plans|
  {
    if v.Planned? then s.plans[i] == Some(v.result) && cfg.types[i] !in s.planErrors
    else
      && s.plans[i] == None && cfg.types[i] in s.planErrors
      && s.planErrors[cfg.types[i]] == ErrorText(cfg.types[i], v)
  }

  lemma RecordedIsSettled(cfg: Config, s: State, i: nat)
    requires Sized(cfg, s) && i < |s.pcs| && Recorded(cfg, s, i) && s.verdicts[i].Some?
    ensures Settled(cfg, s, i, s.verdicts[i].value)
  {
    match s.verdicts[i].value
    case Planned(_) => case Failed(_) => case Panicked(_) => case Canceled =>
  }
}
