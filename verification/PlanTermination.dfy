/** The plan phase cannot run for ever: every step lowers a natural number. */
module PlanTermination {
  import opened Options
  import opened Gate
  import opened Sums
  import opened PlanPhase

  function ReleasesLeft(s: State): nat {
    Sum(ReleaseFlags(s.pcs))
  }

  /** Steps a goroutine may still take. A wait in the gate ends at a Release, so the rounds it may
      still make there are bounded by the releases to come. */
  function Weight(pc: Pc, generation: nat, releases: nat): nat {
    match pc
    case Unborn => 2 * releases + 13
    case Start => 2 * releases + 12
    case AwaitSummary => 2 * releases + 11
    case Parked(channel) => 2 * releases + (if channel < generation then 11 else 9)
    case TryAcquire => 2 * releases + 10
    case Planning => 8
    case LockErrors(_, holding) => if holding then 7 else 4
    case WriteErrors(_, holding) => if holding then 6 else 3
    case UnlockErrors(holding) => if holding then 5 else 2
    case Releasing(panic) => if panic.Some? then 5 else 4
    case Finishing => 1
    case Done => 0
  }

  function Weights(s: State): seq<nat> {
    seq(|s.pcs|, i requires 0 <= i < |s.pcs| => Weight(s.pcs[i], s.gate.generation, ReleasesLeft(s)))
  }

  function Measure(s: State): nat {
    Sum(Weights(s))
    + (match s.summary case Computing => 2 case Closing => 1 case Closed => 0)
    + Flag(!s.canceled) + Flag(!s.returned)
  }

  /** What a step does to the releases its goroutine may still make. */
  lemma ReleaseFlagMoves(cfg: Config, s: State, e: Event, i: nat)
    requires Sized(cfg, s) && Enabled(cfg, s, e) && Mover(s, e) == Some(i) && i < |s.pcs|
    requires e.Launch? ==> s.pcs[i] == Unborn
    ensures var s' := Apply(cfg, s, e);
            && i < |s'.pcs|
            && (MayRelease(s'.pcs[i]) ==> MayRelease(s.pcs[i]))
            && (e.Release? ==> MayRelease(s.pcs[i]) && !MayRelease(s'.pcs[i]))
            && (e.Launch? || e.Begin? || e.SummarySeen? || e.Woken? ==> MayRelease(s'.pcs[i]))
  {
    match e
    case PlanEnds(_, outcome) => match outcome { case Planned(_) => case Failed(_) => case Panicked(_) => }
    case _ =>
  }

  lemma GenerationMoves(cfg: Config, s: State, e: Event)
    requires Sized(cfg, s) && Enabled(cfg, s, e)
    ensures Apply(cfg, s, e).gate.generation == s.gate.generation + Flag(e.Release?)
  {
    match e
    case PlanEnds(_, outcome) => match outcome { case Planned(_) => case Failed(_) => case Panicked(_) => }
    case _ =>
  }

  /** Releases and generations move together: the counter of releases left only drops, and each
      closing of a channel uses one up. */
  lemma ReleasesAfterStep(cfg: Config, s: State, e: Event)
    requires Sized(cfg, s) && Enabled(cfg, s, e) && Mover(s, e).Some?
    requires e.Launch? ==> s.pcs[s.launched] == Unborn
    ensures var s' := Apply(cfg, s, e);
            && ReleasesLeft(s') <= ReleasesLeft(s)
            && s'.gate.generation == s.gate.generation + Flag(e.Release?)
            && (e.Release? ==> ReleasesLeft(s') + 1 == ReleasesLeft(s))
            && (e.Launch? || e.Begin? || e.SummarySeen? || e.Woken? ==> ReleasesLeft(s') == ReleasesLeft(s))
  {
    var i := Mover(s, e).value;
    StepMovesOne(cfg, s, e);
    ReleaseFlagMoves(cfg, s, e, i);
    GenerationMoves(cfg, s, e);
    ReleaseFlagsAfterGoto(s.pcs, i, Apply(cfg, s, e).pcs[i]);
  }

  /** Where a step takes its goroutine, as far as its weight can tell. */
  ghost predicate Lighter(before: Pc, g: nat, r: nat, after: Pc, g': nat, r': nat) {
    Weight(after, g', r') < Weight(before, g, r)
  }

  /** On the way to the gate, the weight falls while the releases to come stay the same. */
  lemma ApproachLosesWeight(cfg: Config, s: State, e: Event, i: nat, r: nat)
    requires Sized(cfg, s) && Enabled(cfg, s, e) && Mover(s, e) == Some(i) && i < |s.pcs|
    requires e.Launch? || e.Begin? || e.SummarySeen? || e.Woken?
    requires e.Launch? ==> s.pcs[i] == Unborn
    ensures var s' := Apply(cfg, s, e);
            i < |s'.pcs| && Lighter(s.pcs[i], s.gate.generation, r, s'.pcs[i], s'.gate.generation, r)
  {}

  /** At the gate it falls too, whether the goroutine is admitted, parks or gives up. */
  lemma AttemptLosesWeight(cfg: Config, s: State, e: Event, i: nat, r: nat, r': nat)
    requires Sized(cfg, s) && Enabled(cfg, s, e) && Mover(s, e) == Some(i) && i < |s.pcs|
    requires (e.Acquire? || e.SeesCancel?) && r' <= r
    ensures var s' := Apply(cfg, s, e);
            i < |s'.pcs| && Lighter(s.pcs[i], s.gate.generation, r, s'.pcs[i], s'.gate.generation, r')
  {}

  /** Behind the gate the weight does not depend on the releases to come. */
  lemma WorkLosesWeight(cfg: Config, s: State, e: Event, i: nat, r: nat, r': nat)
    requires Sized(cfg, s) && Enabled(cfg, s, e) && Mover(s, e) == Some(i) && i < |s.pcs|
    requires e.PlanEnds? || e.TakeLock? || e.StoreError? || e.DropLock? || e.Release? || e.Finish?
    ensures var s' := Apply(cfg, s, e);
            i < |s'.pcs| && Lighter(s.pcs[i], s.gate.generation, r, s'.pcs[i], s'.gate.generation, r')
  {
    match e
    case PlanEnds(_, outcome) => match outcome { case Planned(_) => case Failed(_) => case Panicked(_) => }
    case _ =>
  }

  lemma MoverLosesWeight(cfg: Config, s: State, e: Event, i: nat)
    requires Sized(cfg, s) && Enabled(cfg, s, e) && Mover(s, e) == Some(i) && i < |s.pcs|
    requires e.Launch? ==> s.pcs[s.launched] == Unborn
    ensures var s' := Apply(cfg, s, e);
            i < |s'.pcs| &&
            Lighter(s.pcs[i], s.gate.generation, ReleasesLeft(s), s'.pcs[i], s'.gate.generation, ReleasesLeft(s'))
  {
    var r, r' := ReleasesLeft(s), ReleasesLeft(Apply(cfg, s, e));
    ReleasesAfterStep(cfg, s, e);
    if e.Launch? || e.Begin? || e.SummarySeen? || e.Woken? {
      ApproachLosesWeight(cfg, s, e, i, r);
    } else if e.Acquire? || e.SeesCancel? {
      AttemptLosesWeight(cfg, s, e, i, r, r');
    } else {
      WorkLosesWeight(cfg, s, e, i, r, r');
    }
  }

  lemma OthersKeepWeight(pc: Pc, g: nat, r: nat, g': nat, r': nat)
    requires r' <= r && (g' == g || (g' == g + 1 && r' + 1 == r))
    requires pc.Parked? ==> pc.channel <= g
    ensures Weight(pc, g', r') <= Weight(pc, g, r)
  {}

  lemma WeightsShrink(cfg: Config, s: State, e: Event, i: nat)
    requires Sized(cfg, s) && GateOk(s) && Enabled(cfg, s, e) && Mover(s, e) == Some(i)
    requires e.Launch? ==> s.pcs[s.launched] == Unborn
    ensures Sum(Weights(Apply(cfg, s, e))) < Sum(Weights(s))
  {
    var s' := Apply(cfg, s, e);
    var g, r, g', r' := s.gate.generation, ReleasesLeft(s), s'.gate.generation, ReleasesLeft(s');
    ReleasesAfterStep(cfg, s, e);
    MoverLosesWeight(cfg, s, e, i);
    assert s'.pcs == s.pcs[i := s'.pcs[i]] by { StepIsLocal(cfg, s, e); }
    forall j | 0 <= j < |s.pcs| ensures Weight(s'.pcs[j], g', r') <= Weight(s.pcs[j], g, r) {
      if j != i {
        OthersKeepWeight(s.pcs[j], g, r, g', r');
      }
    }
    SumStrictlyDrops(Weights(s'), Weights(s), i);
  }

  lemma MoversLeaveTheRest(cfg: Config, s: State, e: Event)
    requires Sized(cfg, s) && Enabled(cfg, s, e) && Mover(s, e).Some?
    ensures var s' := Apply(cfg, s, e);
            s'.summary == s.summary && s'.canceled == s.canceled && s'.returned == s.returned
  {
    match e
    case PlanEnds(i, outcome) => match outcome { case Planned(_) => case Failed(_) => case Panicked(_) => }
    case _ =>
  }

  /** Every step, by anyone, makes the measure smaller: no schedule runs for ever. */
  lemma StepShrinksMeasure(cfg: Config, s: State, e: Event)
    requires Inv(cfg, s) && Enabled(cfg, s, e)
    ensures Measure(Apply(cfg, s, e)) < Measure(s)
  {
    match Mover(s, e)
    case None =>
      assert Weights(Apply(cfg, s, e)) == Weights(s);
    case Some(i) =>
      WeightsShrink(cfg, s, e, i);
      MoversLeaveTheRest(cfg, s, e);
  }
}
