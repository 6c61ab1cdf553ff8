/** The list of vulnerability types that the plan phase fills and the commands read by position
    (sgre/internal/planner/registry.go:209-256, sgre/internal/cli/pipeline.go:396-434), and the
    per-type loops that read it (scan.go:315-328, diff.go:180-194). */
module TypeLists {
  import opened Options
  import opened Ordering
  import PlanPhase
  import PlanRuns

  // ---------- the lists ----------

  function Enabled(names: seq<string>, disabled: set<string>): (r: seq<string>)
    ensures forall n :: n in r <==> n in names && n !in disabled
  {
    if names == [] then []
    else (if names[0] in disabled then [] else [names[0]]) + Enabled(names[1..], disabled)
  }

  /** ActiveVulnTypes, for a map iteration that yields the names in the order `names`. */
  function Active(names: seq<string>, disabled: set<string>): seq<string> {
    Sort(Enabled(names, disabled), StringLess)
  }

  function Allowed(names: seq<string>, filter: set<string>): (r: seq<string>)
    ensures |r| <= |names|
    ensures r == names <==> forall n :: n in names ==> n in filter
    ensures |r| == |names| ==> r == names
  {
    if names == [] then []
    else
      var rest := Allowed(names[1..], filter);
      assert names == [names[0]] + names[1..];
      if names[0] in filter then [names[0]] + rest else rest
  }

  /** TypeFilteredActiveVulnTypes */
  function Filtered(names: seq<string>, disabled: set<string>, filter: set<string>): seq<string> {
    if filter == {} then Active(names, disabled) else Allowed(Active(names, disabled), filter)
  }

  lemma {:induction false} EnabledCount(names: seq<string>, disabled: set<string>, x: string)
    ensures multiset(Enabled(names, disabled))[x] == if x in disabled then 0 else multiset(names)[x]
  {
    if names != [] {
      assert names == [names[0]] + names[1..];
      EnabledCount(names[1..], disabled, x);
    }
  }

  lemma EnabledForgetsOrder(names: seq<string>, others: seq<string>, disabled: set<string>)
    requires multiset(names) == multiset(others)
    ensures multiset(Enabled(names, disabled)) == multiset(Enabled(others, disabled))
  {
    forall x ensures multiset(Enabled(names, disabled))[x] == multiset(Enabled(others, disabled))[x] {
      EnabledCount(names, disabled, x);
      EnabledCount(others, disabled, x);
    }
  }

  lemma UnknownNamesDisableNothing(names: seq<string>, disabled: set<string>, pruned: set<string>)
    requires pruned == set n | n in disabled && n in names
    ensures Enabled(names, disabled) == Enabled(names, pruned)
  {
    EnabledOnlyAsks(names, disabled, pruned);
  }

  lemma {:induction false} EnabledOnlyAsks(names: seq<string>, a: set<string>, b: set<string>)
    requires forall n :: n in names ==> (n in a <==> n in b)
    ensures Enabled(names, a) == Enabled(names, b)
  {
    if names != [] {
      EnabledOnlyAsks(names[1..], a, b);
    }
  }

  /** The pipeline, which prunes unknown names from the disabled set, and the scan command, which
      does not, get the same list from any two iterations of the registry. */
  lemma ListsAgree(names: seq<string>, others: seq<string>, disabled: set<string>, pruned: set<string>,
                   filter: set<string>)
    requires multiset(names) == multiset(others) && pruned == set n | n in disabled && n in names
    ensures Filtered(names, pruned, filter) == Filtered(others, disabled, filter)
  {
    UnknownNamesDisableNothing(names, disabled, pruned);
    EnabledForgetsOrder(names, others, disabled);
    StringLessIsWeakOrder();
    StringsTieFree(Enabled(names, disabled));
    SortForgetsOrder(Enabled(names, disabled), Enabled(others, disabled), StringLess);
  }

  // ---------- reading the plans ----------

  datatype Package = Error(vulnType: string, error: string) | Planned(vulnType: string, result: PlanPhase.PlanResult)

  /** Every plan that the loop will dereference is there. */
  predicate Readable(types: seq<string>, plans: seq<Option<PlanPhase.PlanResult>>, errors: map<string, string>) {
    && |types| <= |plans|
    && forall i :: 0 <= i < |types| && types[i] !in errors ==> plans[i].Some?
  }

  /** The per-type loop of scan and review: an error package, or the plan at the same position. */
  method ReadPlans(types: seq<string>, plans: seq<Option<PlanPhase.PlanResult>>, errors: map<string, string>)
    returns (packages: seq<Package>)
    requires Readable(types, plans, errors)
    ensures |packages| == |types|
    ensures forall i :: 0 <= i < |types| ==>
      packages[i] == if types[i] in errors then Error(types[i], errors[types[i]]) else Planned(types[i], plans[i].value)
  {
    packages := [];
    for i := 0 to |types|
      invariant |packages| == i
      invariant forall j :: 0 <= j < i ==>
        packages[j] ==
        if types[j] in errors then Error(types[j], errors[types[j]]) else Planned(types[j], plans[j].value)
    {
      if types[i] in errors {
        packages := packages + [Error(types[i], errors[types[i]])];
      } else {
        packages := packages + [Planned(types[i], plans[i].value)];
      }
    }
  }

  /** The plan at position i is the one that Plan returned for the type the reader takes it for. */
  ghost predicate Own(types: seq<string>, cfg: PlanPhase.Config, es: seq<PlanPhase.Event>, s: PlanPhase.State) {
    && Readable(types, s.plans, s.planErrors)
    && forall i: nat :: i < |types| && types[i] !in s.planErrors ==>
         i < |cfg.types| && cfg.types[i] == types[i] && PlanPhase.PlanEnds(i, PlanPhase.Planned(s.plans[i].value)) in es
  }

  lemma OwnPlans(cfg: PlanPhase.Config, prewarm: bool, es: seq<PlanPhase.Event>, s: PlanPhase.State)
    requires PlanRuns.Reaches(cfg, prewarm, es, s) && s.returned
    ensures Own(cfg.types, cfg, es, s) && |s.plans| == |cfg.types|
  {
    PlanRuns.OutcomeIsComplete(cfg, prewarm, es, s);
  }

  /** Scan: after any interleaving of the plan phase the loop dereferences no missing plan, and
      takes each plan for the type it was made for. */
  lemma ScanReadsItsOwnPlans(
    cfg: PlanPhase.Config, prewarm: bool, es: seq<PlanPhase.Event>, s: PlanPhase.State,
    names: seq<string>, others: seq<string>, disabled: set<string>, pruned: set<string>, filter: set<string>)
    requires PlanRuns.Reaches(cfg, prewarm, es, s) && s.returned
    requires multiset(names) == multiset(others) && pruned == set n | n in disabled && n in names
    requires cfg.types == Filtered(names, pruned, filter)
    ensures Own(Filtered(others, disabled, filter), cfg, es, s)
  {
    OwnPlans(cfg, prewarm, es, s);
    ListsAgree(names, others, disabled, pruned, filter);
  }

  ghost predicate DropsNothing(names: seq<string>, disabled: set<string>, filter: set<string>) {
    filter == {} || forall n :: n in names && n !in disabled ==> n in filter
  }

  lemma FilteredIsShorter(names: seq<string>, disabled: set<string>, filter: set<string>)
    ensures DropsNothing(names, disabled, filter) ==> Filtered(names, disabled, filter) == Active(names, disabled)
    ensures !DropsNothing(names, disabled, filter) ==> |Filtered(names, disabled, filter)| < |Active(names, disabled)|
  {
    SortMembers(Enabled(names, disabled), StringLess);
    assert forall n :: n in Active(names, disabled) <==> n in names && n !in disabled;
  }

  /** Review derives its list without the type filter: it reads every type's own plan if and only if
      the filter drops no active type; otherwise its list is longer than the plans. */
  lemma ReviewReadsItsOwnPlansIffNothingIsFiltered(
    cfg: PlanPhase.Config, prewarm: bool, es: seq<PlanPhase.Event>, s: PlanPhase.State,
    names: seq<string>, others: seq<string>, disabled: set<string>, pruned: set<string>, filter: set<string>)
    requires PlanRuns.Reaches(cfg, prewarm, es, s) && s.returned
    requires multiset(names) == multiset(others) && pruned == set n | n in disabled && n in names
    requires cfg.types == Filtered(names, pruned, filter)
    ensures Own(Active(others, disabled), cfg, es, s) <==> DropsNothing(others, disabled, filter)
  {
    OwnPlans(cfg, prewarm, es, s);
    ListsAgree(names, others, disabled, pruned, filter);
    FilteredIsShorter(others, disabled, filter);
  }
}
