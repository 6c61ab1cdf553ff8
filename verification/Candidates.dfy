/** What happens to a type's candidates after planning (sgre/internal/cli/scan.go:340-375, 764-878;
    diff.go:196-217, 420-452) and the keys they are known by (fingerprint.go:20-28). */
module Candidates {
  import opened Text
  import WriteBatch

  datatype Target = Target(file: string, line: int, functionName: string, variable: string)

  datatype Item = Item(target: Target, sourceLine: int, suspicion: string, macroContext: bool, details: string)

  // ---------- filters ----------

  function Filter(items: seq<Item>, p: Item -> bool): (r: seq<Item>)
    ensures forall c :: c in r <==> c in items && p(c)
  {
    if items == [] then [] else (if p(items[0]) then [items[0]] else []) + Filter(items[1..], p)
  }

  function Not(p: Item -> bool): Item -> bool { (c: Item) => !p(c) }

  function Both(p: Item -> bool, q: Item -> bool): Item -> bool { (c: Item) => p(c) && q(c) }

  lemma {:induction false} FilterMore(items: seq<Item>, c: Item, p: Item -> bool)
    ensures Filter(items + [c], p) == Filter(items, p) + if p(c) then [c] else []
  {
    if items == [] {
      assert items + [c] == [c] && [c][1..] == [];
    } else {
      assert (items + [c])[0] == items[0] && (items + [c])[1..] == items[1..] + [c];
      FilterMore(items[1..], c, p);
    }
  }

  lemma {:induction false} FilterSplits(items: seq<Item>, p: Item -> bool)
    ensures multiset(Filter(items, p)) + multiset(Filter(items, Not(p))) == multiset(items)
  {
    if items != [] {
      assert items == [items[0]] + items[1..];
      FilterSplits(items[1..], p);
    }
  }

  lemma FilterCons(c: Item, rest: seq<Item>, p: Item -> bool)
    ensures Filter([c] + rest, p) == (if p(c) then [c] else []) + Filter(rest, p)
  {
    assert ([c] + rest)[1..] == rest;
  }

  lemma {:induction false} FilterTwice(items: seq<Item>, p: Item -> bool, q: Item -> bool)
    ensures Filter(Filter(items, p), q) == Filter(items, Both(p, q))
  {
    if items != [] {
      var c, rest := items[0], items[1..];
      assert items == [c] + rest;
      FilterTwice(rest, p, q);
      FilterCons(c, rest, p);
      FilterCons(c, rest, Both(p, q));
      if p(c) {
        FilterCons(c, Filter(rest, p), q);
      } else {
        assert [] + Filter(rest, p) == Filter(rest, p);
      }
    }
  }

  lemma {:induction false} FilterSame(items: seq<Item>, p: Item -> bool, q: Item -> bool)
    requires forall c :: c in items ==> p(c) == q(c)
    ensures Filter(items, p) == Filter(items, q)
  {
    if items != [] {
      FilterSame(items[1..], p, q);
    }
  }

  lemma Prefixes(items: seq<Item>, i: nat)
    requires i < |items|
    ensures items[..i + 1] == items[..i] + [items[i]]
  {}

  // ---------- the two tiers ----------

  predicate Proved(c: Item) { c.suspicion == "confirmed" && !c.macroContext }

  predicate Located(c: Item) { c.target.file != "" && c.target.line > 0 }

  lemma FilterNext(items: seq<Item>, i: nat, p: Item -> bool)
    requires i < |items|
    ensures Filter(items[..i + 1], p) == Filter(items[..i], p) + if p(items[i]) then [items[i]] else []
  {
    Prefixes(items, i);
    FilterMore(items[..i], items[i], p);
  }

  method SplitBySuspicion(candidates: seq<Item>) returns (confirmed: seq<Item>, needsReview: seq<Item>)
    ensures confirmed == Filter(candidates, Proved)
    ensures needsReview == Filter(candidates, Not(Proved))
  {
    confirmed, needsReview := [], [];
    for i := 0 to |candidates|
      invariant confirmed == Filter(candidates[..i], Proved)
      invariant needsReview == Filter(candidates[..i], Not(Proved))
    {
      var c := candidates[i];
      FilterNext(candidates, i, Proved);
      FilterNext(candidates, i, Not(Proved));
      if c.suspicion == "confirmed" && !c.macroContext {
        confirmed := confirmed + [c];
      } else {
        needsReview := needsReview + [c];
      }
    }
    assert candidates[..|candidates|] == candidates;
  }

  /** The first located candidate whose upsert fails, or the length. */
  function FirstFailure(candidates: seq<Item>, fails: nat -> bool, from: nat): (f: nat)
    requires from <= |candidates|
    ensures from <= f <= |candidates|
    ensures forall i :: from <= i < f ==> !(Located(candidates[i]) && fails(i))
    ensures f < |candidates| ==> Located(candidates[f]) && fails(f)
    decreases |candidates| - from
  {
    if from == |candidates| || (Located(candidates[from]) && fails(from)) then from
    else FirstFailure(candidates, fails, from + 1)
  }

  lemma FailureAt(candidates: seq<Item>, fails: nat -> bool, i: nat)
    requires i < |candidates| && i <= FirstFailure(candidates, fails, 0)
    ensures Located(candidates[i]) && fails(i) <==> i == FirstFailure(candidates, fails, 0)
  {}

  /** Upserts the located candidates until one fails; `stored` are those the store took. */
  method AutoConfirm(candidates: seq<Item>, fails: nat -> bool)
    returns (stored: seq<Item>, unwritten: seq<Item>, failed: bool)
    ensures var f := FirstFailure(candidates, fails, 0);
            && stored == Filter(candidates[..f], Located)
            && unwritten == Filter(candidates[..f], Not(Located)) + candidates[f..]
            && (failed <==> f < |candidates|)
  {
    stored, unwritten := [], [];
    var i := 0;
    while i < |candidates|
      invariant i <= FirstFailure(candidates, fails, 0)
      invariant stored == Filter(candidates[..i], Located)
      invariant unwritten == Filter(candidates[..i], Not(Located))
    {
      var c := candidates[i];
      FailureAt(candidates, fails, i);
      FilterNext(candidates, i, Located);
      FilterNext(candidates, i, Not(Located));
      if c.target.file == "" || c.target.line <= 0 {
        unwritten := unwritten + [c];
      } else {
        if fails(i) {
          return stored, unwritten + candidates[i..], true;
        }
        stored := stored + [c];
      }
      i := i + 1;
    }
    assert candidates[i..] == [] && unwritten + [] == unwritten;
    failed := false;
  }

  lemma AutoConfirmLosesNothing(candidates: seq<Item>, f: nat)
    requires f <= |candidates|
    ensures multiset(Filter(candidates[..f], Located)) +
        multiset(Filter(candidates[..f], Not(Located)) + candidates[f..])
         == multiset(candidates)
  {
    FilterSplits(candidates[..f], Located);
    assert candidates == candidates[..f] + candidates[f..];
  }

  /** No candidate is lost: whatever upsert fails, and whichever candidates have no location, the
      kept candidates are the stored ones and the review list, each exactly once; only proved and
      located ones are stored, and every one that needs judgement is on the review list. */
  method ConfirmOrReview(kept: seq<Item>, fails: nat -> bool)
    returns (stored: seq<Item>, review: seq<Item>, degraded: bool)
    ensures multiset(stored) + multiset(review) == multiset(kept)
    ensures forall c :: c in stored ==> Proved(c) && Located(c)
    ensures forall c :: c in kept && !(Proved(c) && Located(c)) ==> c in review && c !in stored
    ensures !degraded ==> stored == Filter(kept, Both(Proved, Located))
    ensures Filter(kept, Not(Proved)) <= review
  {
    var confirmed, needsReview := SplitBySuspicion(kept);
    var unwritten;
    stored, unwritten, degraded := AutoConfirm(confirmed, fails);
    review := needsReview;
    if |unwritten| > 0 {
      review := review + unwritten;
    } else {
      assert review == review + unwritten;
    }
    ConfirmedOrReviewed(kept, FirstFailure(confirmed, fails, 0), stored, review);
  }

  lemma ConfirmedOrReviewed(kept: seq<Item>, f: nat, stored: seq<Item>, review: seq<Item>)
    requires f <= |Filter(kept, Proved)|
    requires stored == Filter(Filter(kept, Proved)[..f], Located)
    requires review == Filter(kept, Not(Proved)) +
        (Filter(Filter(kept, Proved)[..f], Not(Located)) + Filter(kept, Proved)[f..])
    ensures multiset(stored) + multiset(review) == multiset(kept)
    ensures forall c :: c in stored ==> Proved(c) && Located(c)
    ensures forall c :: c in kept && !(Proved(c) && Located(c)) ==> c in review && c !in stored
    ensures f == |Filter(kept, Proved)| ==> stored == Filter(kept, Both(Proved, Located))
  {
    var confirmed := Filter(kept, Proved);
    ConfirmConserves(kept, confirmed, Filter(kept, Not(Proved)), f);
    FilterTwice(kept, Proved, Located);
    assert f == |confirmed| ==> confirmed[..f] == confirmed;
    StoredAreProved(confirmed, f);
    KeptSomewhere(kept, stored, review);
  }

  lemma ConfirmConserves(kept: seq<Item>, confirmed: seq<Item>, others: seq<Item>, f: nat)
    requires confirmed == Filter(kept, Proved) && others == Filter(kept, Not(Proved)) && f <= |confirmed|
    ensures var unwritten := Filter(confirmed[..f], Not(Located)) + confirmed[f..];
            multiset(Filter(confirmed[..f], Located)) + multiset(others + unwritten) == multiset(kept)
  {
    FilterSplits(kept, Proved);
    AutoConfirmLosesNothing(confirmed, f);
  }

  lemma StoredAreProved(confirmed: seq<Item>, f: nat)
    requires f <= |confirmed| && forall c :: c in confirmed ==> Proved(c)
    ensures forall c :: c in Filter(confirmed[..f], Located) ==> Proved(c) && Located(c)
  {}

  lemma KeptSomewhere(kept: seq<Item>, stored: seq<Item>, review: seq<Item>)
    requires multiset(stored) + multiset(review) == multiset(kept)
    ensures forall c :: c in kept ==> c in stored || c in review
  {
    forall c | c in kept ensures c in stored || c in review {
      assert c in multiset(kept);
    }
  }

  // ---------- scope, baseline and suppression ----------

  type Changed = map<string, set<int>>

  predicate OnChangedLine(c: Item, changed: Changed) {
    c.target.file in changed
    && (c.target.line in changed[c.target.file] || (c.sourceLine > 0 && c.sourceLine in changed[c.target.file]))
  }

  /** The fingerprint payload; `source` reads the trimmed statement of a line. */
  function Payload(rule: string, file: string, functionName: string, line: int, statement: string): string {
    WriteBatch.RuleId(rule) + NUL + (file + NUL + (functionName + NUL + (Itoa(line) + NUL + statement)))
  }

  function PayloadOf(rule: string, t: Target, source: (string, int) -> string): string {
    Payload(rule, t.file, t.functionName, t.line, source(t.file, t.line))
  }

  function InScope(changed: Changed): Item -> bool { (c: Item) => OnChangedLine(c, changed) }

  function IsNew(baseline: set<string>, rule: string, source: (string, int) -> string,
                 hash: string -> string): Item -> bool {
    (c: Item) => hash(PayloadOf(rule, c.target, source)) !in baseline
  }

  predicate Never(c: Item) { false }

  method ScopeToDiffLines(items: seq<Item>, changed: Changed) returns (kept: seq<Item>)
    ensures kept == Filter(items, InScope(changed))
  {
    kept := [];
    for i := 0 to |items|
      invariant kept == Filter(items[..i], InScope(changed))
    {
      FilterNext(items, i, InScope(changed));
      if OnChangedLine(items[i], changed) {
        kept := kept + [items[i]];
      }
    }
    assert items[..|items|] == items;
  }

  /** Drops what the baseline holds and counts it; `hash` is SHA-256. */
  method FilterByBaseline(items: seq<Item>, baseline: set<string>, rule: string, source: (string, int) -> string,
                          hash: string -> string)
    returns (kept: seq<Item>, existing: nat)
    ensures kept == Filter(items, IsNew(baseline, rule, source, hash))
    ensures |kept| + existing == |items|
  {
    kept, existing := [], 0;
    for i := 0 to |items|
      invariant kept == Filter(items[..i], IsNew(baseline, rule, source, hash))
      invariant |kept| + existing == i
    {
      FilterNext(items, i, IsNew(baseline, rule, source, hash));
      if hash(PayloadOf(rule, items[i].target, source)) in baseline {
        existing := existing + 1;
      } else {
        kept := kept + [items[i]];
      }
    }
    assert items[..|items|] == items;
  }

  /** Suppressed or known to the scan baseline: dropped and counted. */
  method FilterSuppressed(items: seq<Item>, suppressed: Item -> bool, existing: Item -> bool)
    returns (kept: seq<Item>, suppressedCount: nat, existingCount: nat)
    ensures kept == Filter(items, Both(Not(suppressed), Not(existing)))
    ensures |kept| + suppressedCount + existingCount == |items|
  {
    kept, suppressedCount, existingCount := [], 0, 0;
    for i := 0 to |items|
      invariant kept == Filter(items[..i], Both(Not(suppressed), Not(existing)))
      invariant |kept| + suppressedCount + existingCount == i
    {
      FilterNext(items, i, Both(Not(suppressed), Not(existing)));
      if suppressed(items[i]) {
        suppressedCount := suppressedCount + 1;
      } else if existing(items[i]) {
        existingCount := existingCount + 1;
      } else {
        kept := kept + [items[i]];
      }
    }
    assert items[..|items|] == items;
  }

  /** One type of an incremental review, from the planned candidates to the store and the review
      list: each candidate on a changed line, new and not suppressed is in exactly one of them. */
  method ReviewType(
    planned: seq<Item>, changed: Changed, baseline: set<string>, rule: string, source: (string, int) -> string,
    hash: string -> string, suppressed: Item -> bool, fails: nat -> bool)
    returns (stored: seq<Item>, review: seq<Item>)
    ensures multiset(stored) + multiset(review)
         == multiset(Filter(planned,
                            Both(Both(InScope(changed), IsNew(baseline, rule, source, hash)), Not(suppressed))))
    ensures forall c :: c in stored ==> Proved(c) && Located(c)
  {
    var scoped := ScopeToDiffLines(planned, changed);
    var newOnes, existing := FilterByBaseline(scoped, baseline, rule, source, hash);
    var kept, s, e := FilterSuppressed(newOnes, suppressed, Never);
    var degraded;
    stored, review, degraded := ConfirmOrReview(kept, fails);
    ReviewedItems(planned, InScope(changed), IsNew(baseline, rule, source, hash), suppressed);
  }

  /** The three filters of a review, one after the other, keep what passes all of them. */
  lemma ReviewedItems(planned: seq<Item>, inScope: Item -> bool, isNew: Item -> bool, suppressed: Item -> bool)
    ensures Filter(Filter(Filter(planned, inScope), isNew), Both(Not(suppressed), Not(Never)))
         == Filter(planned, Both(Both(inScope, isNew), Not(suppressed)))
  {
    var newOnes := Filter(planned, Both(inScope, isNew));
    FilterTwice(planned, inScope, isNew);
    FilterSame(newOnes, Both(Not(suppressed), Not(Never)), Not(suppressed));
    FilterTwice(planned, Both(inScope, isNew), Not(suppressed));
  }

  // ---------- keys ----------

  predicate PlainTarget(t: Target) { '\0' !in t.file && '\0' !in t.functionName }

  /** The payload determines the normalised rule, the file, function and line, and the statement,
      when rule, file and function hold no NUL. */
  lemma PayloadsAreFaithful(r: string, t: Target, x: string, s: string, u: Target, y: string)
    requires '\0' !in WriteBatch.RuleId(r) && '\0' !in WriteBatch.RuleId(s) && PlainTarget(t) && PlainTarget(u)
    ensures Payload(r, t.file, t.functionName, t.line, x) == Payload(s, u.file, u.functionName, u.line, y) <==>
            WriteBatch.RuleId(r) == WriteBatch.RuleId(s) && t.(variable := u.variable) == u && x == y
  {
    var t2, u2 := Itoa(t.line) + NUL + x, Itoa(u.line) + NUL + y;
    var t1, u1 := t.functionName + NUL + t2, u.functionName + NUL + u2;
    FirstField(WriteBatch.RuleId(r), t.file + NUL + t1, WriteBatch.RuleId(s), u.file + NUL + u1);
    FirstField(t.file, t1, u.file, u1);
    FirstField(t.functionName, t2, u.functionName, u2);
    FirstField(Itoa(t.line), x, Itoa(u.line), y);
    ItoaIsUnique(t.line, u.line);
  }

  /** A finding recorded earlier, with the statement its line had then. */
  datatype Earlier = Earlier(rule: string, target: Target, statement: string)

  function EarlierPayload(e: Earlier): string {
    Payload(e.rule, e.target.file, e.target.functionName, e.target.line, e.statement)
  }

  ghost predicate BaselineOf(baseline: set<string>, findings: seq<Earlier>, hash: string -> string) {
    forall h :: h in baseline <==> exists e :: e in findings && h == hash(EarlierPayload(e))
  }

  ghost predicate Injective(hash: string -> string) { forall a, b :: hash(a) == hash(b) ==> a == b }

  /** The same rule, file, function, line and statement; the variable plays no part. */
  predicate SameDefect(e: Earlier, rule: string, t: Target, statement: string) {
    && WriteBatch.RuleId(e.rule) == WriteBatch.RuleId(rule)
    && t.(variable := e.target.variable) == e.target && e.statement == statement
  }

  /** Without a hash collision a candidate is dropped as known exactly when an earlier finding is the
      same defect. */
  lemma BaselineHitMeansSameDefect(
    c: Item, rule: string, source: (string, int) -> string, hash: string -> string, baseline: set<string>,
    findings: seq<Earlier>)
    requires Injective(hash) && BaselineOf(baseline, findings, hash)
    requires '\0' !in WriteBatch.RuleId(rule) && PlainTarget(c.target)
    requires forall e :: e in findings ==> '\0' !in WriteBatch.RuleId(e.rule) && PlainTarget(e.target)
    ensures hash(PayloadOf(rule, c.target, source)) in baseline <==>
            exists e :: e in findings && SameDefect(e, rule, c.target, source(c.target.file, c.target.line))
  {
    var t, statement := c.target, source(c.target.file, c.target.line);
    forall e | e in findings
      ensures hash(EarlierPayload(e)) == hash(PayloadOf(rule, t, source)) <==> SameDefect(e, rule, t, statement)
    {
      PayloadsAreFaithful(e.rule, e.target, e.statement, rule, t, statement);
    }
  }

  function LocationKey(t: Target): string { t.file + NUL + (Itoa(t.line) + NUL + t.variable) }

  datatype Place = Place(file: string, line: int, variable: string)

  function PlaceOf(t: Target): Place { Place(t.file, t.line, t.variable) }

  lemma LocationKeysAreFaithful(t: Target, u: Target)
    requires '\0' !in t.file && '\0' !in u.file
    ensures LocationKey(t) == LocationKey(u) <==> PlaceOf(t) == PlaceOf(u)
  {
    FirstField(t.file, Itoa(t.line) + NUL + t.variable, u.file, Itoa(u.line) + NUL + u.variable);
    FirstField(Itoa(t.line), t.variable, Itoa(u.line), u.variable);
    ItoaIsUnique(t.line, u.line);
  }

  /** With NUL in a file name two places can share a key. */
  lemma NulInAFileNameMergesPlaces(file: string, line: int, other: int, variable: string)
    ensures var t := Target(file, line, "", Itoa(other) + NUL + variable);
            var u := Target(file + NUL + Itoa(line), other, "", variable);
            LocationKey(t) == LocationKey(u) && PlaceOf(t) != PlaceOf(u)
  {
    var t := Target(file, line, "", Itoa(other) + NUL + variable);
    var u := Target(file + NUL + Itoa(line), other, "", variable);
    assert LocationKey(t) == LocationKey(u);
    assert |u.file| > |t.file|;
  }

  ghost function Places(items: seq<Item>): set<Place> { set c | c in items :: PlaceOf(c.target) }

  ghost function LocationKeys(items: seq<Item>): set<string> {
    if items == [] then {} else LocationKeys(items[..|items| - 1]) + {LocationKey(items[|items| - 1].target)}
  }

  ghost predicate PlainFiles(items: seq<Item>) { forall c :: c in items ==> '\0' !in c.target.file }

  lemma {:induction false} KeysOfPlaces(items: seq<Item>, t: Target)
    requires PlainFiles(items) && '\0' !in t.file
    ensures LocationKey(t) in LocationKeys(items) <==> PlaceOf(t) in Places(items)
    decreases |items|
  {
    if items != [] {
      var init, last := items[..|items| - 1], items[|items| - 1];
      assert items == init + [last] && last in items;
      PlacesMore(init, last);
      KeysOfPlaces(init, t);
      LocationKeysAreFaithful(t, last.target);
    }
  }

  lemma PlacesMore(items: seq<Item>, c: Item)
    ensures Places(items + [c]) == Places(items) + {PlaceOf(c.target)}
  {}

  lemma AddOne<T>(s: set<T>, x: T)
    ensures |s + {x}| == |s| + if x in s then 0 else 1
  {
    if x in s {
      assert s + {x} == s;
    }
  }

  lemma {:induction false} AsManyKeysAsPlaces(items: seq<Item>)
    requires PlainFiles(items)
    ensures |LocationKeys(items)| == |Places(items)|
    decreases |items|
  {
    if items != [] {
      var init, last := items[..|items| - 1], items[|items| - 1];
      assert items == init + [last] && last in items;
      PlacesMore(init, last);
      AsManyKeysAsPlaces(init);
      KeysOfPlaces(init, last.target);
      AddOne(LocationKeys(init), LocationKey(last.target));
      AddOne(Places(init), PlaceOf(last.target));
    }
  }

  /** distinctFindingLocations */
  method CountLocations(items: seq<Item>) returns (n: nat)
    ensures n == |LocationKeys(items)|
    ensures PlainFiles(items) ==> n == |Places(items)|
  {
    var seen: set<string> := {};
    for i := 0 to |items|
      invariant seen == LocationKeys(items[..i])
    {
      assert items[..i + 1][..i] == items[..i];
      seen := seen + {LocationKey(items[i].target)};
    }
    assert items[..|items|] == items;
    if PlainFiles(items) {
      AsManyKeysAsPlaces(items);
    }
    return |seen|;
  }

  /** The store after upserting the candidates as findings of one scan and one rule. */
  function UpsertAll(items: seq<Item>, scan: string, rule: string, rows: WriteBatch.Rows, id: nat): WriteBatch.Rows
    decreases |items|
  {
    if items == [] then rows
    else
      var t := items[0].target;
      var f := WriteBatch.Finding(WriteBatch.Key(scan, rule, t.file, t.line, t.variable), t.functionName,
                                  items[0].details);
      UpsertAll(items[1..], scan, rule, WriteBatch.Upsert(rows, id, f), id + 1)
  }

  ghost function KeysFor(places: set<Place>, scan: string, rule: string): set<WriteBatch.Key> {
    set p | p in places :: WriteBatch.Key(scan, rule, p.file, p.line, p.variable)
  }

  lemma KeysForMore(places: set<Place>, p: Place, scan: string, rule: string)
    ensures KeysFor({p} + places, scan, rule) ==
        {WriteBatch.Key(scan, rule, p.file, p.line, p.variable)} + KeysFor(places, scan, rule)
  {}

  lemma PlacesFirst(items: seq<Item>)
    requires items != []
    ensures Places(items) == {PlaceOf(items[0].target)} + Places(items[1..])
  {
    assert items == [items[0]] + items[1..];
  }

  lemma {:induction false} UpsertedKeys(items: seq<Item>, scan: string, rule: string, rows: WriteBatch.Rows, id: nat)
    ensures UpsertAll(items, scan, rule, rows, id).Keys == rows.Keys + KeysFor(Places(items), scan, rule)
    decreases |items|
  {
    if items != [] {
      var t := items[0].target;
      var k := WriteBatch.Key(scan, rule, t.file, t.line, t.variable);
      var next := WriteBatch.Upsert(rows, id, WriteBatch.Finding(k, t.functionName, items[0].details));
      UpsertedKeys(items[1..], scan, rule, next, id + 1);
      PlacesFirst(items);
      KeysForMore(Places(items[1..]), PlaceOf(t), scan, rule);
      assert next.Keys == rows.Keys + {k};
    }
  }

  /** The number of distinct locations is the number of rows that writing the candidates under one
      rule creates. */
  lemma LocationsAreRows(items: seq<Item>, scan: string, rule: string)
    ensures |UpsertAll(items, scan, rule, map[], 1)| == |Places(items)|
  {
    UpsertedKeys(items, scan, rule, map[], 1);
    var rows := UpsertAll(items, scan, rule, map[], 1);
    assert |rows| == |rows.Keys|;
    KeysPerPlace(Places(items), scan, rule);
  }

  lemma {:induction false} KeysPerPlace(places: set<Place>, scan: string, rule: string)
    ensures |KeysFor(places, scan, rule)| == |places|
  {
    if places != {} {
      var q :| q in places;
      KeysPerPlace(places - {q}, scan, rule);
      KeysForMore(places - {q}, q, scan, rule);
      assert {q} + (places - {q}) == places;
    }
  }
}
