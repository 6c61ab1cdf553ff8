/** Keeping the first item for each key: one pass over a list with the set of the keys seen. */
module FirstPerKey {

  ghost predicate HasKey<T>(keys: T -> seq<string>, x: T, k: string) {
    k in keys(x)
  }

  ghost function Mark<T>(keys: T -> seq<string>, x: T, seen: set<string>): (more: set<string>)
    ensures forall k :: k in more <==> k in seen || HasKey(keys, x, k)
  {
    seen + set k | k in keys(x)
  }

  ghost predicate NothingNew<T>(keys: T -> seq<string>, x: T, seen: set<string>) {
    forall k :: HasKey(keys, x, k) ==> k in seen
  }

  /** Keeps an item when one of its keys has not been seen. */
  ghost function Compact<T>(xs: seq<T>, keys: T -> seq<string>, seen: set<string>): seq<T> {
    if xs == [] then []
    else if NothingNew(keys, xs[0], seen) then Compact(xs[1..], keys, seen)
    else [xs[0]] + Compact(xs[1..], keys, Mark(keys, xs[0], seen))
  }

  lemma CompactStep<T>(xs: seq<T>, i: nat, keys: T -> seq<string>, seen: set<string>)
    requires i < |xs|
    ensures Compact(xs[i..], keys, seen) ==
            if NothingNew(keys, xs[i], seen) then Compact(xs[i + 1..], keys, seen)
            else [xs[i]] + Compact(xs[i + 1..], keys, Mark(keys, xs[i], seen))
  {
    assert xs[i..][0] == xs[i] && xs[i..][1..] == xs[i + 1..];
  }

  // ---------- the loops ----------

  method HasNewKey<T>(keys: T -> seq<string>, x: T, seen: set<string>) returns (isNew: bool)
    ensures isNew <==> !NothingNew(keys, x, seen)
  {
    var ks := keys(x);
    isNew := false;
    for i := 0 to |ks|
      invariant isNew <==> exists j :: 0 <= j < i && ks[j] !in seen
    {
      if ks[i] !in seen {
        isNew := true;
      }
    }
    assert forall j :: 0 <= j < |ks| ==> HasKey(keys, x, ks[j]);
  }

  method MarkKeys<T>(keys: T -> seq<string>, x: T, seen: set<string>) returns (more: set<string>)
    ensures more == Mark(keys, x, seen)
  {
    var ks := keys(x);
    more := seen;
    for i := 0 to |ks|
      invariant forall k :: k in more <==> k in seen || k in ks[..i]
    {
      assert ks[..i + 1] == ks[..i] + [ks[i]];
      more := more + {ks[i]};
    }
    assert ks[..|ks|] == ks;
    assert forall k :: k in ks <==> HasKey(keys, x, k);
  }

  /** What is kept so far, with what items i and later will add. */
  ghost predicate Track<T>(kept: seq<T>, xs: seq<T>, i: nat, keys: T -> seq<string>, seen: set<string>)
    requires i <= |xs|
  {
    kept + Compact(xs[i..], keys, seen) == Compact(xs, keys, {})
  }

  lemma TrackStep<T>(kept: seq<T>, xs: seq<T>, i: nat, keys: T -> seq<string>, seen: set<string>)
    requires i < |xs| && Track(kept, xs, i, keys, seen)
    ensures NothingNew(keys, xs[i], seen) ==> Track(kept, xs, i + 1, keys, seen)
    ensures !NothingNew(keys, xs[i], seen) ==> Track(kept + [xs[i]], xs, i + 1, keys, Mark(keys, xs[i], seen))
  {
    CompactStep(xs, i, keys, seen);
  }

  lemma TrackEnds<T>(kept: seq<T>, xs: seq<T>, keys: T -> seq<string>, seen: set<string>)
    ensures Track([], xs, 0, keys, {})
    ensures Track(kept, xs, |xs|, keys, seen) ==> kept == Compact(xs, keys, {})
  {
    assert xs[0..] == xs && xs[|xs|..] == [] && kept + [] == kept;
  }

  /** The compaction writes into the prefix of the slice it reads. */
  method CompactInPlace<T>(xs: array<T>, keys: T -> seq<string>) returns (n: nat)
    modifies xs
    ensures n <= xs.Length
    ensures xs[..n] == Compact(old(xs[..]), keys, {})
  {
    var seen: set<string> := {};
    n := 0;
    ghost var was := xs[..];
    TrackEnds([], was, keys, {});
    var i := 0;
    while i < xs.Length
      invariant n <= i <= xs.Length
      invariant forall j :: i <= j < xs.Length ==> xs[j] == was[j]
      invariant Track(xs[..n], was, i, keys, seen)
    {
      var x := xs[i];
      TrackStep(xs[..n], was, i, keys, seen);
      var isNew := HasNewKey(keys, x, seen);
      if isNew {
        seen := MarkKeys(keys, x, seen);
        ghost var kept := xs[..n];
        xs[n] := x;
        assert xs[..n + 1] == kept + [x];
        n := n + 1;
      }
      i := i + 1;
    }
    TrackEnds(xs[..n], was, keys, seen);
  }

  // ---------- what is kept ----------

  /** Item i has a key that neither `seen` nor an earlier item has. */
  ghost predicate OpensKey<T>(xs: seq<T>, keys: T -> seq<string>, i: nat, seen: set<string>, k: string)
    requires i < |xs|
  {
    HasKey(keys, xs[i], k) && k !in seen && forall j :: 0 <= j < i ==> !HasKey(keys, xs[j], k)
  }

  lemma OpensKeyLater<T>(xs: seq<T>, keys: T -> seq<string>, i: nat, seen: set<string>, more: set<string>, k: string)
    requires 0 < i < |xs|
    requires more == if NothingNew(keys, xs[0], seen) then seen else Mark(keys, xs[0], seen)
    ensures OpensKey(xs, keys, i, seen, k) <==> OpensKey(xs[1..], keys, i - 1, more, k)
  {
    var rest := xs[1..];
    assert forall j :: 0 <= j < i - 1 ==> rest[j] == xs[j + 1];
    if OpensKey(rest, keys, i - 1, more, k) {
      forall j | 0 <= j < i ensures !HasKey(keys, xs[j], k) {
        assert j > 0 ==> !HasKey(keys, rest[j - 1], k);
      }
    }
  }

  lemma {:induction false} OpenersAreKept<T>(xs: seq<T>, keys: T -> seq<string>, seen: set<string>, i: nat, k: string)
    requires i < |xs| && OpensKey(xs, keys, i, seen, k)
    ensures xs[i] in Compact(xs, keys, seen)
    decreases |xs|
  {
    if i > 0 {
      var more := if NothingNew(keys, xs[0], seen) then seen else Mark(keys, xs[0], seen);
      OpensKeyLater(xs, keys, i, seen, more, k);
      OpenersAreKept(xs[1..], keys, more, i - 1, k);
    }
  }

  lemma {:induction false} KeptOpenAKey<T>(xs: seq<T>, keys: T -> seq<string>, seen: set<string>, r: T)
    returns (i: nat, k: string)
    requires r in Compact(xs, keys, seen)
    ensures i < |xs| && xs[i] == r && OpensKey(xs, keys, i, seen, k)
    decreases |xs|
  {
    if !NothingNew(keys, xs[0], seen) && r == xs[0] {
      i := 0;
      k :| HasKey(keys, r, k) && k !in seen;
    } else {
      var more := if NothingNew(keys, xs[0], seen) then seen else Mark(keys, xs[0], seen);
      i, k := KeptOpenAKey(xs[1..], keys, more, r);
      OpensKeyLater(xs, keys, i + 1, seen, more, k);
      i := i + 1;
    }
  }

  /** The first item in a list with a key that some item has. */
  lemma {:induction false} FirstWithKey<T>(xs: seq<T>, keys: T -> seq<string>, k: string, r: T) returns (i: nat)
    requires r in xs && HasKey(keys, r, k)
    ensures i < |xs| && OpensKey(xs, keys, i, {}, k)
    decreases |xs|
  {
    if HasKey(keys, xs[0], k) {
      i := 0;
    } else {
      i := FirstWithKey(xs[1..], keys, k, r);
      assert forall j :: 0 < j <= i ==> xs[j] == xs[1..][j - 1];
      i := i + 1;
    }
  }

  // ---------- the kept positions ----------

  ghost predicate Opens<T>(xs: seq<T>, keys: T -> seq<string>, i: nat, seen: set<string>)
    requires i < |xs|
  {
    exists k :: OpensKey(xs, keys, i, seen, k)
  }

  lemma OpensLater<T>(xs: seq<T>, keys: T -> seq<string>, i: nat, seen: set<string>, more: set<string>)
    requires 0 < i < |xs|
    requires more == if NothingNew(keys, xs[0], seen) then seen else Mark(keys, xs[0], seen)
    ensures Opens(xs, keys, i, seen) <==> Opens(xs[1..], keys, i - 1, more)
  {
    if k :| OpensKey(xs, keys, i, seen, k) {
      OpensKeyLater(xs, keys, i, seen, more, k);
    }
    if Opens(xs[1..], keys, i - 1, more) {
      var rest := xs[1..];
      var k :| OpensKey(rest, keys, i - 1, more, k);
      OpensKeyLater(xs, keys, i, seen, more, k);
    }
  }

  lemma OpensFirst<T>(xs: seq<T>, keys: T -> seq<string>, seen: set<string>)
    requires xs != []
    ensures Opens(xs, keys, 0, seen) <==> !NothingNew(keys, xs[0], seen)
  {
    if !NothingNew(keys, xs[0], seen) {
      var k :| HasKey(keys, xs[0], k) && k !in seen;
      assert OpensKey(xs, keys, 0, seen, k);
    }
  }

  /** `kept` is the items at `positions`, which increase. */
  ghost predicate At<T>(positions: seq<nat>, xs: seq<T>, kept: seq<T>) {
    && |positions| == |kept|
    && (forall m, n :: 0 <= m < n < |positions| ==> positions[m] < positions[n])
    && (forall m :: 0 <= m < |positions| ==> positions[m] < |xs| && kept[m] == xs[positions[m]])
  }

  /** The positions of the kept items are those that open a key. */
  ghost predicate Picks<T>(positions: seq<nat>, xs: seq<T>, keys: T -> seq<string>, seen: set<string>, kept: seq<T>) {
    && At(positions, xs, kept)
    && (forall i :: 0 <= i < |xs| ==> (i in positions <==> Opens(xs, keys, i, seen)))
  }

  function Moved(rest: seq<nat>): (moved: seq<nat>)
    ensures |moved| == |rest| && forall m :: 0 <= m < |rest| ==> moved[m] == rest[m] + 1
  {
    seq(|rest|, m requires 0 <= m < |rest| => rest[m] + 1)
  }

  lemma MovedMember(rest: seq<nat>, i: nat)
    ensures i in Moved(rest) <==> i > 0 && i - 1 in rest
  {
    if i > 0 && i - 1 in rest {
      var m :| 0 <= m < |rest| && rest[m] == i - 1;
      assert Moved(rest)[m] == i;
    }
  }

  lemma DropFirst<T>(rest: seq<nat>, xs: seq<T>, kept: seq<T>)
    requires xs != [] && At(rest, xs[1..], kept)
    ensures At(Moved(rest), xs, kept)
  {}

  lemma KeepFirst<T>(rest: seq<nat>, xs: seq<T>, kept: seq<T>)
    requires xs != [] && At(rest, xs[1..], kept)
    ensures At([0] + Moved(rest), xs, [xs[0]] + kept)
  {}

  lemma {:induction false} KeptInOrder<T>(xs: seq<T>, keys: T -> seq<string>, seen: set<string>)
    returns (positions: seq<nat>)
    ensures Picks(positions, xs, keys, seen, Compact(xs, keys, seen))
    decreases |xs|
  {
    if xs == [] {
      positions := [];
    } else {
      var more := if NothingNew(keys, xs[0], seen) then seen else Mark(keys, xs[0], seen);
      var rest := KeptInOrder(xs[1..], keys, more);
      if NothingNew(keys, xs[0], seen) {
        DropFirst(rest, xs, Compact(xs[1..], keys, more));
        positions := Moved(rest);
      } else {
        KeepFirst(rest, xs, Compact(xs[1..], keys, more));
        positions := [0] + Moved(rest);
      }
      forall i | 0 <= i < |xs| ensures i in positions <==> Opens(xs, keys, i, seen) {
        MovedMember(rest, i);
        if i == 0 {
          OpensFirst(xs, keys, seen);
        } else {
          OpensLater(xs, keys, i, seen, more);
        }
      }
    }
  }

  /** A list whose items all open a key is kept whole. */
  lemma {:induction false} AllOpenersStay<T>(xs: seq<T>, keys: T -> seq<string>, seen: set<string>)
    requires forall i :: 0 <= i < |xs| ==> Opens(xs, keys, i, seen)
    ensures Compact(xs, keys, seen) == xs
    decreases |xs|
  {
    if xs != [] {
      OpensFirst(xs, keys, seen);
      var more := Mark(keys, xs[0], seen);
      assert Opens(xs, keys, 0, seen);
      forall i | 0 <= i < |xs[1..]| ensures Opens(xs[1..], keys, i, more) {
        OpensLater(xs, keys, i + 1, seen, more);
      }
      AllOpenersStay(xs[1..], keys, more);
    }
  }

  /** The first item with a key is kept before any other item with it. */
  lemma KeptStillOpen<T>(xs: seq<T>, keys: T -> seq<string>, kept: seq<T>, positions: seq<nat>, m: nat)
    requires Picks(positions, xs, keys, {}, kept) && m < |kept|
    ensures Opens(kept, keys, m, {})
  {
    assert positions[m] in positions;
    var k :| OpensKey(xs, keys, positions[m], {}, k);
    assert OpensKey(kept, keys, m, {}, k);
  }

  /** Compaction is idempotent. */
  lemma CompactTwice<T>(xs: seq<T>, keys: T -> seq<string>)
    ensures Compact(Compact(xs, keys, {}), keys, {}) == Compact(xs, keys, {})
  {
    var positions := KeptInOrder(xs, keys, {});
    var kept := Compact(xs, keys, {});
    forall m | 0 <= m < |kept| ensures Opens(kept, keys, m, {}) {
      KeptStillOpen(xs, keys, kept, positions, m);
    }
    AllOpenersStay(kept, keys, {});
  }
}
