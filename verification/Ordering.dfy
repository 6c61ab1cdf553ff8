/** Stable sorting, as Go's sort.SliceStable promises it, and the byte order of strings. */
module Ordering {

  /** `less` is a strict weak order: what sort.SliceStable asks of its comparison. */
  ghost predicate WeakOrder<T(!new)>(less: (T, T) -> bool) {
    && (forall a, b :: less(a, b) ==> !less(b, a))
    && (forall a, b, c :: less(a, c) ==> less(a, b) || less(b, c))
  }

  predicate Sorted<T>(xs: seq<T>, less: (T, T) -> bool) {
    forall i, j :: 0 <= i < j < |xs| ==> !less(xs[j], xs[i])
  }

  /** No two different elements are tied. */
  predicate TieFree<T(==)>(xs: seq<T>, less: (T, T) -> bool) {
    forall i, j :: 0 <= i < |xs| && 0 <= j < |xs| ==> xs[i] == xs[j] || less(xs[i], xs[j]) || less(xs[j], xs[i])
  }

  function Insert<T>(x: T, xs: seq<T>, less: (T, T) -> bool): seq<T> {
    if xs == [] || !less(xs[0], x) then [x] + xs else [xs[0]] + Insert(x, xs[1..], less)
  }

  /** The stable sort of a list. */
  function Sort<T>(xs: seq<T>, less: (T, T) -> bool): seq<T> {
    if xs == [] then [] else Insert(xs[0], Sort(xs[1..], less), less)
  }

  lemma {:induction false} InsertContents<T>(x: T, xs: seq<T>, less: (T, T) -> bool)
    ensures multiset(Insert(x, xs, less)) == multiset{x} + multiset(xs)
  {
    if xs != [] {
      assert xs == [xs[0]] + xs[1..];
      InsertContents(x, xs[1..], less);
    }
  }

  lemma {:induction false} SortContents<T>(xs: seq<T>, less: (T, T) -> bool)
    ensures multiset(Sort(xs, less)) == multiset(xs) && |Sort(xs, less)| == |xs|
  {
    if xs != [] {
      assert xs == [xs[0]] + xs[1..];
      SortContents(xs[1..], less);
      InsertContents(xs[0], Sort(xs[1..], less), less);
    }
    assert |multiset(Sort(xs, less))| == |Sort(xs, less)|;
  }

  lemma SortMembers<T>(xs: seq<T>, less: (T, T) -> bool)
    ensures forall x :: x in Sort(xs, less) <==> x in xs
  {
    SortContents(xs, less);
    assert forall x :: x in Sort(xs, less) <==> x in multiset(Sort(xs, less));
    assert forall x :: x in xs <==> x in multiset(xs);
  }

  lemma {:induction false} InsertKeepsSorted<T(!new)>(x: T, xs: seq<T>, less: (T, T) -> bool)
    requires WeakOrder(less) && Sorted(xs, less)
    ensures Sorted(Insert(x, xs, less), less)
  {
    if xs == [] {
    } else if !less(xs[0], x) {
      forall j | 0 <= j < |xs| ensures !less(xs[j], x) {
        assert j == 0 || !less(xs[j], xs[0]);
      }
    } else {
      var rest := Insert(x, xs[1..], less);
      assert forall i, j :: 0 <= i < j < |xs[1..]| ==> xs[1..][i] == xs[i + 1] && xs[1..][j] == xs[j + 1];
      InsertKeepsSorted(x, xs[1..], less);
      InsertContents(x, xs[1..], less);
      forall j | 0 <= j < |rest| ensures !less(rest[j], xs[0]) {
        assert rest[j] in multiset(rest);
        assert rest[j] == x || rest[j] in xs[1..];
      }
    }
  }

  lemma {:induction false} SortIsSorted<T(!new)>(xs: seq<T>, less: (T, T) -> bool)
    requires WeakOrder(less)
    ensures Sorted(Sort(xs, less), less)
  {
    if xs != [] {
      SortIsSorted(xs[1..], less);
      InsertKeepsSorted(xs[0], Sort(xs[1..], less), less);
    }
  }

  /** Two sorted arrangements of the same elements, none of them tied, are the same. */
  lemma {:induction false} OneSortedOrder<T(!new)>(a: seq<T>, b: seq<T>, less: (T, T) -> bool)
    requires WeakOrder(less) && Sorted(a, less) && Sorted(b, less)
    requires multiset(a) == multiset(b) && TieFree(a, less)
    ensures a == b
  {
    if a == [] {
      assert |multiset(b)| == 0;
    } else {
      assert a == [a[0]] + a[1..];
      assert a[0] in multiset(b);
      assert b != [];
      assert b == [b[0]] + b[1..];
      SameFirst(a, b, less);
      TailSorted(a, less);
      TailSorted(b, less);
      assert multiset(a[1..]) == multiset(a) - multiset{a[0]};
      OneSortedOrder(a[1..], b[1..], less);
    }
  }

  lemma TailSorted<T>(a: seq<T>, less: (T, T) -> bool)
    requires a != [] && Sorted(a, less)
    ensures Sorted(a[1..], less) && (TieFree(a, less) ==> TieFree(a[1..], less))
  {
    assert forall i :: 0 <= i < |a[1..]| ==> a[1..][i] == a[i + 1];
  }

  lemma SameFirst<T(!new)>(a: seq<T>, b: seq<T>, less: (T, T) -> bool)
    requires a != [] && b != [] && WeakOrder(less) && Sorted(a, less) && Sorted(b, less)
    requires multiset(a) == multiset(b) && TieFree(a, less)
    ensures a[0] == b[0]
  {
    assert b[0] in multiset(a) && a[0] in multiset(b);
    var i :| 0 <= i < |a| && a[i] == b[0];
    var j :| 0 <= j < |b| && b[j] == a[0];
    assert i == 0 || !less(a[i], a[0]);
    assert j == 0 || !less(b[j], b[0]);
  }

  /** Sorting forgets the order the elements came in. */
  lemma SortForgetsOrder<T(!new)>(xs: seq<T>, ys: seq<T>, less: (T, T) -> bool)
    requires WeakOrder(less) && multiset(xs) == multiset(ys) && TieFree(xs, less)
    ensures Sort(xs, less) == Sort(ys, less)
  {
    SortIsSorted(xs, less);
    SortIsSorted(ys, less);
    SortContents(xs, less);
    SortContents(ys, less);
    SortMembers(xs, less);
    TieFreeMembers(xs, Sort(xs, less), less);
    OneSortedOrder(Sort(xs, less), Sort(ys, less), less);
  }

  lemma TieFreeMembers<T>(xs: seq<T>, ys: seq<T>, less: (T, T) -> bool)
    requires TieFree(xs, less) && forall y :: y in ys ==> y in xs
    ensures TieFree(ys, less)
  {
    forall i, j | 0 <= i < |ys| && 0 <= j < |ys|
      ensures ys[i] == ys[j] || less(ys[i], ys[j]) || less(ys[j], ys[i])
    {
      assert ys[i] in xs && ys[j] in xs;
    }
  }

  lemma {:induction false} SortedStays<T>(xs: seq<T>, less: (T, T) -> bool)
    requires Sorted(xs, less)
    ensures Sort(xs, less) == xs
  {
    if xs != [] {
      TailSorted(xs, less);
      SortedStays(xs[1..], less);
      assert |xs| > 1 ==> !less(xs[1], xs[0]);
    }
  }

  /** Between two different tied elements of a sorted list two neighbours are different and tied. */
  lemma {:induction false} TiedNeighbours<T(!new)>(zs: seq<T>, less: (T, T) -> bool, i: nat, j: nat) returns (k: nat)
    requires WeakOrder(less) && Sorted(zs, less) && i < j < |zs| && zs[i] != zs[j] && !less(zs[i], zs[j])
    ensures k + 1 < |zs| && zs[k] != zs[k + 1] && !less(zs[k], zs[k + 1])
    decreases j - i
  {
    if zs[i] != zs[i + 1] {
      k := i;
      assert i + 1 < j ==> !less(zs[j], zs[i + 1]);
    } else {
      k := TiedNeighbours(zs, less, i + 1, j);
    }
  }

  lemma SwapNeighbours<T(!new)>(zs: seq<T>, less: (T, T) -> bool, k: nat) returns (ys: seq<T>)
    requires WeakOrder(less) && Sorted(zs, less) && k + 1 < |zs| && zs[k] != zs[k + 1] && !less(zs[k], zs[k + 1])
    ensures Sorted(ys, less) && multiset(ys) == multiset(zs) && ys != zs
  {
    ys := zs[k := zs[k + 1]][k + 1 := zs[k]];
    assert ys[k] == zs[k + 1];
  }

  /** A stable sort gives one result for every order of its input if and only if no two different
      elements are tied. */
  lemma OrderForgottenIffTieFree<T(!new)>(xs: seq<T>, less: (T, T) -> bool)
    requires WeakOrder(less)
    ensures (forall ys :: multiset(ys) == multiset(xs) ==> Sort(ys, less) == Sort(xs, less)) <==> TieFree(xs, less)
  {
    if TieFree(xs, less) {
      forall ys | multiset(ys) == multiset(xs) ensures Sort(ys, less) == Sort(xs, less) {
        SortForgetsOrder(xs, ys, less);
      }
    } else {
      var a, b :| a in xs && b in xs && a != b && !less(a, b) && !less(b, a);
      var zs := Sort(xs, less);
      SortIsSorted(xs, less);
      SortContents(xs, less);
      SortMembers(xs, less);
      var i :| 0 <= i < |zs| && zs[i] == a;
      var j :| 0 <= j < |zs| && zs[j] == b;
      var k := TiedNeighbours(zs, less, if i < j then i else j, if i < j then j else i);
      var ys := SwapNeighbours(zs, less, k);
      SortedStays(ys, less);
      assert Sort(ys, less) != Sort(xs, less);
    }
  }

  // ---------- sorting behind a fixed tail ----------

  /** The stable merge of two lists; of tied elements those of the first list come first. */
  function Merge<T>(a: seq<T>, b: seq<T>, less: (T, T) -> bool): seq<T>
    decreases |a| + |b|
  {
    if a == [] then b
    else if b == [] then a
    else if less(b[0], a[0]) then [b[0]] + Merge(a, b[1..], less)
    else [a[0]] + Merge(a[1..], b, less)
  }

  lemma MergeCons<T>(x: T, a: seq<T>, b: seq<T>, less: (T, T) -> bool)
    ensures b != [] && less(b[0], x) ==> Merge([x] + a, b, less) == [b[0]] + Merge([x] + a, b[1..], less)
    ensures b == [] || !less(b[0], x) ==> Merge([x] + a, b, less) == [x] + Merge(a, b, less)
  {
    assert ([x] + a)[1..] == a;
  }

  /** Inserting into a merge is inserting into its first list. */
  lemma {:induction false} InsertMerge<T(!new)>(x: T, a: seq<T>, b: seq<T>, less: (T, T) -> bool)
    requires WeakOrder(less)
    ensures Insert(x, Merge(a, b, less), less) == Merge(Insert(x, a, less), b, less)
    decreases |a| + |b|
  {
    MergeCons(x, a, b, less);
    if a == [] {
      if b != [] && less(b[0], x) {
        InsertMerge(x, [], b[1..], less);
      }
    } else if b != [] && less(b[0], a[0]) {
      if less(b[0], x) {
        InsertMerge(x, a, b[1..], less);
      }
      MergeCons(a[0], Insert(x, a[1..], less), b, less);
    } else if less(a[0], x) {
      InsertMerge(x, a[1..], b, less);
      MergeCons(a[0], Insert(x, a[1..], less), b, less);
    }
  }

  lemma {:induction false} SortOfConcat<T(!new)>(xs: seq<T>, tail: seq<T>, less: (T, T) -> bool)
    requires WeakOrder(less)
    ensures Sort(xs + tail, less) == Merge(Sort(xs, less), Sort(tail, less), less)
  {
    if xs == [] {
      assert xs + tail == tail;
    } else {
      assert (xs + tail)[0] == xs[0] && (xs + tail)[1..] == xs[1..] + tail;
      SortOfConcat(xs[1..], tail, less);
      InsertMerge(xs[0], Sort(xs[1..], less), Sort(tail, less), less);
    }
  }

  /** The elements tied with a, in order. */
  function Ties<T>(xs: seq<T>, a: T, less: (T, T) -> bool): seq<T> {
    if xs == [] then []
    else (if less(a, xs[0]) || less(xs[0], a) then [] else [xs[0]]) + Ties(xs[1..], a, less)
  }

  lemma {:induction false} TiesOfConcat<T>(xs: seq<T>, ys: seq<T>, a: T, less: (T, T) -> bool)
    ensures Ties(xs + ys, a, less) == Ties(xs, a, less) + Ties(ys, a, less)
  {
    if xs == [] {
      assert xs + ys == ys;
    } else {
      assert (xs + ys)[0] == xs[0] && (xs + ys)[1..] == xs[1..] + ys;
      TiesOfConcat(xs[1..], ys, a, less);
    }
  }

  lemma {:induction false} InsertIsStable<T(!new)>(x: T, xs: seq<T>, a: T, less: (T, T) -> bool)
    requires WeakOrder(less)
    ensures Ties(Insert(x, xs, less), a, less) == Ties([x] + xs, a, less)
  {
    assert ([x] + xs)[1..] == xs;
    if xs != [] && less(xs[0], x) {
      InsertIsStable(x, xs[1..], a, less);
      assert ([x] + xs[1..])[1..] == xs[1..];
      assert ([xs[0]] + Insert(x, xs[1..], less))[1..] == Insert(x, xs[1..], less);
    }
  }

  /** Stability: sorting keeps tied elements in their order. */
  lemma {:induction false} SortIsStable<T(!new)>(xs: seq<T>, a: T, less: (T, T) -> bool)
    requires WeakOrder(less)
    ensures Ties(Sort(xs, less), a, less) == Ties(xs, a, less)
  {
    if xs != [] {
      SortIsStable(xs[1..], a, less);
      InsertIsStable(xs[0], Sort(xs[1..], less), a, less);
      TiesOfConcat([xs[0]], Sort(xs[1..], less), a, less);
      TiesOfConcat([xs[0]], xs[1..], a, less);
      assert [xs[0]] + xs[1..] == xs;
    }
  }

  // ---------- strings ----------

  /** Go's `<` on strings. */
  predicate StringLess(a: string, b: string) {
    b != "" && (a == "" || a[0] < b[0] || (a[0] == b[0] && StringLess(a[1..], b[1..])))
  }

  lemma {:induction false} StringLessIsOneWay(a: string, b: string)
    ensures !(StringLess(a, b) && StringLess(b, a))
    ensures a == b || StringLess(a, b) || StringLess(b, a)
    ensures !StringLess(a, a)
    decreases |a|
  {
    if a != "" {
      StringLessIsOneWay(a[1..], a[1..]);
      if b != "" && a[0] == b[0] {
        StringLessIsOneWay(a[1..], b[1..]);
        assert a[1..] == b[1..] ==> a == [a[0]] + a[1..] == b;
      }
    }
  }

  lemma {:induction false} StringLessBetween(a: string, b: string, c: string)
    requires StringLess(a, c)
    ensures StringLess(a, b) || StringLess(b, c)
  {
    if a != "" && b != "" && a[0] == b[0] == c[0] {
      StringLessBetween(a[1..], b[1..], c[1..]);
    }
  }

  lemma StringLessIsWeakOrder()
    ensures WeakOrder(StringLess)
  {
    forall a, b | StringLess(a, b) ensures !StringLess(b, a) {
      StringLessIsOneWay(a, b);
    }
    forall a, b, c | StringLess(a, c) ensures StringLess(a, b) || StringLess(b, c) {
      StringLessBetween(a, b, c);
    }
  }

  lemma StringsTieFree(xs: seq<string>)
    ensures TieFree(xs, StringLess)
  {
    forall i, j | 0 <= i < |xs| &&
        0 <= j < |xs| ensures xs[i] == xs[j] || StringLess(xs[i], xs[j]) || StringLess(xs[j], xs[i]) {
      StringLessIsOneWay(xs[i], xs[j]);
    }
  }
}
