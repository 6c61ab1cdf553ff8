/** Truncation salvage of a --write-json batch (report.go:2020-2094). The JSON decoder of one object
    is an oracle `decode`, so is the strict parse of a whole batch. */
module Salvage {
  import opened Options
  import Text
  import opened BraceScanner
  import opened Json

  datatype Finding = Finding(ruleID: string, status: string, body: string)

  /** strings.TrimSpace(s) == "" */
  predicate Blank(s: string) {
    forall c | c in s :: Text.IsSpace(c)
  }

  type Decoder = seq<byte> -> Option<Finding>

  predicate Usable(f: Finding) {
    !Blank(f.ruleID) && !Blank(f.status)
  }

  /** The finding an object's text is kept as, if any. */
  function Accepted(decode: Decoder, text: seq<byte>): seq<Finding> {
    match decode(text)
    case None => []
    case Some(f) => if Usable(f) then [f] else []
  }

  function Slice(data: seq<byte>, x: Span): seq<byte> {
    if x.start <= x.end <= |data| then data[x.start..x.end] else []
  }

  function Recover(decode: Decoder, data: seq<byte>, spans: seq<Span>): seq<Finding> {
    if spans == [] then [] else Accepted(decode, Slice(data, spans[0])) + Recover(decode, data, spans[1..])
  }

  function Salvaged(decode: Decoder, data: seq<byte>): seq<Finding> {
    Recover(decode, data, Spans(data))
  }

  lemma SpansFit(data: seq<byte>, x: Span)
    requires x in Spans(data)
    ensures x.start < x.end <= |data|
  {
    SpansAreTheMatches(data);
    assert Matches(data, x.start, x.end);
  }

  lemma RecoverStep(decode: Decoder, data: seq<byte>, spans: seq<Span>, n: nat)
    requires n < |spans|
    ensures Recover(decode, data, spans[n..]) ==
        Accepted(decode, Slice(data, spans[n])) + Recover(decode, data, spans[n + 1..])
  {
    assert spans[n..][0] == spans[n] && spans[n..][1..] == spans[n + 1..];
  }

  method DecodeSpan(data: array<byte>, x: Span, decode: Decoder) returns (found: seq<Finding>)
    requires x.start <= x.end <= data.Length
    ensures found == Accepted(decode, Slice(data[..], x))
  {
    var text := data[x.start..x.end];
    assert text == data[..][x.start..x.end];
    var f := decode(text);
    found := if f.Some? && Usable(f.value) then [f.value] else [];
  }

  /** Decodes every span and keeps what is usable. */
  method DecodeSpans(data: array<byte>, spans: seq<Span>, decode: Decoder) returns (out: seq<Finding>)
    requires forall n :: 0 <= n < |spans| ==> spans[n].start <= spans[n].end <= data.Length
    ensures out == Recover(decode, data[..], spans)
  {
    out := [];
    ghost var text := data[..];
    assert spans[0..] == spans;
    var n := 0;
    while n < |spans|
      invariant n <= |spans|
      invariant out + Recover(decode, text, spans[n..]) == Recover(decode, text, spans)
    {
      RecoverStep(decode, text, spans, n);
      var found := DecodeSpan(data, spans[n], decode);
      out := out + found;
      n := n + 1;
    }
    assert spans[n..] == [];
  }

  method SalvageFindingObjects(data: array<byte>, decode: Decoder) returns (out: seq<Finding>)
    ensures out == Salvaged(decode, data[..])
  {
    var spans := BalancedObjects(data);
    forall n | 0 <= n < |spans| ensures spans[n].start <= spans[n].end <= data.Length {
      assert spans[n] in spans;
      SpansFit(data[..], spans[n]);
    }
    out := DecodeSpans(data, spans, decode);
  }

  datatype Strict = Parsed(findings: seq<Finding>, scanID: string) | Rejected(error: string)

  /** parseWriteJSONInput on trimmed input: the strict parse wins, salvage is the fallback. */
  method ParseInput(trimmed: array<byte>, strict: seq<byte> -> Strict, decode: Decoder) returns (r: Strict)
    ensures trimmed.Length == 0 ==> r.Rejected?
    ensures trimmed.Length > 0 && strict(trimmed[..]).Parsed? ==> r == strict(trimmed[..])
    ensures trimmed.Length > 0 && strict(trimmed[..]).Rejected? ==>
              r == if Salvaged(decode, trimmed[..]) == [] then strict(trimmed[..])
                   else Parsed(Salvaged(decode, trimmed[..]), "")
  {
    if trimmed.Length == 0 {
      return Rejected("input is empty");
    }
    r := strict(trimmed[..]);
    if r.Parsed? {
      return r;
    }
    var salvaged := SalvageFindingObjects(trimmed, decode);
    if |salvaged| > 0 {
      return Parsed(salvaged, "");
    }
  }

  // ---------- completeness on a cut batch ----------

  /** The spans that end by k. */
  function Before(spans: seq<Span>, k: nat): seq<Span> {
    if spans == [] then []
    else (if spans[0].end <= k then [spans[0]] else []) + Before(spans[1..], k)
  }

  lemma BeforeFirst(x: Span, rest: seq<Span>, k: nat)
    ensures Before([x] + rest, k) == (if x.end <= k then [x] else []) + Before(rest, k)
  {
    assert ([x] + rest)[1..] == rest;
  }

  lemma {:induction false} BeforeConcat(a: seq<Span>, b: seq<Span>, k: nat)
    ensures Before(a + b, k) == Before(a, k) + Before(b, k)
  {
    if a == [] {
      assert a + b == b;
    } else {
      assert a + b == [a[0]] + (a[1..] + b) && a == [a[0]] + a[1..];
      BeforeConcat(a[1..], b, k);
      BeforeFirst(a[0], a[1..] + b, k);
      BeforeFirst(a[0], a[1..], k);
    }
  }

  lemma {:induction false} BeforeIsPrefix(spans: seq<Span>, k: nat, n: nat)
    requires n <= |spans| && forall m :: 0 <= m < |spans| ==> (m < n <==> spans[m].end <= k)
    ensures Before(spans, k) == spans[..n]
  {
    if spans == [] {
    } else if n == 0 {
      BeforeIsPrefix(spans[1..], k, 0);
    } else {
      BeforeIsPrefix(spans[1..], k, n - 1);
      assert spans[..n] == [spans[0]] + spans[1..][..n - 1];
    }
  }

  lemma {:induction false} RecoverConcat(decode: Decoder, data: seq<byte>, a: seq<Span>, b: seq<Span>)
    ensures Recover(decode, data, a + b) == Recover(decode, data, a) + Recover(decode, data, b)
  {
    if a == [] {
      assert a + b == b;
    } else {
      assert (a + b)[1..] == a[1..] + b;
      RecoverConcat(decode, data, a[1..], b);
    }
  }

  /** What salvage takes from spans complete before byte k. */
  function Found(decode: Decoder, data: seq<byte>, spans: seq<Span>, k: nat): seq<Finding> {
    Recover(decode, data, Before(spans, k))
  }

  lemma FoundConcat(decode: Decoder, data: seq<byte>, a: seq<Span>, b: seq<Span>, k: nat)
    ensures Found(decode, data, a + b, k) == Found(decode, data, a, k) + Found(decode, data, b, k)
  {
    BeforeConcat(a, b, k);
    RecoverConcat(decode, data, Before(a, k), Before(b, k));
  }

  lemma SliceOfCut(data: seq<byte>, k: nat, x: Span)
    requires x.start <= x.end <= k <= |data|
    ensures Slice(data[..k], x) == Slice(data, x)
  {
    var a, b := data[..k][x.start..x.end], data[x.start..x.end];
    assert forall i :: 0 <= i < |a| ==> a[i] == b[i];
  }

  lemma FoundSplits(decode: Decoder, data: seq<byte>, all: seq<Span>, a: seq<Span>, b: seq<Span>, k: nat)
    requires all == a + b
    ensures Found(decode, data, all, k) == Found(decode, data, a, k) + Found(decode, data, b, k)
  {
    FoundConcat(decode, data, a, b, k);
  }

  lemma {:induction false} FoundInCut(decode: Decoder, data: seq<byte>, k: nat, spans: seq<Span>)
    requires k <= |data|
    requires forall x :: x in spans ==> x.start <= x.end
    ensures Recover(decode, data[..k], Before(spans, k)) == Found(decode, data, spans, k)
  {
    if spans != [] {
      assert spans[0] in spans && forall x :: x in spans[1..] ==> x in spans;
      FoundInCut(decode, data, k, spans[1..]);
      if spans[0].end <= k {
        SliceOfCut(data, k, spans[0]);
        assert Before(spans, k)[1..] == Before(spans[1..], k);
      } else {
        assert Before(spans, k) == Before(spans[1..], k);
      }
    }
  }

  /** A row that is an object, ends by byte k and is accepted. */
  function OwnRow(decode: Decoder, v: Value, at: nat, k: nat): seq<Finding> {
    if v.Obj? && at + |Print(v)| <= k then Accepted(decode, Print(v)) else []
  }

  /** The findings of the batch's own rows whose text is complete before byte k. */
  function CompleteRows(decode: Decoder, items: seq<Item>, base: nat, k: nat): seq<Finding>
    decreases |items|
  {
    if items == [] then []
    else
      OwnRow(decode, items[0].value, base + |items[0].before|, k)
      + CompleteRows(decode, items[1..], base + |PrintItem(items[0])| + 1, k)
  }

  /** Objects inside rows: those of a row's members, or of a row that is itself an array. */
  function NestedObjects(items: seq<Item>, base: nat): seq<Span>
    decreases |items|
  {
    if items == [] then []
    else
      var at := base + |items[0].before|;
      (match items[0].value case Obj(_, members) => MemberObjects(members, at + 1) case v => Objects(v, at))
      + NestedObjects(items[1..], base + |PrintItem(items[0])| + 1)
  }

  ghost predicate IsSubsequence<T>(xs: seq<T>, ys: seq<T>) {
    if xs == [] then true
    else if ys == [] then false
    else (xs[0] == ys[0] && IsSubsequence(xs[1..], ys[1..])) || IsSubsequence(xs, ys[1..])
  }

  lemma {:induction false} SubsequencePrepend<T>(a: seq<T>, b: seq<T>, c: seq<T>)
    requires IsSubsequence(a, c)
    ensures IsSubsequence(a, b + c)
  {
    if b == [] {
      assert b + c == c;
    } else {
      assert (b + c)[1..] == b[1..] + c;
      SubsequencePrepend(a, b[1..], c);
    }
  }

  lemma {:induction false} SubsequenceCommon<T>(h: seq<T>, a: seq<T>, c: seq<T>)
    requires IsSubsequence(a, c)
    ensures IsSubsequence(h + a, h + c)
  {
    if h == [] {
      assert h + a == a && h + c == c;
    } else {
      assert (h + a)[1..] == h[1..] + a && (h + c)[1..] == h[1..] + c;
      SubsequenceCommon(h[1..], a, c);
    }
  }

  /** The objects nested in a row; they come before the row itself. */
  function RowNested(v: Value, at: nat): seq<Span> {
    match v case Obj(_, members) => MemberObjects(members, at + 1) case v => Objects(v, at)
  }

  lemma RowFound(decode: Decoder, data: seq<byte>, v: Value, at: nat, k: nat)
    requires at + |Print(v)| <= |data| && data[at..at + |Print(v)|] == Print(v)
    ensures Found(decode, data, Objects(v, at), k)
         == Found(decode, data, RowNested(v, at), k)
            + OwnRow(decode, v, at, k)
  {
    if v.Obj? {
      var row := Span(at, at + |Print(v)|);
      FoundConcat(decode, data, RowNested(v, at), [row], k);
      assert Objects(v, at) == RowNested(v, at) + [row];
      assert [row][1..] == [] && Before([row], k) == (if row.end <= k then [row] else []);
      assert Slice(data, row) == Print(v);
      assert Recover(decode, data, [row]) == Accepted(decode, Print(v)) + [] == Accepted(decode, Print(v));
    }
  }

  lemma MiddleText(data: seq<byte>, base: nat, pre: seq<byte>, mid: seq<byte>, post: seq<byte>)
    requires base + |pre| + |mid| + |post| <= |data|
    requires data[base..base + |pre| + |mid| + |post|] == pre + mid + post
    ensures data[base + |pre|..base + |pre| + |mid|] == mid
  {
    var whole := pre + mid + post;
    forall i | 0 <= i < |mid| ensures data[base + |pre| + i] == mid[i] {
      assert data[base..base + |whole|][|pre| + i] == whole[|pre| + i];
    }
  }

  /** What follows the first element in a printed list. */
  function Tail(items: seq<Item>): seq<byte>
    requires items != []
  {
    if |items| == 1 then [] else COMMA + PrintItems(items[1..])
  }

  lemma ItemShape(it: Item)
    ensures PrintItem(it) == it.before + Print(it.value) + it.after
  {}

  lemma ItemsUnfold(items: seq<Item>)
    requires items != []
    ensures PrintItems(items) == PrintItem(items[0]) + Tail(items)
  {}

  lemma ItemsShape(items: seq<Item>)
    requires items != []
    ensures var it := items[0];
            PrintItems(items) == it.before + Print(it.value) + (it.after + Tail(items))
    ensures |items| > 1 ==> PrintItems(items) == (PrintItem(items[0]) + COMMA) + PrintItems(items[1..]) + []
  {
    ItemsUnfold(items);
    ItemShape(items[0]);
    Regroup(items[0].before, Print(items[0].value), items[0].after, Tail(items));
    if |items| > 1 {
      Regroup(PrintItem(items[0]), COMMA, PrintItems(items[1..]), []);
      Regroup([], PrintItem(items[0]), COMMA, PrintItems(items[1..]));
    }
  }

  lemma Regroup<T>(a: seq<T>, b: seq<T>, c: seq<T>, d: seq<T>)
    ensures (a + b + c) + d == a + b + (c + d)
    ensures a + (b + c) == a + b + c && a + b + c + [] == a + b + c
  {}

  /** The text of the list starts at `base`. */
  ghost predicate Holds(data: seq<byte>, items: seq<Item>, base: nat) {
    base + |PrintItems(items)| <= |data| && data[base..base + |PrintItems(items)|] == PrintItems(items)
  }

  /** Where the first row of a printed list lies. */
  lemma RowText(data: seq<byte>, items: seq<Item>, base: nat)
    requires items != [] && Holds(data, items, base)
    ensures var at := base + |items[0].before|;
            at + |Print(items[0].value)| <= |data| && data[at..at + |Print(items[0].value)|] == Print(items[0].value)
  {
    var it := items[0];
    ItemsShape(items);
    MiddleText(data, base, it.before, Print(it.value), it.after + Tail(items));
  }

  /** The rest of the list follows after a comma. */
  lemma RestText(data: seq<byte>, items: seq<Item>, base: nat)
    requires |items| > 1 && Holds(data, items, base)
    ensures Holds(data, items[1..], base + |PrintItem(items[0])| + 1)
  {
    ItemsShape(items);
    MiddleText(data, base, PrintItem(items[0]) + COMMA, PrintItems(items[1..]), []);
  }

  lemma CombineRows<T>(inner: seq<T>, own: seq<T>, rows: seq<T>, all: seq<T>, nested: seq<T>)
    requires IsSubsequence(rows, all) && |all| == |rows| + |nested| && (nested == [] ==> all == rows)
    ensures IsSubsequence(own + rows, inner + own + all)
    ensures |inner + own + all| == |own + rows| + |inner + nested|
    ensures inner + nested == [] ==> inner + own + all == own + rows
  {
    SubsequenceCommon(own, rows, all);
    SubsequencePrepend(own + rows, inner, own + all);
    assert inner + own + all == inner + (own + all);
    if inner + nested == [] {
      assert inner == [] && nested == [];
    }
  }

  ghost predicate Accounted(rows: seq<Finding>, all: seq<Finding>, nested: seq<Finding>) {
    IsSubsequence(rows, all) && |all| == |rows| + |nested| && (nested == [] ==> all == rows)
  }

  /** What is recovered from a list of rows that starts at `base`, against its own complete rows. */
  ghost predicate RowsAccounted(decode: Decoder, data: seq<byte>, items: seq<Item>, base: nat, k: nat) {
    Accounted(CompleteRows(decode, items, base, k),
              Found(decode, data, ItemObjects(items, base), k),
              Found(decode, data, NestedObjects(items, base), k))
  }

  /** Row by row: what salvage recovers is the row itself, if complete and accepted, after whatever
      objects nested in it are complete and accepted. */
  lemma {:induction false} RowsOfCutBatch(decode: Decoder, data: seq<byte>, items: seq<Item>, base: nat, k: nat)
    requires items != [] && Holds(data, items, base)
    ensures RowsAccounted(decode, data, items, base, k)
    decreases |items|
  {
    var next := base + |PrintItem(items[0])| + 1;
    if |items| == 1 {
      NoRows(decode, data, items[1..], next, k);
    } else {
      RestText(data, items, base);
      RowsOfCutBatch(decode, data, items[1..], next, k);
    }
    OneMoreRow(decode, data, items, base, next, k);
  }

  /** What the first row adds to what is found in the others. */
  lemma FirstRowFound(decode: Decoder, data: seq<byte>, items: seq<Item>, base: nat, next: nat, k: nat, v: Value,
                      at: nat)
    requires items != [] && Holds(data, items, base) && next == base + |PrintItem(items[0])| + 1
    requires v == items[0].value && at == base + |items[0].before|
    ensures Found(decode, data, ItemObjects(items, base), k)
         == Found(decode, data, RowNested(v, at), k) + OwnRow(decode, v, at, k) +
           Found(decode, data, ItemObjects(items[1..], next), k)
  {
    RowText(data, items, base);
    RowFound(decode, data, v, at, k);
    ItemSpans(items, base, at, next);
    FoundSplits(decode, data, ItemObjects(items, base), Objects(v, at), ItemObjects(items[1..], next), k);
  }

  lemma FirstRowNested(decode: Decoder, data: seq<byte>, items: seq<Item>, base: nat, next: nat, k: nat, v: Value,
                       at: nat)
    requires items != [] && next == base + |PrintItem(items[0])| + 1
    requires v == items[0].value && at == base + |items[0].before|
    ensures Found(decode, data, NestedObjects(items, base), k)
         == Found(decode, data, RowNested(v, at), k) + Found(decode, data, NestedObjects(items[1..], next), k)
  {
    NestedSpans(items, base, at, next);
    FoundSplits(decode, data, NestedObjects(items, base), RowNested(v, at), NestedObjects(items[1..], next), k);
  }

  lemma OneMoreRow(decode: Decoder, data: seq<byte>, items: seq<Item>, base: nat, next: nat, k: nat)
    requires items != [] && Holds(data, items, base) && next == base + |PrintItem(items[0])| + 1
    requires RowsAccounted(decode, data, items[1..], next, k)
    ensures RowsAccounted(decode, data, items, base, k)
  {
    var v, at := items[0].value, base + |items[0].before|;
    FirstRowFound(decode, data, items, base, next, k, v, at);
    FirstRowNested(decode, data, items, base, next, k, v, at);
    RowsUnfold(decode, items, base, k);
    CombineAccounts(Found(decode, data, RowNested(v, at), k), OwnRow(decode, v, at, k),
                    CompleteRows(decode, items[1..], next, k),
                    Found(decode, data, ItemObjects(items[1..], next), k),
                    Found(decode, data, NestedObjects(items[1..], next), k),
                    CompleteRows(decode, items, base, k), Found(decode, data, ItemObjects(items, base), k),
                    Found(decode, data, NestedObjects(items, base), k));
  }

  lemma CombineAccounts(inner: seq<Finding>, own: seq<Finding>, rows: seq<Finding>, all: seq<Finding>,
                        nested: seq<Finding>,
                        moreRows: seq<Finding>, more: seq<Finding>, moreNested: seq<Finding>)
    requires Accounted(rows, all, nested)
    requires moreRows == own + rows && more == inner + own + all && moreNested == inner + nested
    ensures Accounted(moreRows, more, moreNested)
  {
    CombineRows(inner, own, rows, all, nested);
  }

  lemma NoRows(decode: Decoder, data: seq<byte>, items: seq<Item>, base: nat, k: nat)
    requires items == []
    ensures RowsAccounted(decode, data, items, base, k)
  {}

  lemma RowsUnfold(decode: Decoder, items: seq<Item>, base: nat, k: nat)
    requires items != []
    ensures var at, next := base + |items[0].before|, base + |PrintItem(items[0])| + 1;
            && CompleteRows(decode, items, base, k) ==
              OwnRow(decode, items[0].value, at, k) + CompleteRows(decode, items[1..], next, k)
            && ItemObjects(items, base) == Objects(items[0].value, at) + ItemObjects(items[1..], next)
            && NestedObjects(items, base) == RowNested(items[0].value, at) + NestedObjects(items[1..], next)
  {}

  /** Salvage completeness. A batch of any rows, cut at any byte: salvage yields every complete
      accepted row, in order, and nothing else if and only if no object nested in a row was itself
      complete and accepted. */
  lemma CutBatchIsRecovered(decode: Decoder, blank: seq<byte>, items: seq<Item>, k: nat)
    requires Valid(Arr(blank, items)) && items != [] && k <= |Print(Arr(blank, items))|
    ensures var text := Print(Arr(blank, items));
            var got := Salvaged(decode, text[..k]);
            var rows := CompleteRows(decode, items, 1, k);
            var nested := Found(decode, text, NestedObjects(items, 1), k);
            && IsSubsequence(rows, got)
            && |got| == |rows| + |nested|
            && (got == rows <==> nested == [])
  {
    var v := Arr(blank, items);
    var text := Print(v);
    BatchText(blank, items);
    assert Holds(text, items, 1);
    RowsOfCutBatch(decode, text, items, 1, k);
    SalvagedIsFound(decode, v, k);
  }

  lemma BatchText(blank: seq<byte>, items: seq<Item>)
    requires items != []
    ensures var text := Print(Arr(blank, items));
            && |text| == |PrintItems(items)| + 2
            && text[1..1 + |PrintItems(items)|] == PrintItems(items)
            && Objects(Arr(blank, items), 0) == ItemObjects(items, 1)
  {
    assert Print(Arr(blank, items)) == [0x5B] + PrintItems(items) + [0x5D];
  }

  /** Salvaging a cut value takes the objects complete before the cut. */
  lemma SalvagedIsFound(decode: Decoder, v: Value, k: nat)
    requires Valid(v) && k <= |Print(v)|
    ensures Salvaged(decode, Print(v)[..k]) == Found(decode, Print(v), Objects(v, 0), k)
  {
    var text := Print(v);
    SpansOfCutValue(v, k);
    BeforeIsPrefix(Objects(v, 0), k, |Spans(text[..k])|);
    forall x | x in Objects(v, 0) ensures x.start <= x.end {
      SpansFit(text, x);
    }
    FoundInCut(decode, text, k, Objects(v, 0));
    assert Spans(text[..k]) == Objects(v, 0)[..|Spans(text[..k])|];
  }

  // ---------- nested objects ----------

  /** `inner` is the value v, or stands somewhere in it. */
  ghost predicate Within(inner: Value, v: Value)
    decreases v
  {
    v == inner
    || match v
       case Arr(_, items) => exists it :: it in items && Within(inner, it.value)
       case Obj(_, members) => exists m :: m in members && Within(inner, m.item.value)
       case _ => false
  }

  /** The text of the value starts at `at` and ends by k. */
  ghost predicate HoldsValue(data: seq<byte>, v: Value, at: nat, k: nat) {
    at + |Print(v)| <= k <= |data| && data[at..at + |Print(v)|] == Print(v)
  }

  ghost predicate HoldsMembers(data: seq<byte>, members: seq<Member>, base: nat, k: nat) {
    base + |PrintMembers(members)| <= k <= |data| && data[base..base + |PrintMembers(members)|] == PrintMembers(members)
  }

  lemma ArrayHoldsItems(data: seq<byte>, v: Value, at: nat, k: nat)
    requires v.Arr? && v.items != [] && HoldsValue(data, v, at, k)
    ensures Holds(data, v.items, at + 1) && at + 1 + |PrintItems(v.items)| <= k
  {
    MiddleText(data, at, [0x5B], PrintItems(v.items), [0x5D]);
  }

  lemma ObjectHoldsMembers(data: seq<byte>, v: Value, at: nat, k: nat)
    requires v.Obj? && v.members != [] && HoldsValue(data, v, at, k)
    ensures HoldsMembers(data, v.members, at + 1, k)
  {
    MiddleText(data, at, [OPEN], PrintMembers(v.members), [CLOSE]);
  }

  /** What follows the first member in a printed list. */
  function MemberTail(members: seq<Member>): seq<byte>
    requires members != []
  {
    if |members| == 1 then [] else COMMA + PrintMembers(members[1..])
  }

  lemma MembersShape(members: seq<Member>)
    requires members != []
    ensures var m := members[0];
            PrintMembers(members) ==
              (PrintKey(m) + m.item.before) + Print(m.item.value) + (m.item.after + MemberTail(members))
    ensures |members| > 1 ==>
        PrintMembers(members) == (PrintMember(members[0]) + COMMA) + PrintMembers(members[1..]) + []
  {
    var m := members[0];
    assert PrintMembers(members) == PrintMember(m) + MemberTail(members);
    ItemShape(m.item);
    FiveParts(PrintKey(m), m.item.before, Print(m.item.value), m.item.after, MemberTail(members));
    if |members| > 1 {
      Regroup([], PrintMember(m), COMMA, PrintMembers(members[1..]));
      Regroup(PrintMember(m), COMMA, PrintMembers(members[1..]), []);
    }
  }

  lemma FiveParts<T>(a: seq<T>, b: seq<T>, c: seq<T>, d: seq<T>, e: seq<T>)
    ensures a + (b + c + d) + e == (a + b) + c + (d + e)
  {}

  lemma MemberText(data: seq<byte>, members: seq<Member>, base: nat, k: nat)
    requires members != [] && HoldsMembers(data, members, base, k)
    ensures HoldsValue(data, members[0].item.value, MemberStart(members[0], base), k)
    ensures |members| > 1 ==> HoldsMembers(data, members[1..], base + |PrintMember(members[0])| + 1, k)
  {
    var m := members[0];
    MembersShape(members);
    MiddleText(data, base, PrintKey(m) + m.item.before, Print(m.item.value), m.item.after + MemberTail(members));
    if |members| > 1 {
      MiddleText(data, base, PrintMember(m) + COMMA, PrintMembers(members[1..]), []);
    }
  }

  /** An accepted object anywhere in a complete value is found. */
  lemma {:induction false} FoundWithin(decode: Decoder, data: seq<byte>, v: Value, at: nat, k: nat, inner: Value,
                                       f: Finding)
    requires inner.Obj? && f in Accepted(decode, Print(inner)) && Within(inner, v) && HoldsValue(data, v, at, k)
    ensures f in Found(decode, data, Objects(v, at), k)
    decreases v, 2
  {
    if v == inner {
      RowFound(decode, data, v, at, k);
      return;
    }
    WithinParts(inner, v);
    if v.Arr? {
      FoundInArray(decode, data, v, at, k, inner, f);
    } else {
      FoundInObject(decode, data, v, at, k, inner, f);
    }
  }

  lemma WithinParts(inner: Value, v: Value)
    requires Within(inner, v) && v != inner
    ensures v.Arr? || v.Obj?
    ensures v.Arr? ==> v.items != [] && InSomeItem(inner, v.items)
    ensures v.Obj? ==> v.members != [] && InSomeMember(inner, v.members)
  {}

  lemma {:induction false} FoundInArray(decode: Decoder, data: seq<byte>, v: Value, at: nat, k: nat, inner: Value,
                                        f: Finding)
    requires inner.Obj? && f in Accepted(decode, Print(inner)) && HoldsValue(data, v, at, k)
    requires v.Arr? && v.items != [] && InSomeItem(inner, v.items)
    ensures f in Found(decode, data, Objects(v, at), k)
    decreases v, 1
  {
    ArrayHoldsItems(data, v, at, k);
    FoundInItems(decode, data, v.items, at + 1, k, inner, f);
  }

  lemma {:induction false} FoundInObject(decode: Decoder, data: seq<byte>, v: Value, at: nat, k: nat, inner: Value,
                                         f: Finding)
    requires inner.Obj? && f in Accepted(decode, Print(inner)) && HoldsValue(data, v, at, k)
    requires v.Obj? && v.members != [] && InSomeMember(inner, v.members)
    ensures f in Found(decode, data, Objects(v, at), k)
    decreases v, 1
  {
    ObjectHoldsMembers(data, v, at, k);
    FoundInMembers(decode, data, v.members, at + 1, k, inner, f);
    RowFound(decode, data, v, at, k);
  }

  lemma FoundInEither(decode: Decoder, data: seq<byte>, all: seq<Span>, a: seq<Span>, b: seq<Span>, k: nat, f: Finding)
    requires all == a + b && (f in Found(decode, data, a, k) || f in Found(decode, data, b, k))
    ensures f in Found(decode, data, all, k)
  {
    FoundSplits(decode, data, all, a, b, k);
  }

  ghost predicate InSomeItem(inner: Value, items: seq<Item>) { exists it :: it in items && Within(inner, it.value) }

  ghost predicate InSomeMember(inner: Value, members: seq<Member>) {
    exists m :: m in members && Within(inner, m.item.value)
  }

  ghost predicate HoldsItems(data: seq<byte>, items: seq<Item>, base: nat, k: nat) {
    Holds(data, items, base) && base + |PrintItems(items)| <= k <= |data|
  }

  lemma LaterItems(data: seq<byte>, items: seq<Item>, base: nat, k: nat)
    requires |items| > 1 && HoldsItems(data, items, base, k)
    ensures HoldsItems(data, items[1..], base + |PrintItem(items[0])| + 1, k)
  {
    RestText(data, items, base);
    ItemsShape(items);
  }

  lemma ItemSpans(items: seq<Item>, base: nat, at: nat, next: nat)
    requires items != [] && at == base + |items[0].before| && next == base + |PrintItem(items[0])| + 1
    ensures ItemObjects(items, base) == Objects(items[0].value, at) + ItemObjects(items[1..], next)
  {}

  lemma {:induction false} FoundInItems(decode: Decoder, data: seq<byte>, items: seq<Item>, base: nat, k: nat,
                                        inner: Value, f: Finding)
    requires inner.Obj? && f in Accepted(decode, Print(inner)) && InSomeItem(inner, items)
    requires HoldsItems(data, items, base, k)
    ensures f in Found(decode, data, ItemObjects(items, base), k)
    decreases items, 0
  {
    var v, at, next := items[0].value, base + |items[0].before|, base + |PrintItem(items[0])| + 1;
    ItemSpans(items, base, at, next);
    if Within(inner, v) {
      FirstItemEnds(data, items, base, k);
      FoundWithin(decode, data, v, at, k, inner, f);
    } else {
      LaterItem(items, inner);
      LaterItems(data, items, base, k);
      FoundInItems(decode, data, items[1..], next, k, inner, f);
    }
    FoundInEither(decode, data, ItemObjects(items, base), Objects(v, at), ItemObjects(items[1..], next), k, f);
  }

  lemma FirstItemEnds(data: seq<byte>, items: seq<Item>, base: nat, k: nat)
    requires items != [] && HoldsItems(data, items, base, k)
    ensures HoldsValue(data, items[0].value, base + |items[0].before|, k)
  {
    RowText(data, items, base);
    ItemsShape(items);
  }

  lemma LaterItem(items: seq<Item>, inner: Value)
    requires items != [] && !Within(inner, items[0].value) && InSomeItem(inner, items)
    ensures |items| > 1 && InSomeItem(inner, items[1..])
  {
    var it :| it in items && Within(inner, it.value);
    assert items == [items[0]] + items[1..];
    assert it in items[1..];
  }

  lemma MemberSpans(members: seq<Member>, base: nat, at: nat, next: nat)
    requires members != [] && at == MemberStart(members[0], base) && next == base + |PrintMember(members[0])| + 1
    ensures MemberObjects(members, base) == Objects(members[0].item.value, at) + MemberObjects(members[1..], next)
  {}

  lemma {:induction false} FoundInMembers(decode: Decoder, data: seq<byte>, members: seq<Member>, base: nat, k: nat,
                                          inner: Value, f: Finding)
    requires inner.Obj? && f in Accepted(decode, Print(inner)) && InSomeMember(inner, members)
    requires HoldsMembers(data, members, base, k)
    ensures f in Found(decode, data, MemberObjects(members, base), k)
    decreases members, 0
  {
    var v, at, next := members[0].item.value, MemberStart(members[0], base), base + |PrintMember(members[0])| + 1;
    MemberSpans(members, base, at, next);
    MemberText(data, members, base, k);
    if Within(inner, v) {
      FoundWithin(decode, data, v, at, k, inner, f);
    } else {
      LaterMember(members, inner);
      FoundInMembers(decode, data, members[1..], next, k, inner, f);
    }
    FoundInEither(decode, data, MemberObjects(members, base), Objects(v, at), MemberObjects(members[1..], next), k, f);
  }

  lemma LaterMember(members: seq<Member>, inner: Value)
    requires members != [] && !Within(inner, members[0].item.value) && InSomeMember(inner, members)
    ensures |members| > 1 && InSomeMember(inner, members[1..])
  {
    var m :| m in members && Within(inner, m.item.value);
    assert members == [members[0]] + members[1..];
    assert m in members[1..];
  }

  lemma FoundInRow(decode: Decoder, data: seq<byte>, v: Value, at: nat, k: nat, inner: Value, f: Finding)
    requires inner.Obj? && f in Accepted(decode, Print(inner)) && Within(inner, v) && inner != v
    requires HoldsValue(data, v, at, k)
    ensures f in Found(decode, data, RowNested(v, at), k)
  {
    if v.Obj? {
      ObjectHoldsMembers(data, v, at, k);
      FoundInMembers(decode, data, v.members, at + 1, k, inner, f);
    } else {
      FoundWithin(decode, data, v, at, k, inner, f);
    }
  }

  lemma NestedSpans(items: seq<Item>, base: nat, at: nat, next: nat)
    requires items != [] && at == base + |items[0].before| && next == base + |PrintItem(items[0])| + 1
    ensures NestedObjects(items, base) == RowNested(items[0].value, at) + NestedObjects(items[1..], next)
  {}

  lemma NestedInFirst(decode: Decoder, data: seq<byte>, items: seq<Item>, base: nat, k: nat, inner: Value, f: Finding)
    requires items != [] && inner.Obj? && f in Accepted(decode, Print(inner))
    requires Within(inner, items[0].value) && inner != items[0].value && HoldsItems(data, items, base, k)
    ensures f in Found(decode, data, NestedObjects(items, base), k)
  {
    var v, at, next := items[0].value, base + |items[0].before|, base + |PrintItem(items[0])| + 1;
    FirstItemEnds(data, items, base, k);
    FoundInRow(decode, data, v, at, k, inner, f);
    NestedSpans(items, base, at, next);
    FoundInEither(decode, data, NestedObjects(items, base), RowNested(v, at), NestedObjects(items[1..], next), k, f);
  }

  lemma NestedInLater(decode: Decoder, data: seq<byte>, items: seq<Item>, base: nat, next: nat, k: nat, f: Finding)
    requires items != [] && next == base + |PrintItem(items[0])| + 1
    requires f in Found(decode, data, NestedObjects(items[1..], next), k)
    ensures f in Found(decode, data, NestedObjects(items, base), k)
  {
    var v, at := items[0].value, base + |items[0].before|;
    NestedSpans(items, base, at, next);
    FoundInEither(decode, data, NestedObjects(items, base), RowNested(v, at), NestedObjects(items[1..], next), k, f);
  }

  lemma {:induction false} FoundNested(decode: Decoder, data: seq<byte>, items: seq<Item>, base: nat, k: nat, i: nat,
                                       inner: Value, f: Finding)
    requires i < |items| && inner.Obj? && f in Accepted(decode, Print(inner)) && Within(inner, items[i].value)
    requires inner != items[i].value
    requires HoldsItems(data, items, base, k)
    ensures f in Found(decode, data, NestedObjects(items, base), k)
    decreases i
  {
    if i == 0 {
      NestedInFirst(decode, data, items, base, k, inner, f);
    } else {
      var rest, next := items[1..], base + |PrintItem(items[0])| + 1;
      assert rest[i - 1] == items[i];
      LaterItems(data, items, base, k);
      FoundNested(decode, data, rest, next, k, i - 1, inner, f);
      NestedInLater(decode, data, items, base, next, k, f);
    }
  }

  /** A nested object that looks like a finding is taken for one. In any batch that is complete up to
      its closing bracket, an object at any depth in any row, whose own text decodes to a usable
      finding, is salvaged as a finding of its own; so more is salvaged than the batch has complete
      accepted rows. */
  lemma NestedObjectBecomesAFinding(decode: Decoder, blank: seq<byte>, items: seq<Item>, i: nat, inner: Value,
                                    f: Finding)
    requires Valid(Arr(blank, items)) && i < |items|
    requires inner.Obj? && Within(inner, items[i].value) && inner != items[i].value
    requires Accepted(decode, Print(inner)) == [f]
    ensures var text := Print(Arr(blank, items));
            var k := |text| - 1;
            && f in Salvaged(decode, text[..k])
            && |Salvaged(decode, text[..k])| > |CompleteRows(decode, items, 1, k)|
  {
    var v := Arr(blank, items);
    var text := Print(v);
    var k := |text| - 1;
    BatchText(blank, items);
    FoundNested(decode, text, items, 1, k, i, inner, f);
    assert Within(inner, items[i].value) && items[i] in items;
    FoundInItems(decode, text, items, 1, k, inner, f);
    SalvagedIsFound(decode, v, k);
    CutBatchIsRecovered(decode, blank, items, k);
  }
}
