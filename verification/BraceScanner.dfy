/** The string-aware brace scanner balancedObjects (report.go:2096-2130) on arbitrary bytes. */
module BraceScanner {

  newtype byte = b: int | 0 <= b < 256

  const QUOTE: byte := 0x22
  const BACKSLASH: byte := 0x5C
  const OPEN: byte := 0x7B
  const CLOSE: byte := 0x7D

  /** The bytes data[start..end]. */
  datatype Span = Span(start: nat, end: nat)

  datatype Scanner = Scanner(inString: bool, escaped: bool, stack: seq<nat>, spans: seq<Span>)

  const Start := Scanner(false, false, [], [])

  function Step(s: Scanner, c: byte, i: nat): Scanner {
    if s.inString then
      if s.escaped then s.(escaped := false)
      else if c == BACKSLASH then s.(escaped := true)
      else if c == QUOTE then s.(inString := false)
      else s
    else if c == QUOTE then s.(inString := true)
    else if c == OPEN then s.(stack := s.stack + [i])
    else if c == CLOSE && s.stack != [] then
      var top := |s.stack| - 1;
      s.(stack := s.stack[..top], spans := s.spans + [Span(s.stack[top], i + 1)])
    else s
  }

  /** Scanning `text` when its first byte is at offset `base`. */
  function Scan(s: Scanner, text: seq<byte>, base: nat): Scanner
    decreases |text|
  {
    if text == [] then s else Scan(Step(s, text[0], base), text[1..], base + 1)
  }

  function Spans(data: seq<byte>): seq<Span> {
    Scan(Start, data, 0).spans
  }

  method BalancedObjects(data: array<byte>) returns (spans: seq<Span>)
    ensures spans == Spans(data[..])
  {
    spans := [];
    var stack: seq<nat> := [];
    var inString, escaped := false, false;
    var i := 0;
    assert data[..][0..] == data[..];
    while i < data.Length
      invariant 0 <= i <= data.Length
      invariant Scan(Scanner(inString, escaped, stack, spans), data[..][i..], i).spans == Spans(data[..])
    {
      var c := data[i];
      assert data[..][i..][0] == c && data[..][i..][1..] == data[..][i + 1..];
      if inString {
        if escaped {
          escaped := false;
        } else if c == BACKSLASH {
          escaped := true;
        } else if c == QUOTE {
          inString := false;
        }
      } else if c == QUOTE {
        inString := true;
      } else if c == OPEN {
        stack := stack + [i];
      } else if c == CLOSE {
        if |stack| > 0 {
          var start := stack[|stack| - 1];
          stack := stack[..|stack| - 1];
          spans := spans + [Span(start, i + 1)];
        }
      }
      i := i + 1;
    }
  }

  lemma {:induction false} ScanConcat(s: Scanner, a: seq<byte>, b: seq<byte>, base: nat)
    ensures Scan(s, a + b, base) == Scan(Scan(s, a, base), b, base + |a|)
    decreases |a|
  {
    if a == [] {
      assert a + b == b;
    } else {
      assert (a + b)[1..] == a[1..] + b;
      ScanConcat(Step(s, a[0], base), a[1..], b, base + 1);
    }
  }

  lemma {:induction false} SpansOnlyGrow(s: Scanner, text: seq<byte>, base: nat)
    ensures s.spans <= Scan(s, text, base).spans
    ensures forall k :: |s.spans| <= k < |Scan(s, text, base).spans| ==> Scan(s, text, base).spans[k].end > base
    decreases |text|
  {
    if text != [] {
      SpansOnlyGrow(Step(s, text[0], base), text[1..], base + 1);
    }
  }

  // ---------- what a matched pair of braces is, without a stack ----------

  datatype Lexeme = Plain | Quoted | Escaped

  /** Where byte i stands with respect to string literals. */
  function LexAt(data: seq<byte>, i: nat): Lexeme
    requires i <= |data|
  {
    if i == 0 then Plain
    else match LexAt(data, i - 1)
      case Plain => if data[i - 1] == QUOTE then Quoted else Plain
      case Quoted => if data[i - 1] == BACKSLASH then Escaped else if data[i - 1] == QUOTE then Plain else Quoted
      case Escaped => Quoted
  }

  predicate Opens(data: seq<byte>, i: nat)
    requires i < |data|
  {
    LexAt(data, i) == Plain && data[i] == OPEN
  }

  predicate Closes(data: seq<byte>, i: nat)
    requires i < |data|
  {
    LexAt(data, i) == Plain && data[i] == CLOSE
  }

  /** Opening minus closing braces outside strings in data[a..b]. */
  function Net(data: seq<byte>, a: nat, b: nat): int
    requires b <= |data|
    decreases b
  {
    if b <= a then 0
    else Net(data, a, b - 1) + (if Opens(data, b - 1) then 1 else if Closes(data, b - 1) then -1 else 0)
  }

  /** The brace opened at s is closed by the brace just before e. */
  ghost predicate Matches(data: seq<byte>, s: nat, e: nat) {
    && s < e <= |data| && Opens(data, s)
    && Net(data, s, e) == 0
    && (forall k :: s < k < e ==> Net(data, s, k) > 0)
  }

  lemma {:induction false} NetSplits(data: seq<byte>, a: nat, b: nat, c: nat)
    requires a <= b <= c <= |data|
    ensures Net(data, a, c) == Net(data, a, b) + Net(data, b, c)
  {
    if b < c {
      NetSplits(data, a, b, c - 1);
    }
  }

  /** The scanner's state after k bytes, described by matching alone. */
  ghost predicate Describes(data: seq<byte>, k: nat, s: Scanner)
    requires k <= |data|
  {
    && LexAt(data, k) == (if !s.inString then Plain else if s.escaped then Escaped else Quoted)
    && (!s.inString ==> !s.escaped)
    && StackOk(data, k, s.stack)
    && OthersClosed(data, k, s.stack)
    && SpansOk(data, k, s.spans)
  }

  /** An opening brace that is not on the stack has been closed. */
  ghost predicate OthersClosed(data: seq<byte>, k: nat, stack: seq<nat>)
    requires k <= |data|
  {
    forall p: nat :: p < k && Opens(data, p) && p !in stack ==> exists j :: p < j <= k && Net(data, p, j) == 0
  }

  ghost predicate SpansOk(data: seq<byte>, k: nat, spans: seq<Span>) {
    && (forall a: nat, e: nat :: Span(a, e) in spans <==> e <= k && Matches(data, a, e))
    && (forall m, n :: 0 <= m < n < |spans| ==> spans[m].end < spans[n].end)
  }

  /** The stack holds the braces that are still open, innermost last. */
  ghost predicate StackOk(data: seq<byte>, k: nat, stack: seq<nat>)
    requires k <= |data|
  {
    && (forall n :: 0 <= n < |stack| ==>
          && stack[n] < k && Opens(data, stack[n]) && Net(data, stack[n], k) == |stack| - n
          && (forall j :: stack[n] < j <= k ==> Net(data, stack[n], j) >= 1))
  }

  /** Once the counter from an opening brace has been at zero, that brace is matched. */
  lemma {:induction false} FirstZero(data: seq<byte>, p: nat, j: nat) returns (e: nat)
    requires p < j <= |data| && Opens(data, p) && Net(data, p, j) == 0
    ensures p < e <= j && Matches(data, p, e)
  {
    if forall i :: p < i < j ==> Net(data, p, i) != 0 {
      e := j;
      CountStaysPositive(data, p, j - 1);
    } else {
      var i :| p < i < j && Net(data, p, i) == 0;
      e := FirstZero(data, p, i);
    }
  }

  lemma {:induction false} CountStaysPositive(data: seq<byte>, p: nat, k: nat)
    requires p <= k < |data| && Opens(data, p)
    requires forall i :: p < i <= k ==> Net(data, p, i) != 0
    ensures forall i :: p < i <= k ==> Net(data, p, i) > 0
  {
    if p < k {
      CountStaysPositive(data, p, k - 1);
      assert Net(data, p, p) == 0;
    }
  }

  /** Two ends cannot both match one start. */
  lemma MatchIsUnique(data: seq<byte>, s: nat, e: nat, e': nat)
    requires Matches(data, s, e) && Matches(data, s, e')
    ensures e == e'
  {}

  /** A match ending at k + 1 starts at a brace that was still open at k. */
  lemma MatchEndsAtStack(data: seq<byte>, k: nat, s: Scanner, a: nat)
    requires k < |data| && Describes(data, k, s) && Matches(data, a, k + 1)
    ensures Closes(data, k) && s.stack != [] && a == s.stack[|s.stack| - 1]
  {
    assert a < k by { assert Net(data, k, k) == 0; }
    assert Net(data, a, k) > 0;
    assert a in s.stack by {
      assert forall j :: a < j <= k ==> Net(data, a, j) != 0;
    }
    var n :| 0 <= n < |s.stack| && s.stack[n] == a;
  }

  lemma LexingStep(data: seq<byte>, k: nat, s: Scanner)
    requires k < |data| && LexAt(data, k) == (if !s.inString then Plain else if s.escaped then Escaped else Quoted)
    requires !s.inString ==> !s.escaped
    ensures var s' := Step(s, data[k], k);
            && LexAt(data, k + 1) == (if !s'.inString then Plain else if s'.escaped then Escaped else Quoted)
            && (!s'.inString ==> !s'.escaped)
            && (!Opens(data, k) && !Closes(data, k) ==> s'.stack == s.stack && s'.spans == s.spans)
  {}

  lemma QuietStep(data: seq<byte>, k: nat, s: Scanner)
    requires k < |data| && Describes(data, k, s) && !Opens(data, k) && !Closes(data, k)
    ensures Describes(data, k + 1, Step(s, data[k], k))
  {
    var s' := Step(s, data[k], k);
    LexingStep(data, k, s);
    assert StackOk(data, k + 1, s.stack);
    forall a: nat, e: nat ensures Span(a, e) in s.spans <==> e <= k + 1 && Matches(data, a, e) {
      if e == k + 1 && Matches(data, a, e) {
        MatchEndsAtStack(data, k, s, a);
      }
    }
  }

  lemma OpenStep(data: seq<byte>, k: nat, s: Scanner)
    requires k < |data| && Describes(data, k, s) && Opens(data, k)
    ensures Describes(data, k + 1, Step(s, data[k], k))
  {
    var s' := Step(s, data[k], k);
    assert Net(data, k, k) == 0;
    assert StackOk(data, k + 1, s'.stack);
    assert forall p :: p in s.stack ==> p in s'.stack;
    assert k in s'.stack;
    forall a: nat, e: nat ensures Span(a, e) in s'.spans <==> e <= k + 1 && Matches(data, a, e) {
      if e == k + 1 && Matches(data, a, e) {
        MatchEndsAtStack(data, k, s, a);
      }
    }
  }

  lemma StrayCloseStep(data: seq<byte>, k: nat, s: Scanner)
    requires k < |data| && Describes(data, k, s) && Closes(data, k) && s.stack == []
    ensures Describes(data, k + 1, Step(s, data[k], k))
  {
    forall a: nat, e: nat ensures Span(a, e) in s.spans <==> e <= k + 1 && Matches(data, a, e) {
      if e == k + 1 && Matches(data, a, e) {
        MatchEndsAtStack(data, k, s, a);
      }
    }
  }

  lemma PopKeepsStack(data: seq<byte>, k: nat, stack: seq<nat>)
    requires k < |data| && StackOk(data, k, stack) && OthersClosed(data, k, stack) && Closes(data, k) && stack != []
    ensures Matches(data, stack[|stack| - 1], k + 1)
    ensures StackOk(data, k + 1, stack[..|stack| - 1]) && OthersClosed(data, k + 1, stack[..|stack| - 1])
  {
    var p, rest := stack[|stack| - 1], stack[..|stack| - 1];
    assert stack == rest + [p];
    forall q: nat | q < k + 1 && Opens(data, q) && q !in rest
      ensures exists j :: q < j <= k + 1 && Net(data, q, j) == 0
    {
      if q in stack {
        assert q == p && Net(data, q, k + 1) == 0;
      }
    }
  }

  lemma CloseStep(data: seq<byte>, k: nat, s: Scanner)
    requires k < |data| && Describes(data, k, s) && Closes(data, k) && s.stack != []
    ensures Describes(data, k + 1, Step(s, data[k], k))
  {
    var p := s.stack[|s.stack| - 1];
    PopKeepsStack(data, k, s.stack);
    LexingStep(data, k, s);
    forall a: nat, e: nat ensures Span(a, e) in s.spans + [Span(p, k + 1)] <==> e <= k + 1 && Matches(data, a, e) {
      if e == k + 1 && Matches(data, a, e) {
        MatchEndsAtStack(data, k, s, a);
      }
    }
    forall m | 0 <= m < |s.spans| ensures s.spans[m].end < k + 1 {
      assert Span(s.spans[m].start, s.spans[m].end) in s.spans;
    }
  }

  lemma {:induction false} ScanDescribes(data: seq<byte>, k: nat, s: Scanner)
    requires k <= |data| && Describes(data, k, s)
    ensures Describes(data, |data|, Scan(s, data[k..], k))
    decreases |data| - k
  {
    if k < |data| {
      if Opens(data, k) {
        OpenStep(data, k, s);
      } else if !Closes(data, k) {
        QuietStep(data, k, s);
      } else if s.stack == [] {
        StrayCloseStep(data, k, s);
      } else {
        CloseStep(data, k, s);
      }
      assert data[k..][0] == data[k] && data[k..][1..] == data[k + 1..];
      ScanDescribes(data, k + 1, Step(s, data[k], k));
    }
  }

  /** On any bytes at all, the scanner emits exactly the matched pairs of braces outside strings,
      each once, ordered by their ends. */
  lemma SpansAreTheMatches(data: seq<byte>)
    ensures forall a: nat, e: nat :: Span(a, e) in Spans(data) <==> Matches(data, a, e)
    ensures forall m, n :: 0 <= m < n < |Spans(data)| ==> Spans(data)[m].end < Spans(data)[n].end
  {
    assert Describes(data, 0, Start);
    assert data[0..] == data;
    ScanDescribes(data, 0, Start);
  }

  /** Any two spans have different starts and are nested or disjoint. */
  lemma SpansAreNestedOrDisjoint(data: seq<byte>, x: Span, y: Span)
    requires x in Spans(data) && y in Spans(data) && x != y
    ensures x.start != y.start
    ensures x.end <= y.start || y.end <= x.start
         || (x.start < y.start && y.end < x.end) || (y.start < x.start && x.end < y.end)
  {
    SpansAreTheMatches(data);
    assert Matches(data, x.start, x.end) && Matches(data, y.start, y.end);
    if x.start < y.start < x.end {
      InnerEndsFirst(data, x, y);
    } else if y.start < x.start < y.end {
      InnerEndsFirst(data, y, x);
    } else if x.start == y.start {
      MatchIsUnique(data, x.start, x.end, y.end);
    }
  }

  lemma InnerEndsFirst(data: seq<byte>, x: Span, y: Span)
    requires Matches(data, x.start, x.end) && Matches(data, y.start, y.end) && x.start < y.start < x.end
    ensures y.end < x.end
  {
    NetSplits(data, x.start, y.start, x.end);
    assert Net(data, y.start, x.end) < 0;
  }

  /** The spans of a prefix are a prefix of the spans of the whole: exactly those complete in it. */
  lemma SpansOfPrefix(data: seq<byte>, k: nat)
    requires k <= |data|
    ensures Spans(data[..k]) <= Spans(data)
    ensures forall m :: 0 <= m < |Spans(data)| ==> (m < |Spans(data[..k])| <==> Spans(data)[m].end <= k)
  {
    var cut := data[..k];
    assert cut + data[k..] == data;
    ScanConcat(Start, cut, data[k..], 0);
    SpansOnlyGrow(Scan(Start, cut, 0), data[k..], k);
    SpansAreTheMatches(cut);
    forall m | 0 <= m < |Spans(cut)| ensures Spans(data)[m].end <= k {
      assert Spans(cut)[m] in Spans(cut);
      assert Matches(cut, Spans(cut)[m].start, Spans(cut)[m].end);
    }
  }
}
