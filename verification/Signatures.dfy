/** Splitting a stored C signature into its parameters
    (sgre/internal/allocdiscover/discover.go:475-511). */
module Signatures {
  import opened Text

  function Delta(c: char): int {
    if c in {'(', '[', '{'} then 1 else if c in {')', ']', '}'} then -1 else 0
  }

  /** Brackets opened and not closed. */
  function Depth(s: string): int {
    if s == "" then 0 else Depth(s[..|s| - 1]) + Delta(s[|s| - 1])
  }

  /** No comma stands outside brackets. */
  ghost predicate Whole(s: string) {
    forall i :: 0 <= i < |s| && s[i] == ',' ==> Depth(s[..i]) != 0
  }

  /** The pieces of `cur` and what follows it, as the loop cuts them. */
  function Cut(s: string, cur: string, depth: int): seq<string> {
    if s == "" then [cur]
    else if s[0] == ',' && depth == 0 then [cur] + Cut(s[1..], "", 0)
    else Cut(s[1..], cur + [s[0]], depth + Delta(s[0]))
  }

  function TrimAll(pieces: seq<string>): (r: seq<string>)
    ensures |r| == |pieces| && forall i :: 0 <= i < |pieces| ==> r[i] == TrimSpace(pieces[i])
  {
    seq(|pieces|, i requires 0 <= i < |pieces| => TrimSpace(pieces[i]))
  }

  /** strings.IndexByte, or -1 */
  function FirstAt(s: string, c: char): (i: int)
    ensures -1 <= i < |s|
    ensures i >= 0 ==> s[i] == c && c !in s[..i]
    ensures i == -1 <==> c !in s
  {
    if s == "" then -1
    else if s[0] == c then 0
    else
      var i := FirstAt(s[1..], c);
      assert s == [s[0]] + s[1..];
      if i < 0 then -1
      else
        assert s[..i + 1] == [s[0]] + s[1..][..i];
        i + 1
  }

  /** strings.LastIndexByte, or -1 */
  function LastAt(s: string, c: char): (i: int)
    ensures -1 <= i < |s|
    ensures i >= 0 ==> s[i] == c && c !in s[i + 1..]
    ensures i == -1 <==> c !in s
  {
    if s == "" then -1
    else if s[|s| - 1] == c then |s| - 1
    else
      var i := LastAt(s[..|s| - 1], c);
      assert s == s[..|s| - 1] + [s[|s| - 1]];
      if i >= 0 then
        assert s[i + 1..] == s[..|s| - 1][i + 1..] + [s[|s| - 1]];
        i
      else i
  }

  function ParamsOf(inner: string): seq<string> {
    if inner == "" || inner == "void" then [] else TrimAll(Cut(inner, "", 0))
  }

  function Params(signature: string): seq<string> {
    var open := FirstAt(signature, '(');
    var close := LastAt(signature, ')');
    if open < 0 || close <= open then [] else ParamsOf(TrimSpace(signature[open + 1..close]))
  }

  lemma CutStep(inner: string, start: nat, i: nat, depth: int)
    requires start <= i < |inner|
    ensures Cut(inner[i..], inner[start..i], depth) ==
            if inner[i] == ',' && depth == 0 then [inner[start..i]] + Cut(inner[i + 1..], inner[i + 1..i + 1], 0)
            else Cut(inner[i + 1..], inner[start..i + 1], depth + Delta(inner[i]))
  {
    assert inner[i..][0] == inner[i] && inner[i..][1..] == inner[i + 1..];
    assert inner[start..i + 1] == inner[start..i] + [inner[i]] && inner[i + 1..i + 1] == "";
  }

  lemma TrimAllMore(pieces: seq<string>, piece: string)
    ensures TrimAll(pieces + [piece]) == TrimAll(pieces) + [TrimSpace(piece)]
  {}

  /** The pieces cut off before `start`, and the scan of the rest, are the whole cut. */
  ghost predicate CutSoFar(inner: string, pieces: seq<string>, start: nat, i: nat, depth: int) {
    start <= i <= |inner| && pieces + Cut(inner[i..], inner[start..i], depth) == Cut(inner, "", 0)
  }

  lemma CutMore(inner: string, pieces: seq<string>, start: nat, i: nat, depth: int)
    requires CutSoFar(inner, pieces, start, i, depth) && i < |inner|
    ensures if inner[i] == ',' && depth == 0 then CutSoFar(inner, pieces + [inner[start..i]], i + 1, i + 1, 0)
            else CutSoFar(inner, pieces, start, i + 1, depth + Delta(inner[i]))
  {
    CutStep(inner, start, i, depth);
  }

  lemma CutEnds(inner: string, pieces: seq<string>, start: nat, depth: int)
    requires CutSoFar(inner, pieces, start, |inner|, depth)
    ensures pieces + [inner[start..]] == Cut(inner, "", 0)
  {
    assert inner[|inner|..] == "" && inner[start..|inner|] == inner[start..];
  }

  method SplitInner(inner: string) returns (out: seq<string>)
    ensures out == TrimAll(Cut(inner, "", 0))
  {
    out := [];
    var depth, start, i := 0, 0, 0;
    ghost var pieces: seq<string> := [];
    assert inner[0..] == inner;
    while i < |inner|
      invariant CutSoFar(inner, pieces, start, i, depth) && out == TrimAll(pieces)
    {
      CutMore(inner, pieces, start, i, depth);
      match inner[i] {
        case '(' | '[' | '{' => depth := depth + 1;
        case ')' | ']' | '}' => depth := depth - 1;
        case ',' =>
          if depth == 0 {
            out := out + [TrimSpace(inner[start..i])];
            TrimAllMore(pieces, inner[start..i]);
            pieces := pieces + [inner[start..i]];
            start := i + 1;
          }
        case _ =>
      }
      i := i + 1;
    }
    CutEnds(inner, pieces, start, depth);
    out := out + [TrimSpace(inner[start..])];
    TrimAllMore(pieces, inner[start..]);
  }

  method SplitParams(signature: string) returns (out: seq<string>)
    ensures out == Params(signature)
  {
    var open := FirstAt(signature, '(');
    var closeIdx := LastAt(signature, ')');
    if open < 0 || closeIdx <= open {
      return [];
    }
    var inner := TrimSpace(signature[open + 1..closeIdx]);
    if inner == "" || inner == "void" {
      return [];
    }
    out := SplitInner(inner);
  }

  // ---------- where it cuts ----------

  function JoinWith(sep: string, pieces: seq<string>): string {
    if pieces == [] then "" else if |pieces| == 1 then pieces[0] else pieces[0] + sep + JoinWith(sep, pieces[1..])
  }

  /** Pieces without an outer comma, all but the last with their brackets closed. */
  ghost predicate TopLevel(pieces: seq<string>) {
    && pieces != []
    && (forall k :: 0 <= k < |pieces| ==> Whole(pieces[k]))
    && (forall k :: 0 <= k < |pieces| - 1 ==> Depth(pieces[k]) == 0)
  }

  lemma DepthMore(s: string, c: char)
    ensures Depth(s + [c]) == Depth(s) + Delta(c)
  {
    assert (s + [c])[..|s|] == s && (s + [c])[|s|] == c;
  }

  lemma WholeMore(s: string, c: char)
    ensures Depth(s + [c]) == Depth(s) + Delta(c)
    ensures Whole(s) && !(c == ',' && Depth(s) == 0) ==> Whole(s + [c])
    ensures Whole(s + [c]) ==> Whole(s) && !(c == ',' && Depth(s) == 0)
  {
    assert (s + [c])[..|s|] == s;
    assert forall i :: 0 <= i <= |s| ==> (s + [c])[..i] == s[..i];
    assert (s + [c])[|s|] == c;
  }

  /** The pieces are top-level and make up the text. */
  ghost predicate Divides(pieces: seq<string>, text: string) {
    TopLevel(pieces) && JoinWith(",", pieces) == text
  }

  lemma OnePiece(cur: string)
    requires Whole(cur)
    ensures Divides([cur], cur)
  {}

  /** A closed piece in front of a division. */
  lemma PieceInFront(piece: string, rest: seq<string>, text: string)
    requires Whole(piece) && Depth(piece) == 0 && Divides(rest, text)
    ensures Divides([piece] + rest, piece + "," + text)
  {
    assert ([piece] + rest)[1..] == rest;
  }

  lemma CutAtComma(s: string, cur: string)
    requires s != "" && s[0] == ',' && Depth(cur) == 0
    ensures Cut(s, cur, Depth(cur)) == [cur] + Cut(s[1..], "", Depth(""))
    ensures cur + "," + ("" + s[1..]) == cur + s
  {}

  lemma CutElsewhere(s: string, cur: string)
    requires s != "" && !(s[0] == ',' && Depth(cur) == 0)
    ensures Cut(s, cur, Depth(cur)) == Cut(s[1..], cur + [s[0]], Depth(cur + [s[0]]))
  {
    DepthMore(cur, s[0]);
  }

  lemma FirstMoves(cur: string, s: string)
    requires s != ""
    ensures cur + [s[0]] + s[1..] == cur + s
  {}

  lemma {:induction false} CutIsTopLevel(s: string, cur: string)
    requires Whole(cur)
    ensures Divides(Cut(s, cur, Depth(cur)), cur + s)
    decreases |s|
  {
    if s == "" {
      OnePiece(cur);
      assert cur + s == cur;
    } else if s[0] == ',' && Depth(cur) == 0 {
      CutAtComma(s, cur);
      CutIsTopLevel(s[1..], "");
      PieceInFront(cur, Cut(s[1..], "", Depth("")), "" + s[1..]);
    } else {
      CutElsewhere(s, cur);
      FirstMoves(cur, s);
      WholeMore(cur, s[0]);
      CutIsTopLevel(s[1..], cur + [s[0]]);
    }
  }

  /** Running through a closed piece to the comma behind it. */
  lemma {:induction false} CutPiece(x: string, t: string, cur: string)
    requires Whole(cur + x) && Depth(cur + x) == 0
    ensures Cut(x + "," + t, cur, Depth(cur)) == [cur + x] + Cut(t, "", 0)
    decreases |x|
  {
    var s := x + "," + t;
    if x == "" {
      assert cur + x == cur && s[0] == ',' && s[1..] == t;
    } else {
      assert s[0] == x[0] && s[1..] == x[1..] + "," + t;
      assert cur + [x[0]] + x[1..] == cur + x;
      WholePrefix(cur + [x[0]], x[1..]);
      WholeMore(cur, x[0]);
      CutPiece(x[1..], t, cur + [x[0]]);
    }
  }

  lemma WholePrefix(a: string, b: string)
    requires Whole(a + b)
    ensures Whole(a)
  {
    forall i | 0 <= i < |a| && a[i] == ',' ensures Depth(a[..i]) != 0 {
      assert (a + b)[i] == ',' && (a + b)[..i] == a[..i];
    }
  }

  lemma {:induction false} CutLast(x: string, cur: string)
    requires Whole(cur + x)
    ensures Cut(x, cur, Depth(cur)) == [cur + x]
    decreases |x|
  {
    if x == "" {
      assert cur + x == cur;
    } else {
      assert cur + [x[0]] + x[1..] == cur + x;
      WholePrefix(cur + [x[0]], x[1..]);
      WholeMore(cur, x[0]);
      CutLast(x[1..], cur + [x[0]]);
    }
  }

  /** Any such pieces are what the loop cuts their comma-joined text into. */
  lemma {:induction false} OnlyOneTopLevelCut(pieces: seq<string>)
    requires TopLevel(pieces)
    ensures Cut(JoinWith(",", pieces), "", 0) == pieces
    decreases |pieces|
  {
    assert "" + pieces[0] == pieces[0];
    if |pieces| == 1 {
      CutLast(pieces[0], "");
    } else {
      OnlyOneTopLevelCut(pieces[1..]);
      CutPiece(pieces[0], JoinWith(",", pieces[1..]), "");
    }
  }

  /** The cut is the one and only way to write the text as comma-joined pieces of which none has a
      comma outside brackets and only the last may leave a bracket open. */
  lemma CutsExactlyAtOuterCommas(inner: string, pieces: seq<string>)
    ensures Cut(inner, "", 0) == pieces <==> TopLevel(pieces) && JoinWith(",", pieces) == inner
  {
    CutIsTopLevel(inner, "");
    assert "" + inner == inner;
    if TopLevel(pieces) {
      OnlyOneTopLevelCut(pieces);
    }
  }

  // ---------- round trip ----------

  ghost predicate Trimmed(s: string) { s != "" && !IsSpace(s[0]) && !IsSpace(s[|s| - 1]) }

  ghost predicate Param(p: string) { Trimmed(p) && Whole(p) && Depth(p) == 0 }

  ghost predicate Blank(s: string) { forall i :: 0 <= i < |s| ==> IsSpace(s[i]) }

  lemma TrimTrimmed(s: string)
    requires Trimmed(s)
    ensures TrimSpace(s) == s
  {}

  lemma {:induction false} TrimGap(gap: string, s: string)
    requires Blank(gap) && Trimmed(s)
    ensures TrimSpace(gap + s) == s
    decreases |gap|
  {
    if gap == "" {
      assert gap + s == s;
    } else {
      assert (gap + s)[0] == gap[0] && (gap + s)[1..] == gap[1..] + s;
      assert TrimLeft(gap + s) == TrimLeft(gap[1..] + s);
      TrimGap(gap[1..], s);
    }
  }

  lemma {:induction false} DepthJoin(a: string, b: string)
    ensures Depth(a + b) == Depth(a) + Depth(b)
    decreases |b|
  {
    if b == "" {
      assert a + b == a;
    } else {
      assert (a + b)[..|a + b| - 1] == a + b[..|b| - 1];
      DepthJoin(a, b[..|b| - 1]);
    }
  }

  lemma {:induction false} BlankIsFlat(gap: string)
    requires Blank(gap)
    ensures Depth(gap) == 0
  {
    if gap != "" {
      BlankIsFlat(gap[..|gap| - 1]);
      assert IsSpace(gap[|gap| - 1]);
    }
  }

  lemma GapKeepsParam(gap: string, p: string)
    requires Blank(gap) && Whole(p)
    ensures Whole(gap + p) && Depth(gap + p) == Depth(p)
  {
    BlankIsFlat(gap);
    DepthJoin(gap, p);
    assert forall k :: 0 <= k < |gap| ==> (gap + p)[k] == gap[k] && IsSpace(gap[k]);
    forall i | 0 <= i < |gap + p| && (gap + p)[i] == ',' ensures Depth((gap + p)[..i]) != 0 {
      assert i >= |gap|;
      assert (gap + p)[..i] == gap + p[..i - |gap|];
      DepthJoin(gap, p[..i - |gap|]);
    }
  }

  /** The first parameter as it is and the gap before each other one. */
  ghost function Spaced(ps: seq<string>, gap: string): (qs: seq<string>)
    requires ps != []
    ensures |qs| == |ps| && qs[0] == ps[0] && forall k :: 0 < k < |ps| ==> qs[k] == gap + ps[k]
  {
    seq(|ps|, k requires 0 <= k < |ps| => if k == 0 then ps[0] else gap + ps[k])
  }

  lemma {:induction false} SpacedJoin(ps: seq<string>, gap: string)
    requires ps != []
    ensures JoinWith("," + gap, ps) == JoinWith(",", Spaced(ps, gap))
    decreases |ps|
  {
    if |ps| > 1 {
      var qs := Spaced(ps, gap);
      SpacedJoin(ps[1..], gap);
      var rest := Spaced(ps[1..], gap);
      JoinFirst(gap, ps[1], rest, qs[1..]);
      assert qs[1..][1..] == rest[1..];
      assert JoinWith(",", qs) == ps[0] + "," + JoinWith(",", qs[1..]);
      assert ps[0] + "," + (gap + JoinWith(",", rest)) == ps[0] + ("," + gap) + JoinWith(",", rest);
    }
  }

  lemma JoinFirst(gap: string, p: string, a: seq<string>, b: seq<string>)
    requires a != [] && |a| == |b| && a[0] == p && b[0] == gap + p && a[1..] == b[1..]
    ensures JoinWith(",", b) == gap + JoinWith(",", a)
  {
    if |a| > 1 {
      assert gap + p + "," + JoinWith(",", b[1..]) == gap + (p + "," + JoinWith(",", a[1..]));
    }
  }

  lemma {:induction false} JoinedIsTrimmed(sep: string, ps: seq<string>)
    requires ps != [] && forall k :: 0 <= k < |ps| ==> Trimmed(ps[k])
    ensures Trimmed(JoinWith(sep, ps))
    ensures |ps| > 1 ==> |JoinWith(sep, ps)| >= |sep| + 2
    decreases |ps|
  {
    if |ps| > 1 {
      JoinedIsTrimmed(sep, ps[1..]);
      var s := JoinWith(sep, ps);
      assert s[0] == ps[0][0] && s[|s| - 1] == JoinWith(sep, ps[1..])[|JoinWith(sep, ps[1..])| - 1];
    }
  }

  /** Signature round trip: for any name without '(', any text behind without ')', any blanks after
      the commas and any parameters that are trimmed, not empty, closed and without an outer comma,
      splitting gives back the list; except that the one parameter "void" gives none. */
  lemma SignatureRoundTrip(name: string, ps: seq<string>, gap: string, tail: string)
    requires '(' !in name && ')' !in tail && Blank(gap)
    requires forall k :: 0 <= k < |ps| ==> Param(ps[k])
    ensures Params(name + "(" + JoinWith("," + gap, ps) + ")" + tail) == if ps == ["void"] then [] else ps
  {
    var inner := JoinWith("," + gap, ps);
    Brackets(name, inner, tail);
    if ps == [] {
      assert inner == "" && TrimSpace("") == "";
    } else {
      JoinedIsTrimmed("," + gap, ps);
      TrimTrimmed(inner);
      InnerRoundTrip(ps, gap);
    }
  }

  lemma Brackets(name: string, inner: string, tail: string)
    requires '(' !in name && ')' !in tail
    ensures Params(name + "(" + inner + ")" + tail) == ParamsOf(TrimSpace(inner))
  {
    var s := name + "(" + inner + ")" + tail;
    var open, close := |name|, |name| + 1 + |inner|;
    assert s[open] == '(' && s[close] == ')';
    assert s[..open] == name && s[close + 1..] == tail && s[open + 1..close] == inner;
    BracketsFound(s, open, close);
  }

  lemma BracketsFound(s: string, open: nat, close: nat)
    requires open < close < |s| && s[open] == '(' && s[close] == ')'
    requires '(' !in s[..open] && ')' !in s[close + 1..]
    ensures Params(s) == ParamsOf(TrimSpace(s[open + 1..close]))
  {
    FirstIs(s, '(', open);
    LastIs(s, ')', close);
  }

  lemma FirstIs(s: string, c: char, i: nat)
    requires i < |s| && s[i] == c && c !in s[..i]
    ensures FirstAt(s, c) == i
  {
    var j := FirstAt(s, c);
    assert s[i] in s;
    assert forall k :: 0 <= k < i ==> s[k] in s[..i];
    assert forall k :: 0 <= k < j ==> s[k] in s[..j];
  }

  lemma LastIs(s: string, c: char, i: nat)
    requires i < |s| && s[i] == c && c !in s[i + 1..]
    ensures LastAt(s, c) == i
  {
    var j := LastAt(s, c);
    assert s[i] in s;
    assert forall k :: i < k < |s| ==> s[k] in s[i + 1..];
    assert forall k :: j < k < |s| ==> s[k] in s[j + 1..];
  }

  lemma SpacedIsTopLevel(ps: seq<string>, gap: string)
    requires ps != [] && Blank(gap) && forall k :: 0 <= k < |ps| ==> Param(ps[k])
    ensures TopLevel(Spaced(ps, gap)) && TrimAll(Spaced(ps, gap)) == ps
  {
    var qs := Spaced(ps, gap);
    forall k | 0 <= k < |ps| ensures Whole(qs[k]) && Depth(qs[k]) == 0 && TrimSpace(qs[k]) == ps[k] {
      GapKeepsParam(gap, ps[k]);
      TrimGap(gap, ps[k]);
      TrimTrimmed(ps[k]);
    }
  }

  lemma InnerRoundTrip(ps: seq<string>, gap: string)
    requires ps != [] && Blank(gap) && forall k :: 0 <= k < |ps| ==> Param(ps[k])
    ensures ParamsOf(JoinWith("," + gap, ps)) == if ps == ["void"] then [] else ps
  {
    SpacedIsTopLevel(ps, gap);
    SpacedJoin(ps, gap);
    OnlyOneTopLevelCut(Spaced(ps, gap));
    JoinedIsTrimmed("," + gap, ps);
    OnlyVoidJoinsToVoid(ps, gap);
  }

  lemma OnlyVoidJoinsToVoid(ps: seq<string>, gap: string)
    requires ps != []
    ensures JoinWith("," + gap, ps) == "void" <==> ps == ["void"]
  {
    JoinHasComma(ps, gap);
    assert ',' !in "void";
    if |ps| == 1 {
      assert JoinWith("," + gap, ps) == ps[0] && ps == [ps[0]];
    }
  }

  lemma JoinHasComma(ps: seq<string>, gap: string)
    ensures |ps| > 1 ==> ',' in JoinWith("," + gap, ps)
  {
    if |ps| > 1 {
      assert JoinWith("," + gap, ps)[|ps[0]|] == ',';
    }
  }
}
