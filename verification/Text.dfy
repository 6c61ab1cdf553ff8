/** The string operations of Go's strings and strconv packages that the keys are built with. */
module Text {

  /** unicode.IsSpace */
  predicate IsSpace(c: char) {
    c in {' ', '\t', '\n', '\r', '\U{0B}', '\U{0C}', '\U{85}', '\U{A0}', '\U{1680}', '\U{2028}', '\U{2029}',
          '\U{202F}', '\U{205F}', '\U{3000}'}
    || '\U{2000}' <= c <= '\U{200A}'
  }

  function TrimLeft(s: string): (t: string)
    ensures |t| <= |s| && (t == "" || !IsSpace(t[0]))
    ensures forall c :: c in t ==> c in s
  {
    if s != "" && IsSpace(s[0]) then TrimLeft(s[1..]) else s
  }

  function TrimRight(s: string): (t: string)
    ensures |t| <= |s| && t == s[..|t|] && (t == "" || !IsSpace(t[|t| - 1]))
  {
    if s != "" && IsSpace(s[|s| - 1]) then TrimRight(s[..|s| - 1]) else s
  }

  /** strings.TrimSpace */
  function TrimSpace(s: string): (t: string)
    ensures |t| <= |s|
    ensures t == "" || (!IsSpace(t[0]) && !IsSpace(t[|t| - 1]))
    ensures forall c :: c in t ==> c in s
  {
    TrimRight(TrimLeft(s))
  }

  function LowerChar(c: char): char {
    if 'A' <= c <= 'Z' then (c as int - 'A' as int + 'a' as int) as char else c
  }

  function UpperChar(c: char): char {
    if 'a' <= c <= 'z' then (c as int - 'a' as int + 'A' as int) as char else c
  }

  /** strings.ToLower, on ASCII letters */
  function ToLower(s: string): (t: string)
    ensures |t| == |s|
  {
    seq(|s|, i requires 0 <= i < |s| => LowerChar(s[i]))
  }

  /** strings.ToUpper, on ASCII letters */
  function ToUpper(s: string): (t: string)
    ensures |t| == |s|
  {
    seq(|s|, i requires 0 <= i < |s| => UpperChar(s[i]))
  }

  predicate HasPrefix(s: string, p: string) {
    |p| <= |s| && s[..|p|] == p
  }

  predicate HasSuffix(s: string, p: string) {
    |p| <= |s| && s[|s| - |p|..] == p
  }

  /** The word stands at position i. */
  predicate OccursAt(s: string, word: string, i: nat) {
    i + |word| <= |s| && s[i..i + |word|] == word
  }

  predicate Contains(s: string, word: string) {
    exists i :: 0 <= i <= |s| && OccursAt(s, word, i)
  }

  lemma OccursLater(s: string, word: string)
    requires s != ""
    ensures forall j: nat :: OccursAt(s[1..], word, j) <==> OccursAt(s, word, j + 1)
  {
    forall j: nat ensures OccursAt(s[1..], word, j) <==> OccursAt(s, word, j + 1) {
      if j + |word| < |s| {
        assert s[1..][j..j + |word|] == s[j + 1..j + 1 + |word|];
      }
    }
  }

  /** strings.Index: the first position of the word, or -1 */
  function Index(s: string, word: string): (i: int)
    ensures -1 <= i
    ensures i >= 0 ==> OccursAt(s, word, i) && forall j: nat :: j < i ==> !OccursAt(s, word, j)
    ensures i == -1 ==> forall j: nat :: !OccursAt(s, word, j)
  {
    if OccursAt(s, word, 0) then 0
    else if s == "" then -1
    else
      OccursLater(s, word);
      var i := Index(s[1..], word);
      assert forall j: nat :: j > 0 ==> (OccursAt(s, word, j) <==> OccursAt(s[1..], word, j - 1));
      if i < 0 then -1 else i + 1
  }

  // ---------- numbers ----------

  function Digits(n: nat): (s: string)
    ensures s != "" && forall c :: c in s ==> '0' <= c <= '9'
  {
    var last := [('0' as int + n % 10) as char];
    if n < 10 then last else Digits(n / 10) + last
  }

  /** strconv.Itoa */
  function Itoa(n: int): (s: string)
    ensures '\0' !in s
  {
    if n < 0 then "-" + Digits(-n) else Digits(n)
  }

  lemma {:induction false} DigitsAreUnique(m: nat, n: nat)
    requires Digits(m) == Digits(n)
    ensures m == n
  {
    var a, b := Digits(m), Digits(n);
    assert a[|a| - 1] == b[|b| - 1];
    assert m % 10 == n % 10;
    if m >= 10 && n >= 10 {
      assert a[..|a| - 1] == Digits(m / 10) && b[..|b| - 1] == Digits(n / 10);
      DigitsAreUnique(m / 10, n / 10);
    }
  }

  lemma DigitsHaveNoSign(n: nat)
    ensures Digits(n)[0] != '-'
  {
    assert Digits(n)[0] in Digits(n);
  }

  /** A number is read off its decimal form. */
  lemma ItoaIsUnique(m: int, n: int)
    ensures Itoa(m) == Itoa(n) <==> m == n
  {
    if Itoa(m) == Itoa(n) {
      if m >= 0 {
        DigitsHaveNoSign(m);
        assert n >= 0;
        DigitsAreUnique(m, n);
      } else {
        if n >= 0 {
          DigitsHaveNoSign(n);
        }
        assert n < 0;
        assert Itoa(m)[1..] == Digits(-m) && Itoa(n)[1..] == Digits(-n);
        DigitsAreUnique(-m, -n);
      }
    }
  }

  // ---------- joined keys ----------

  const NUL: string := "\0"

  /** Where the first field ends. */
  function FieldEnd(s: string): nat {
    if s == "" || s[0] == '\0' then 0 else 1 + FieldEnd(s[1..])
  }

  lemma {:induction false} FieldEndFound(a: string, b: string)
    requires '\0' !in a
    ensures FieldEnd(a + NUL + b) == |a|
  {
    var s := a + NUL + b;
    if a == "" {
      assert s[0] == '\0';
    } else {
      assert s[0] == a[0] && a[0] in a && s[1..] == a[1..] + NUL + b;
      FieldEndFound(a[1..], b);
    }
  }

  /** A field without NUL is read off the front of a joined key. */
  lemma FirstField(a: string, b: string, c: string, d: string)
    requires '\0' !in a && '\0' !in c
    ensures a + NUL + b == c + NUL + d <==> a == c && b == d
  {
    var s, t := a + NUL + b, c + NUL + d;
    FieldEndFound(a, b);
    FieldEndFound(c, d);
    assert a == s[..FieldEnd(s)] && b == s[FieldEnd(s) + 1..];
    assert c == t[..FieldEnd(t)] && d == t[FieldEnd(t) + 1..];
  }
}
