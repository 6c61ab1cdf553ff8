/** JSON texts (RFC 8259, sections 2 to 7) as concrete syntax, and what the brace scanner makes of
    them. The syntax keeps all insignificant whitespace and every spelling of a string, so each JSON
    text is the printing of some value here. */
module Json {
  import opened BraceScanner

  /** A string body: plain bytes (of UTF-8 or ASCII), and backslash escapes. A `\uXXXX` escape is
      the escape of 'u' followed by four plain digits. */
  datatype StringPart = Char(c: byte) | Escape(c: byte) {
    predicate Valid() { Char? ==> c != QUOTE && c != BACKSLASH }
  }

  datatype Value =
    | Scalar(text: seq<byte>)                           // numbers and true, false, null
    | Str(parts: seq<StringPart>)
    | Arr(blank: seq<byte>, items: seq<Item>)           // blank is what an empty array contains
    | Obj(blank: seq<byte>, members: seq<Member>)

  datatype Item = Item(before: seq<byte>, value: Value, after: seq<byte>)

  datatype Member = Member(before: seq<byte>, key: seq<StringPart>, middle: seq<byte>, item: Item)

  predicate Neutral(text: seq<byte>) {
    forall c :: c in text ==> c != QUOTE && c != OPEN && c != CLOSE
  }

  predicate ValidParts(parts: seq<StringPart>) {
    forall p :: p in parts ==> p.Valid()
  }

  predicate Valid(v: Value) {
    match v
    case Scalar(text) => Neutral(text)
    case Str(parts) => ValidParts(parts)
    case Arr(blank, items) => Neutral(blank) && forall it | it in items :: ValidItem(it)
    case Obj(blank, members) => Neutral(blank) && forall m | m in members :: ValidMember(m)
  }

  predicate ValidItem(it: Item) {
    Neutral(it.before) && Neutral(it.after) && Valid(it.value)
  }

  predicate ValidMember(m: Member) {
    Neutral(m.before) && ValidParts(m.key) && Neutral(m.middle) && ValidItem(m.item)
  }

  const COMMA: seq<byte> := [0x2C]

  function PrintParts(parts: seq<StringPart>): seq<byte> {
    if parts == [] then []
    else (match parts[0] case Char(c) => [c] case Escape(c) => [BACKSLASH, c]) + PrintParts(parts[1..])
  }

  function PrintString(parts: seq<StringPart>): seq<byte> {
    [QUOTE] + PrintParts(parts) + [QUOTE]
  }

  function Print(v: Value): seq<byte>
    decreases v, 0
  {
    match v
    case Scalar(text) => text
    case Str(parts) => PrintString(parts)
    case Arr(blank, items) => [0x5B] + (if items == [] then blank else PrintItems(items)) + [0x5D]
    case Obj(blank, members) => [OPEN] + (if members == [] then blank else PrintMembers(members)) + [CLOSE]
  }

  function PrintItem(it: Item): seq<byte>
    decreases it, 1
  {
    it.before + Print(it.value) + it.after
  }

  function PrintItems(items: seq<Item>): seq<byte>
    decreases items, 0
  {
    if items == [] then []
    else PrintItem(items[0]) + (if |items| == 1 then [] else COMMA + PrintItems(items[1..]))
  }

  function PrintKey(m: Member): seq<byte> {
    m.before + PrintString(m.key) + m.middle + [0x3A]
  }

  function PrintMember(m: Member): seq<byte>
    decreases m, 2
  {
    PrintKey(m) + PrintItem(m.item)
  }

  function PrintMembers(members: seq<Member>): seq<byte>
    decreases members, 0
  {
    if members == [] then []
    else PrintMember(members[0]) + (if |members| == 1 then [] else COMMA + PrintMembers(members[1..]))
  }

  /** The spans of the objects of a value printed at offset `base`, inner objects first. */
  function Objects(v: Value, base: nat): seq<Span>
    decreases v, 0
  {
    match v
    case Scalar(_) => []
    case Str(_) => []
    case Arr(_, items) => ItemObjects(items, base + 1)
    case Obj(_, members) => MemberObjects(members, base + 1) + [Span(base, base + |Print(v)|)]
  }

  function ItemObjects(items: seq<Item>, base: nat): seq<Span>
    decreases items, 0
  {
    if items == [] then []
    else Objects(items[0].value, base + |items[0].before|)
         + ItemObjects(items[1..], base + |PrintItem(items[0])| + 1)
  }

  function MemberStart(m: Member, base: nat): nat {
    base + |PrintKey(m)| + |m.item.before|
  }

  function MemberObjects(members: seq<Member>, base: nat): seq<Span>
    decreases members, 0
  {
    if members == [] then []
    else Objects(members[0].item.value, MemberStart(members[0], base))
         + MemberObjects(members[1..], base + |PrintMember(members[0])| + 1)
  }

  // ---------- the scanner on printed text ----------

  predicate Outside(s: Scanner) { !s.inString && !s.escaped }

  function Emit(s: Scanner, more: seq<Span>): Scanner { s.(spans := s.spans + more) }

  lemma {:induction false} ScanNeutral(s: Scanner, text: seq<byte>, base: nat)
    requires Outside(s) && Neutral(text)
    ensures Scan(s, text, base) == s
    decreases |text|
  {
    if text != [] {
      assert text[0] in text && forall c :: c in text[1..] ==> c in text;
      ScanNeutral(s, text[1..], base + 1);
    }
  }

  lemma {:induction false} ScanParts(s: Scanner, parts: seq<StringPart>, base: nat)
    requires s.inString && !s.escaped && ValidParts(parts)
    ensures Scan(s, PrintParts(parts), base) == s
    decreases |parts|
  {
    if parts != [] {
      var head := match parts[0] case Char(c) => [c] case Escape(c) => [BACKSLASH, c];
      assert parts[0] in parts;
      ScanConcat(s, head, PrintParts(parts[1..]), base);
      ScanPart(s, parts[0], base);
      ScanParts(s, parts[1..], base + |head|);
    }
  }

  lemma ScanPart(s: Scanner, p: StringPart, base: nat)
    requires s.inString && !s.escaped && p.Valid()
    ensures Scan(s, match p case Char(c) => [c] case Escape(c) => [BACKSLASH, c], base) == s
  {
    match p
    case Char(c) => assert [c][1..] == [];
    case Escape(c) =>
      assert [BACKSLASH, c][1..] == [c] && [c][1..] == [];
      assert Scan(s, [BACKSLASH, c], base) == Scan(Step(s, BACKSLASH, base), [c], base + 1);
  }

  lemma ScanOne(s: Scanner, c: byte, base: nat)
    ensures Scan(s, [c], base) == Step(s, c, base)
  {
    assert [c][1..] == [];
  }

  lemma ScanString(s: Scanner, parts: seq<StringPart>, base: nat)
    requires Outside(s) && ValidParts(parts)
    ensures Scan(s, PrintString(parts), base) == s
  {
    var quoted := s.(inString := true);
    ScanConcat(s, [QUOTE] + PrintParts(parts), [QUOTE], base);
    ScanConcat(s, [QUOTE], PrintParts(parts), base);
    ScanOne(s, QUOTE, base);
    ScanParts(quoted, parts, base + 1);
    ScanOne(quoted, QUOTE, base + 1 + |PrintParts(parts)|);
  }

  lemma ScanKey(s: Scanner, m: Member, base: nat)
    requires Outside(s) && ValidMember(m)
    ensures Scan(s, PrintKey(m), base) == s
  {
    var a, b := m.before + PrintString(m.key), m.before + PrintString(m.key) + m.middle;
    ScanConcat(s, b, [0x3A], base);
    ScanConcat(s, a, m.middle, base);
    ScanConcat(s, m.before, PrintString(m.key), base);
    ScanNeutral(s, m.before, base);
    ScanString(s, m.key, base + |m.before|);
    ScanNeutral(s, m.middle, base + |a|);
    ScanOne(s, 0x3A, base + |b|);
  }

  lemma ScanThree(s: Scanner, a: seq<byte>, b: seq<byte>, c: seq<byte>, base: nat)
    ensures Scan(s, a + b + c, base) == Scan(Scan(Scan(s, a, base), b, base + |a|), c, base + |a| + |b|)
  {
    ScanConcat(s, a + b, c, base);
    ScanConcat(s, a, b, base);
  }

  /** An array: the brackets mean nothing to the scanner. */
  lemma ScanSquare(s: Scanner, inner: seq<byte>, found: seq<Span>, base: nat)
    requires Outside(s) && Scan(s, inner, base + 1) == Emit(s, found)
    ensures Scan(s, [0x5B] + inner + [0x5D], base) == Emit(s, found)
  {
    ScanThree(s, [0x5B], inner, [0x5D], base);
    ScanOne(s, 0x5B, base);
    ScanOne(Emit(s, found), 0x5D, base + 1 + |inner|);
  }

  /** An object: the opening brace is pushed, and popped again by its own closing brace. */
  lemma ScanCurly(s: Scanner, inner: seq<byte>, found: seq<Span>, base: nat)
    requires Outside(s)
    requires var pushed := s.(stack := s.stack + [base]); Scan(pushed, inner, base + 1) == Emit(pushed, found)
    ensures Scan(s, [OPEN] + inner + [CLOSE], base) == Emit(s, found + [Span(base, base + |inner| + 2)])
  {
    var pushed := s.(stack := s.stack + [base]);
    ScanThree(s, [OPEN], inner, [CLOSE], base);
    ScanOne(s, OPEN, base);
    ScanOne(Emit(pushed, found), CLOSE, base + 1 + |inner|);
    assert pushed.stack[..|s.stack|] == s.stack;
    assert s.spans + found + [Span(base, base + |inner| + 2)] == s.spans + (found + [Span(base, base + |inner| + 2)]);
  }

  /** Scanning a printed value from outside a string comes back to the same stack, still outside,
      and has emitted one span per object of the value, in post-order. */
  lemma {:induction false} ScanValue(s: Scanner, v: Value, base: nat)
    requires Outside(s) && Valid(v)
    ensures Scan(s, Print(v), base) == Emit(s, Objects(v, base))
    decreases v, 0
  {
    assert Emit(s, []) == s by { assert s.spans + [] == s.spans; }
    match v
    case Scalar(text) => ScanNeutral(s, text, base);
    case Str(parts) => ScanString(s, parts, base);
    case Arr(blank, items) =>
      if items == [] {
        ScanNeutral(s, blank, base + 1);
        ScanSquare(s, blank, [], base);
      } else {
        ScanItems(s, items, base + 1);
        ScanSquare(s, PrintItems(items), ItemObjects(items, base + 1), base);
      }
    case Obj(blank, members) => ScanObject(s, v, base);
  }

  function Inner(v: Value): seq<byte>
    requires v.Obj?
  {
    if v.members == [] then v.blank else PrintMembers(v.members)
  }

  lemma ObjectShape(v: Value, base: nat)
    requires v.Obj?
    ensures Print(v) == [OPEN] + Inner(v) + [CLOSE]
    ensures Objects(v, base) == MemberObjects(v.members, base + 1) + [Span(base, base + |Inner(v)| + 2)]
  {}

  lemma {:induction false} ScanObject(s: Scanner, v: Value, base: nat)
    requires Outside(s) && Valid(v) && v.Obj?
    ensures Scan(s, Print(v), base) == Emit(s, Objects(v, base))
    decreases v, -1
  {
    var pushed := s.(stack := s.stack + [base]);
    var found := MemberObjects(v.members, base + 1);
    assert Scan(pushed, Inner(v), base + 1) == Emit(pushed, found) by {
      if v.members == [] {
        ScanNeutral(pushed, v.blank, base + 1);
        assert pushed.spans + [] == pushed.spans;
      } else {
        ScanMembers(pushed, v.members, base + 1);
      }
    }
    ScanCurly(s, Inner(v), found, base);
    ObjectShape(v, base);
  }

  lemma {:induction false} ScanItem(s: Scanner, it: Item, base: nat)
    requires Outside(s) && ValidItem(it)
    ensures Scan(s, PrintItem(it), base) == Emit(s, Objects(it.value, base + |it.before|))
    decreases it, 1
  {
    ScanConcat(s, it.before + Print(it.value), it.after, base);
    ScanConcat(s, it.before, Print(it.value), base);
    ScanNeutral(s, it.before, base);
    ScanValue(s, it.value, base + |it.before|);
    ScanNeutral(Emit(s, Objects(it.value, base + |it.before|)), it.after, base + |it.before| + |Print(it.value)|);
  }

  /** A comma between two elements changes nothing. */
  lemma ScanComma(s: Scanner, here: seq<byte>, rest: seq<byte>, s1: Scanner, s2: Scanner, base: nat)
    requires Scan(s, here, base) == s1 && Outside(s1) && Scan(s1, rest, base + |here| + 1) == s2
    ensures Scan(s, here + (COMMA + rest), base) == s2
  {
    ScanThree(s, here, COMMA, rest, base);
    assert here + (COMMA + rest) == here + COMMA + rest;
    ScanOne(s1, 0x2C, base + |here|);
  }

  lemma ItemsOne(items: seq<Item>, base: nat)
    requires |items| == 1
    ensures PrintItems(items) == PrintItem(items[0])
    ensures ItemObjects(items, base) == Objects(items[0].value, base + |items[0].before|)
  {
    assert items[1..] == [];
  }

  lemma ItemsMore(items: seq<Item>, base: nat)
    requires |items| > 1
    ensures PrintItems(items) == PrintItem(items[0]) + (COMMA + PrintItems(items[1..]))
    ensures ItemObjects(items, base)
         == Objects(items[0].value, base + |items[0].before|) +
           ItemObjects(items[1..], base + |PrintItem(items[0])| + 1)
  {}

  lemma EmitTwice(s: Scanner, a: seq<Span>, b: seq<Span>)
    ensures Emit(Emit(s, a), b) == Emit(s, a + b)
  {
    assert s.spans + a + b == s.spans + (a + b);
  }

  /** The first element, the comma and the other elements. */
  lemma ScanFirstAndRest(s: Scanner, items: seq<Item>, base: nat, found: seq<Span>, rest: seq<Span>)
    requires Outside(s) && |items| > 1
    requires found == Objects(items[0].value, base + |items[0].before|)
    requires rest == ItemObjects(items[1..], base + |PrintItem(items[0])| + 1)
    requires Scan(s, PrintItem(items[0]), base) == Emit(s, found)
    requires Scan(Emit(s, found), PrintItems(items[1..]), base + |PrintItem(items[0])| + 1) ==
        Emit(Emit(s, found), rest)
    ensures Scan(s, PrintItems(items), base) == Emit(s, ItemObjects(items, base))
  {
    ItemsMore(items, base);
    ScanComma(s, PrintItem(items[0]), PrintItems(items[1..]), Emit(s, found), Emit(Emit(s, found), rest), base);
    EmitTwice(s, found, rest);
  }

  lemma {:induction false} ScanItems(s: Scanner, items: seq<Item>, base: nat)
    requires Outside(s) && items != [] && forall it | it in items :: ValidItem(it)
    ensures Scan(s, PrintItems(items), base) == Emit(s, ItemObjects(items, base))
    decreases items, 0
  {
    var it, next := items[0], base + |PrintItem(items[0])| + 1;
    assert it in items;
    ScanItem(s, it, base);
    if |items| == 1 {
      ItemsOne(items, base);
    } else {
      var found := Objects(it.value, base + |it.before|);
      ScanItems(Emit(s, found), items[1..], next);
      ScanFirstAndRest(s, items, base, found, ItemObjects(items[1..], next));
    }
  }

  lemma {:induction false} ScanMember(s: Scanner, m: Member, base: nat)
    requires Outside(s) && ValidMember(m)
    ensures Scan(s, PrintMember(m), base) == Emit(s, Objects(m.item.value, MemberStart(m, base)))
    decreases m, 2
  {
    ScanConcat(s, PrintKey(m), PrintItem(m.item), base);
    ScanKey(s, m, base);
    ScanItem(s, m.item, base + |PrintKey(m)|);
  }

  lemma MembersOne(members: seq<Member>, base: nat)
    requires |members| == 1
    ensures PrintMembers(members) == PrintMember(members[0])
    ensures MemberObjects(members, base) == Objects(members[0].item.value, MemberStart(members[0], base))
  {
    assert members[1..] == [];
  }

  lemma MembersMore(members: seq<Member>, base: nat)
    requires |members| > 1
    ensures PrintMembers(members) == PrintMember(members[0]) + (COMMA + PrintMembers(members[1..]))
    ensures MemberObjects(members, base)
         == Objects(members[0].item.value, MemberStart(members[0], base)) +
           MemberObjects(members[1..], base + |PrintMember(members[0])| + 1)
  {}

  /** The first member, the comma and the other members. */
  lemma ScanFirstMemberAndRest(s: Scanner, members: seq<Member>, base: nat, found: seq<Span>, rest: seq<Span>)
    requires Outside(s) && |members| > 1
    requires found == Objects(members[0].item.value, MemberStart(members[0], base))
    requires rest == MemberObjects(members[1..], base + |PrintMember(members[0])| + 1)
    requires Scan(s, PrintMember(members[0]), base) == Emit(s, found)
    requires Scan(Emit(s, found), PrintMembers(members[1..]), base + |PrintMember(members[0])| + 1) ==
        Emit(Emit(s, found), rest)
    ensures Scan(s, PrintMembers(members), base) == Emit(s, MemberObjects(members, base))
  {
    MembersMore(members, base);
    ScanComma(s, PrintMember(members[0]), PrintMembers(members[1..]), Emit(s, found), Emit(Emit(s, found), rest), base);
    EmitTwice(s, found, rest);
  }

  lemma {:induction false} ScanMembers(s: Scanner, members: seq<Member>, base: nat)
    requires Outside(s) && members != [] && forall m | m in members :: ValidMember(m)
    ensures Scan(s, PrintMembers(members), base) == Emit(s, MemberObjects(members, base))
    decreases members, 0
  {
    var m, next := members[0], base + |PrintMember(members[0])| + 1;
    assert m in members;
    ScanMember(s, m, base);
    if |members| == 1 {
      MembersOne(members, base);
    } else {
      var found := Objects(m.item.value, MemberStart(m, base));
      ScanMembers(Emit(s, found), members[1..], next);
      ScanFirstMemberAndRest(s, members, base, found, MemberObjects(members[1..], next));
    }
  }

  /** Of a printed value cut at any byte, the scanner finds exactly the objects complete before the
      cut, in the order of their ends. */
  lemma SpansOfCutValue(v: Value, k: nat)
    requires Valid(v) && k <= |Print(v)|
    ensures Spans(Print(v)) == Objects(v, 0)
    ensures Spans(Print(v)[..k]) <= Objects(v, 0)
    ensures forall m :: 0 <= m < |Objects(v, 0)| ==> (m < |Spans(Print(v)[..k])| <==> Objects(v, 0)[m].end <= k)
  {
    ScanValue(Start, v, 0);
    assert [] + Objects(v, 0) == Objects(v, 0);
    SpansOfPrefix(Print(v), k);
  }
}
