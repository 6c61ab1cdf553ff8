/** The indentation parser of the agent frontmatter (extension/opencode/index.ts:39-80), as pure
    definitions: the text of a line, and a recursive-descent reading of a list of lines. */
module Frontmatter {
  import opened Options

  datatype Value = Text(text: string) | Branch(entries: map<string, Value>)

  /** One `key: value` line; an empty value opens a nested map. */
  datatype Line = Line(indent: nat, key: string, value: string)

  // ---------- text ----------

  /** What String.prototype.trim removes. */
  predicate IsWhite(c: char) {
    c in {' ', '\t', '\n', '\r', '\U{0B}', '\U{0C}', '\U{A0}', '\U{1680}', '\U{2028}', '\U{2029}', '\U{202F}',
          '\U{205F}', '\U{3000}', '\U{FEFF}'}
    || '\U{2000}' <= c <= '\U{200A}'
  }

  function TrimLeft(s: string): string {
    if s != "" && IsWhite(s[0]) then TrimLeft(s[1..]) else s
  }

  function TrimRight(s: string): string {
    if s != "" && IsWhite(s[|s| - 1]) then TrimRight(s[..|s| - 1]) else s
  }

  function Trim(s: string): (t: string)
    ensures |t| <= |s|
  {
    TrimShortens(s);
    TrimRight(TrimLeft(s))
  }

  lemma {:induction false} TrimShortens(s: string)
    ensures |TrimLeft(s)| <= |s| && |TrimRight(s)| <= |s| && |TrimRight(TrimLeft(s))| <= |s|
    decreases |s|
  {
    if s != "" {
      TrimShortens(s[1..]);
      TrimShortens(s[..|s| - 1]);
    }
    TrimRightShortens(TrimLeft(s));
  }

  lemma {:induction false} TrimRightShortens(s: string)
    ensures |TrimRight(s)| <= |s|
  {
    if s != "" {
      TrimRightShortens(s[..|s| - 1]);
    }
  }

  function IndexOf(s: string, c: char): (i: nat)
    ensures i <= |s| && c !in s[..i] && (i < |s| ==> s[i] == c)
  {
    if s == "" || s[0] == c then 0 else 1 + IndexOf(s[1..], c)
  }

  /** text.split(/\r?\n/) */
  function SplitLines(text: string): seq<string>
    decreases |text|
  {
    var i := IndexOf(text, '\n');
    if i == |text| then [text]
    else [DropReturn(text[..i])] + SplitLines(text[i + 1..])
  }

  function DropReturn(line: string): string {
    if line != "" && line[|line| - 1] == '\r' then line[..|line| - 1] else line
  }

  function Unquote(s: string): string {
    if s != "" && s[0] == s[|s| - 1] && s[0] in {'"', '\''} then
      if |s| >= 2 then s[1..|s| - 1] else ""
    else s
  }

  function ParseLine(raw: string): Option<Line> {
    var trimmed := Trim(raw);
    if trimmed == "" || trimmed[0] == '#' then None
    else
      var idx := IndexOf(trimmed, ':');
      if idx == 0 || idx == |trimmed| then None
      else Some(Line(|raw| - |trimmed|, Unquote(Trim(trimmed[..idx])), Trim(trimmed[idx + 1..])))
  }

  /** Blank lines, comments and lines without a key are skipped. */
  function LineOf(raw: string): seq<Line> {
    match ParseLine(raw) case None => [] case Some(line) => [line]
  }

  function ParseLines(raws: seq<string>): seq<Line> {
    if raws == [] then [] else LineOf(raws[0]) + ParseLines(raws[1..])
  }

  // ---------- structure ----------

  type Entries = map<string, Value>

  datatype Block = Block(entries: Entries, rest: seq<Line>)

  /** Reads the lines indented deeper than `parent` into m; stops at the first that is not. */
  function ReadBlock(lines: seq<Line>, parent: int, m: Entries): (b: Block)
    ensures |b.rest| <= |lines|
    decreases |lines|
  {
    if lines == [] || lines[0].indent <= parent then Block(m, lines)
    else if lines[0].value == "" then
      var child := ReadBlock(lines[1..], lines[0].indent, map[]);
      ReadBlock(child.rest, parent, m[lines[0].key := Branch(child.entries)])
    else ReadBlock(lines[1..], parent, m[lines[0].key := Text(Unquote(lines[0].value))])
  }

  function Parse(text: string): Entries {
    ReadBlock(ParseLines(SplitLines(text)), -1, map[]).entries
  }

  // ---------- printing ----------

  /** A document in writing order. */
  datatype Doc = Leaf(text: string) | Fork(children: seq<Entry>)
  datatype Entry = Entry(key: string, doc: Doc)

  predicate Printable(entries: seq<Entry>)
    decreases entries
  {
    forall e | e in entries ::
      '\n' !in e.key && ':' !in e.key
      && (match e.doc case Leaf(text) => '\n' !in text case Fork(children) => Printable(children))
  }

  /** The map a document stands for; a repeated key keeps its last value. */
  function Meaning(entries: seq<Entry>, m: Entries): Entries
    decreases entries, 0
  {
    if entries == [] then m
    else Meaning(entries[1..], m[entries[0].key := DocMeaning(entries[0].doc)])
  }

  function DocMeaning(doc: Doc): Value
    decreases doc, 1
  {
    match doc case Leaf(text) => Text(text) case Fork(children) => Branch(Meaning(children, map[]))
  }

  function Quote(s: string): string { "\"" + s + "\"" }

  function Spaces(n: nat): string { seq(n, i => ' ') }

  /** Keys and values quoted, each nesting level indented by `step` more spaces. */
  function PrintEntry(e: Entry, indent: nat): string {
    Spaces(indent) + Quote(e.key) + ":" + (match e.doc case Leaf(text) => " " + Quote(text) case Fork(_) => "")
  }

  function PrintLines(entries: seq<Entry>, indent: nat, step: nat): seq<string>
    decreases entries, 0
  {
    if entries == [] then []
    else
      [PrintEntry(entries[0], indent)] + PrintDoc(entries[0].doc, indent + step, step) +
        PrintLines(entries[1..], indent, step)
  }

  function PrintDoc(doc: Doc, indent: nat, step: nat): seq<string>
    decreases doc, 1
  {
    match doc case Leaf(_) => [] case Fork(children) => PrintLines(children, indent, step)
  }

  function Join(lines: seq<string>): string {
    if lines == [] then "" else if |lines| == 1 then lines[0] else lines[0] + "\n" + Join(lines[1..])
  }

  // ---------- lines round trip ----------

  predicate Tight(s: string) {
    s != "" && !IsWhite(s[0]) && !IsWhite(s[|s| - 1])
  }

  lemma TrimTight(s: string)
    requires Tight(s)
    ensures Trim(s) == s
  {}

  lemma {:induction false} TrimIndented(n: nat, s: string)
    requires Tight(s)
    ensures Trim(Spaces(n) + s) == s
    decreases n
  {
    if n == 0 {
      assert Spaces(0) + s == s;
    } else {
      assert (Spaces(n) + s)[1..] == Spaces(n - 1) + s;
      assert TrimLeft(Spaces(n) + s) == TrimLeft(Spaces(n - 1) + s);
      TrimIndented(n - 1, s);
    }
  }

  lemma {:induction false} IndexOfFirst(a: string, c: char, b: string)
    requires c !in a
    ensures IndexOf(a + [c] + b, c) == |a|
  {
    if a == "" {
      assert (a + [c] + b)[0] == c;
    } else {
      assert (a + [c] + b)[0] == a[0] && (a + [c] + b)[1..] == a[1..] + [c] + b;
      assert a[0] in a && forall x :: x in a[1..] ==> x in a;
      IndexOfFirst(a[1..], c, b);
    }
  }

  /** The line an entry is printed as. */
  function EntryLine(e: Entry, indent: nat): Line {
    Line(indent, e.key, match e.doc case Leaf(text) => Quote(text) case Fork(_) => "")
  }

  /** What an entry's line holds behind the colon. */
  function Tail(doc: Doc): string {
    match doc case Leaf(text) => " " + Quote(text) case Fork(_) => ""
  }

  /** A key and a tail with a colon between them, indented, are read back as both. */
  lemma KeyAndTailAreRead(indent: nat, key: string, tail: string)
    requires ':' !in key && Tight(key) && key[0] != '#' && (tail == "" || !IsWhite(tail[|tail| - 1]))
    ensures ParseLine(Spaces(indent) + (key + ":" + tail)) == Some(Line(indent, Unquote(key), Trim(tail)))
  {
    var body := key + ":" + tail;
    assert body[0] == key[0] && body[|body| - 1] == (if tail == "" then ':' else tail[|tail| - 1]);
    TrimIndented(indent, body);
    IndexOfFirst(key, ':', tail);
    assert body[..|key|] == key && body[|key| + 1..] == tail;
    TrimTight(key);
  }

  lemma TailIsRead(doc: Doc)
    ensures Trim(Tail(doc)) == match doc case Leaf(text) => Quote(text) case Fork(_) => ""
    ensures Tail(doc) == "" || !IsWhite(Tail(doc)[|Tail(doc)| - 1])
  {
    match doc
    case Leaf(text) =>
      TrimIndented(1, Quote(text));
      assert Spaces(1) == " ";
    case Fork(_) =>
  }

  lemma QuotedKey(key: string)
    requires ':' !in key
    ensures ':' !in Quote(key) && Tight(Quote(key)) && Quote(key)[0] != '#' && Unquote(Quote(key)) == key
  {
    assert Quote(key)[1..|Quote(key)| - 1] == key;
  }

  lemma EntryText(e: Entry, indent: nat)
    ensures PrintEntry(e, indent) == Spaces(indent) + (Quote(e.key) + ":" + Tail(e.doc))
  {}

  lemma LineRoundTrip(e: Entry, indent: nat)
    requires ':' !in e.key
    ensures ParseLine(PrintEntry(e, indent)) == Some(EntryLine(e, indent))
  {
    EntryText(e, indent);
    QuotedKey(e.key);
    TailIsRead(e.doc);
    KeyAndTailAreRead(indent, Quote(e.key), Tail(e.doc));
  }

  // ---------- structure round trip ----------

  function DocLines(doc: Doc, indent: nat, step: nat): seq<Line>
    decreases doc, 1
  {
    match doc case Leaf(_) => [] case Fork(children) => EntryLines(children, indent, step)
  }

  function EntryLines(entries: seq<Entry>, indent: nat, step: nat): seq<Line>
    decreases entries, 0
  {
    if entries == [] then []
    else
      [EntryLine(entries[0], indent)] + DocLines(entries[0].doc, indent + step, step) +
        EntryLines(entries[1..], indent, step)
  }

  lemma ReadLine(line: Line, tail: seq<Line>, parent: int, m: Entries)
    requires parent < line.indent
    ensures ReadBlock([line] + tail, parent, m) ==
            if line.value == "" then
              var child := ReadBlock(tail, line.indent, map[]);
              ReadBlock(child.rest, parent, m[line.key := Branch(child.entries)])
            else ReadBlock(tail, parent, m[line.key := Text(Unquote(line.value))])
  {
    assert ([line] + tail)[1..] == tail;
  }

  lemma UnquoteQuote(s: string)
    ensures Unquote(Quote(s)) == s && Quote(s) != ""
  {}

  lemma EntryLinesUnfold(entries: seq<Entry>, indent: nat, step: nat, rest: seq<Line>)
    requires entries != []
    ensures EntryLines(entries, indent, step) + rest ==
            [EntryLine(entries[0], indent)] +
              (DocLines(entries[0].doc, indent + step, step) + (EntryLines(entries[1..], indent, step) + rest))
  {
    Regroup([EntryLine(entries[0], indent)], DocLines(entries[0].doc, indent + step, step),
            EntryLines(entries[1..], indent, step), rest);
  }

  lemma Regroup<T>(a: seq<T>, b: seq<T>, c: seq<T>, d: seq<T>)
    ensures a + b + c + d == a + (b + (c + d))
  {}

  /** Reading the lines of some entries at one level adds their meaning to the map and goes on
      behind them. */
  lemma {:induction false} ReadEntries(entries: seq<Entry>, indent: nat, step: nat, parent: int, m: Entries,
                                       rest: seq<Line>)
    requires parent < indent && 1 <= step
    requires rest != [] ==> rest[0].indent <= indent
    ensures ReadBlock(EntryLines(entries, indent, step) + rest, parent, m) ==
        ReadBlock(rest, parent, Meaning(entries, m))
    decreases entries, 0
  {
    if entries == [] {
      assert EntryLines(entries, indent, step) + rest == rest;
    } else {
      EntryLinesUnfold(entries, indent, step, rest);
      FirstIndent(entries[1..], indent, step, rest);
      ReadEntry(entries[0], indent, step, parent, m, EntryLines(entries[1..], indent, step) + rest);
      ReadEntries(entries[1..], indent, step, parent, m[entries[0].key := DocMeaning(entries[0].doc)], rest);
    }
  }

  lemma {:induction false} ReadEntry(e: Entry, indent: nat, step: nat, parent: int, m: Entries, after: seq<Line>)
    requires parent < indent && 1 <= step
    requires after != [] ==> after[0].indent <= indent
    ensures ReadBlock([EntryLine(e, indent)] + (DocLines(e.doc, indent + step, step) + after), parent, m)
         == ReadBlock(after, parent, m[e.key := DocMeaning(e.doc)])
    decreases e, 2
  {
    ReadLine(EntryLine(e, indent), DocLines(e.doc, indent + step, step) + after, parent, m);
    match e.doc
    case Leaf(text) =>
      assert DocLines(e.doc, indent + step, step) + after == after;
      UnquoteQuote(text);
    case Fork(_) =>
      ReadFork(e.doc, indent, step, after);
  }

  /** The children of a nested map are read up to the first line that is not deeper. */
  lemma {:induction false} ReadFork(doc: Doc, indent: nat, step: nat, after: seq<Line>)
    requires doc.Fork? && 1 <= step && (after != [] ==> after[0].indent <= indent)
    ensures ReadBlock(DocLines(doc, indent + step, step) + after, indent, map[]) ==
        Block(Meaning(doc.children, map[]), after)
    decreases doc, 1
  {
    ReadEntries(doc.children, indent + step, step, indent, map[], after);
  }

  lemma FirstIndent(entries: seq<Entry>, indent: nat, step: nat, rest: seq<Line>)
    requires rest != [] ==> rest[0].indent <= indent
    ensures var after := EntryLines(entries, indent, step) + rest; after != [] ==> after[0].indent <= indent
  {}

  lemma ParseLinesCons(raw: string, rest: seq<string>)
    ensures ParseLines([raw] + rest) == LineOf(raw) + ParseLines(rest)
  {
    assert ([raw] + rest)[1..] == rest;
  }

  lemma {:induction false} ParseLinesConcat(a: seq<string>, b: seq<string>)
    ensures ParseLines(a + b) == ParseLines(a) + ParseLines(b)
  {
    if a == [] {
      assert a + b == b;
    } else {
      assert a == [a[0]] + a[1..] && a + b == [a[0]] + (a[1..] + b);
      ParseLinesCons(a[0], a[1..]);
      ParseLinesCons(a[0], a[1..] + b);
      ParseLinesConcat(a[1..], b);
      Assoc(LineOf(a[0]), ParseLines(a[1..]), ParseLines(b));
    }
  }

  lemma Assoc<T>(a: seq<T>, b: seq<T>, c: seq<T>)
    ensures a + (b + c) == a + b + c
  {}

  lemma {:induction false} PrintedLinesParse(entries: seq<Entry>, indent: nat, step: nat)
    requires Printable(entries)
    ensures ParseLines(PrintLines(entries, indent, step)) == EntryLines(entries, indent, step)
    decreases entries, 0
  {
    if entries != [] {
      var e := entries[0];
      assert e in entries;
      LineRoundTrip(e, indent);
      PrintedDocParses(e, indent + step, step);
      PrintedLinesParse(entries[1..], indent, step);
      var first := [PrintEntry(e, indent)];
      assert first[1..] == [] && ParseLines(first) == [EntryLine(e, indent)];
      ParseLinesConcat(first, PrintDoc(e.doc, indent + step, step));
      ParseLinesConcat(first + PrintDoc(e.doc, indent + step, step), PrintLines(entries[1..], indent, step));
    }
  }

  lemma {:induction false} PrintedDocParses(e: Entry, indent: nat, step: nat)
    requires Printable([e])
    ensures ParseLines(PrintDoc(e.doc, indent, step)) == DocLines(e.doc, indent, step)
    decreases e, 1
  {
    assert e in [e];
    match e.doc
    case Leaf(_) =>
    case Fork(children) => PrintedLinesParse(children, indent, step);
  }

  // ---------- text round trip ----------

  /** A line that splitting a joined text gives back. */
  predicate OneLine(s: string) {
    '\n' !in s && (s == "" || s[|s| - 1] != '\r')
  }

  lemma {:induction false} SplitJoined(lines: seq<string>)
    requires lines != [] && forall s :: s in lines ==> OneLine(s)
    ensures SplitLines(Join(lines)) == lines
    decreases |lines|
  {
    var s := lines[0];
    assert s in lines;
    if |lines| == 1 {
      NoNewline(s);
      assert Join(lines) == s && lines == [s];
    } else {
      var rest := Join(lines[1..]);
      var text := s + "\n" + rest;
      assert Join(lines) == text;
      IndexOfFirst(s, '\n', rest);
      assert text[..|s|] == s && text[|s| + 1..] == rest;
      SplitJoined(lines[1..]);
      assert SplitLines(text) == [s] + lines[1..];
    }
  }

  lemma NoNewline(s: string)
    requires '\n' !in s
    ensures IndexOf(s, '\n') == |s|
  {
    assert forall k :: 0 <= k < |s| ==> s[k] in s;
  }

  lemma {:induction false} PrintedLinesAreLines(entries: seq<Entry>, indent: nat, step: nat)
    requires Printable(entries)
    ensures forall s :: s in PrintLines(entries, indent, step) ==> OneLine(s)
    decreases entries, 0
  {
    if entries != [] {
      var e := entries[0];
      assert e in entries;
      PrintedLinesAreLines(entries[1..], indent, step);
      assert OneLine(PrintEntry(e, indent));
      match e.doc
      case Leaf(_) =>
      case Fork(children) => PrintedLinesAreLines(children, indent + step, step);
    }
  }

  /** Parser round trip: for every nested document whose keys have no colon or newline and whose
      values have no newline, at any start indentation and any step, parsing its printed text gives
      the map it stands for. */
  lemma RoundTrip(entries: seq<Entry>, indent: nat, step: nat)
    requires Printable(entries) && 1 <= step
    ensures Parse(Join(PrintLines(entries, indent, step))) == Meaning(entries, map[])
  {
    var raws := PrintLines(entries, indent, step);
    var lines := EntryLines(entries, indent, step);
    if entries == [] {
      assert SplitLines("") == [""];
      assert [""][1..] == [] && ParseLine("") == None;
    } else {
      PrintedLinesAreLines(entries, indent, step);
      SplitJoined(raws);
      PrintedLinesParse(entries, indent, step);
      ReadEntries(entries, indent, step, -1, map[], []);
      assert lines + [] == lines;
    }
  }

  // ---------- trailing blanks ----------

  lemma {:induction false} TrimBothSides(s: string, n: nat)
    requires Tight(s)
    ensures TrimRight(s + Spaces(n)) == s
    decreases n
  {
    if n == 0 {
      assert s + Spaces(0) == s;
    } else {
      var t := s + Spaces(n);
      assert t[|t| - 1] == ' ' && t[..|t| - 1] == s + Spaces(n - 1);
      TrimBothSides(s, n - 1);
    }
  }

  /** The white characters at the two ends. */
  function Leading(s: string): nat {
    if s != "" && IsWhite(s[0]) then 1 + Leading(s[1..]) else 0
  }

  function Trailing(s: string): nat {
    if s != "" && IsWhite(s[|s| - 1]) then 1 + Trailing(s[..|s| - 1]) else 0
  }

  lemma {:induction false} LeadingIsTrimmed(s: string)
    ensures |TrimLeft(s)| + Leading(s) == |s|
    ensures TrimLeft(s) == "" || !IsWhite(TrimLeft(s)[0])
    ensures Leading(s) <= |s| && TrimLeft(s) == s[Leading(s)..]
  {
    if s != "" && IsWhite(s[0]) {
      LeadingIsTrimmed(s[1..]);
    }
  }

  lemma {:induction false} TrailingIsTrimmed(s: string)
    ensures |TrimRight(s)| + Trailing(s) == |s|
  {
    if s != "" && IsWhite(s[|s| - 1]) {
      TrailingIsTrimmed(s[..|s| - 1]);
    }
  }

  /** What precedes a text with something in it does not change its end. */
  lemma {:induction false} TrailingOfTail(s: string, i: nat)
    requires i <= |s| && TrimRight(s[i..]) != ""
    ensures Trailing(s) == Trailing(s[i..])
    decreases |s|
  {
    var t := s[i..];
    assert t != "" && t[|t| - 1] == s[|s| - 1];
    if IsWhite(s[|s| - 1]) {
      assert t[..|t| - 1] == s[..|s| - 1][i..];
      TrailingOfTail(s[..|s| - 1], i);
    }
  }

  /** The indent of any line that is read is its leading white characters and its trailing ones
      together; it is the leading ones alone if and only if the line does not end in a white
      character. */
  lemma IndentCountsTrailingBlanks(raw: string)
    requires ParseLine(raw).Some?
    ensures ParseLine(raw).value.indent == Leading(raw) + Trailing(raw)
    ensures ParseLine(raw).value.indent == Leading(raw) <==> !IsWhite(raw[|raw| - 1])
  {
    LeadingIsTrimmed(raw);
    TrailingIsTrimmed(TrimLeft(raw));
    TrailingOfTail(raw, Leading(raw));
  }

  /** A printed line with blanks behind it. */
  lemma PrintedWithBlanks(before: nat, e: Entry, after: nat)
    requires ':' !in e.key
    ensures ParseLine(PrintEntry(e, before) + Spaces(after)) == Some(EntryLine(e, before + after))
  {
    var body := PrintEntry(e, 0);
    var raw := PrintEntry(e, before) + Spaces(after);
    LineRoundTrip(e, 0);
    TrimBody(e, before, after);
    SameTrim(raw, body);
  }

  lemma TrimBody(e: Entry, before: nat, after: nat)
    ensures Trim(PrintEntry(e, 0)) == PrintEntry(e, 0) == Trim(PrintEntry(e, before) + Spaces(after))
    ensures |PrintEntry(e, before)| == before + |PrintEntry(e, 0)|
  {
    var body := PrintEntry(e, 0);
    assert Spaces(0) == "";
    assert Tight(body) by {
      assert body[0] == '"' && body[|body| - 1] in {':', '"'};
    }
    assert PrintEntry(e, before) + Spaces(after) == Spaces(before) + (body + Spaces(after));
    TrimLeftIndented(before, body + Spaces(after));
    TrimBothSides(body, after);
    TrimTight(body);
  }

  /** Lines with the same trimmed text differ in their indentation only. */
  lemma SameTrim(raw: string, other: string)
    requires Trim(raw) == Trim(other) && ParseLine(other).Some?
    ensures ParseLine(raw) == Some(ParseLine(other).value.(indent := |raw| - |Trim(raw)|))
  {}

  lemma {:induction false} TrimLeftIndented(n: nat, s: string)
    requires s != "" && !IsWhite(s[0])
    ensures TrimLeft(Spaces(n) + s) == s
    decreases n
  {
    if n == 0 {
      assert Spaces(0) + s == s;
    } else {
      assert (Spaces(n) + s)[1..] == Spaces(n - 1) + s;
      TrimLeftIndented(n - 1, s);
    }
  }

  /** Two blanks after a map key move its child out of the map. */
  lemma TrailingBlanksLoseTheChild()
    ensures var a, b := Entry("a", Fork([])), Entry("b", Leaf("1"));
            && ParseLine(PrintEntry(a, 0) + "  ") == Some(Line(2, "a", ""))
            && ParseLine(PrintEntry(b, 2)) == Some(EntryLine(b, 2))
            && ReadBlock([Line(2, "a", ""), EntryLine(b, 2)], -1, map[]).entries ==
              map["a" := Branch(map[]), "b" := Text("1")]
            && ReadBlock([Line(0, "a", ""), EntryLine(b, 2)], -1, map[]).entries ==
              map["a" := Branch(map["b" := Text("1")])]
  {
    var a, b := Entry("a", Fork([])), Entry("b", Leaf("1"));
    PrintedWithBlanks(0, a, 2);
    assert Spaces(2) == "  ";
    LineRoundTrip(b, 2);
    UnquoteQuote("1");
    LinePair(Line(2, "a", ""), EntryLine(b, 2));
    LinePair(Line(0, "a", ""), EntryLine(b, 2));
  }

  /** A map line and a value line: the value is a child exactly when it is indented deeper. */
  lemma LinePair(first: Line, second: Line)
    requires first.value == "" && second.value != ""
    ensures var leaf := Text(Unquote(second.value));
            ReadBlock([first, second], -1, map[]).entries ==
            if first.indent < second.indent then map[first.key := Branch(map[second.key := leaf])]
            else map[first.key := Branch(map[])][second.key := leaf]
  {
    var leaf := Text(Unquote(second.value));
    assert [first, second] == [first] + ([second] + []);
    ReadLine(first, [second] + [], -1, map[]);
    if first.indent < second.indent {
      ReadLine(second, [], first.indent, map[]);
    } else {
      assert ReadBlock([second], first.indent, map[]) == Block(map[], [second]);
      assert [second] == [second] + [];
      ReadLine(second, [], -1, map[first.key := Branch(map[])]);
    }
  }
}
