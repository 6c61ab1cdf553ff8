/** Splitting a markdown file into its frontmatter and its body (extension/opencode/index.ts:82-86):
    the regular expression takes the shortest text between an opening fence and a closing one. */
module FrontmatterFile {
  import opened Options
  import opened Frontmatter

  datatype File = File(data: Entries, body: string)

  predicate StartsWith(s: string, p: string) {
    |p| <= |s| && s[..|p|] == p
  }

  /** A line end with three dashes behind it. */
  predicate Fence(s: string) {
    StartsWith(s, "\n---") || StartsWith(s, "\r\n---")
  }

  /** The first place a fence follows. */
  function FirstFence(s: string): (p: Option<nat>)
    ensures p.Some? ==> p.value <= |s| && Fence(s[p.value..])
  {
    if Fence(s) then Some(0)
    else if s == "" then None
    else match FirstFence(s[1..]) case None => None case Some(p) => Some(p + 1)
  }

  /** Drops what an optional carriage return and an optional line feed match. */
  function DropLineEnd(s: string): string {
    var t := if StartsWith(s, "\r") then s[1..] else s;
    if StartsWith(t, "\n") then t[1..] else t
  }

  function FenceLength(s: string): (n: nat)
    requires Fence(s)
    ensures n <= |s|
  {
    if s[0] == '\n' then 4 else 5
  }

  function ParseFile(md: string): File {
    var opening := if StartsWith(md, "---\n") then 4 else if StartsWith(md, "---\r\n") then 5 else 0;
    if opening == 0 then File(map[], Trim(md))
    else
      var rest := md[opening..];
      match FirstFence(rest)
      case None => File(map[], Trim(md))
      case Some(p) => File(Parse(rest[..p]), Trim(DropLineEnd(rest[p..][FenceLength(rest[p..])..])))
  }

  // ---------- round trip ----------

  /** No line of the text begins with a dash, and the text does not end inside a line end. */
  predicate Unfenced(s: string) {
    && (forall p :: 0 <= p < |s| && s[p] == '\n' ==> p + 1 < |s| && s[p + 1] != '-')
    && (s != "" ==> s[|s| - 1] != '\r')
  }

  lemma {:induction false} FirstFenceBehind(s: string, after: string)
    requires Unfenced(s) && Fence(after) && after[0] == '\n'
    ensures FirstFence(s + after) == Some(|s|)
    decreases |s|
  {
    if s == "" {
      assert s + after == after;
    } else {
      var all := s + after;
      assert all[1..] == s[1..] + after;
      NoFenceInside(s, after);
      UnfencedTail(s);
      FirstFenceBehind(s[1..], after);
    }
  }

  lemma UnfencedTail(s: string)
    requires Unfenced(s) && s != ""
    ensures Unfenced(s[1..])
  {
    forall p | 0 <= p < |s[1..]| && s[1..][p] == '\n' ensures p + 1 < |s[1..]| && s[1..][p + 1] != '-' {
      assert s[p + 1] == '\n';
    }
  }

  lemma NoFenceInside(s: string, after: string)
    requires Unfenced(s) && s != "" && after != "" && after[0] == '\n'
    ensures !Fence(s + after)
  {
    if Fence(s + after) {
      FenceChars(s + after);
    }
  }

  lemma FenceChars(s: string)
    requires Fence(s)
    ensures |s| >= 4 && ((s[0] == '\n' && s[1] == '-') || (s[0] == '\r' && s[1] == '\n' && s[2] == '-'))
  {
    assert s[..4][0] == s[0] && s[..4][1] == s[1];
    assert |s| >= 5 ==> s[..5][0] == s[0] && s[..5][1] == s[1] && s[..5][2] == s[2];
  }

  /** A line whose first character is not a dash, with no line end in or next to it. */
  predicate PlainLine(s: string) {
    s != "" && s[0] != '-' && '\n' !in s && s[|s| - 1] != '\r'
  }

  lemma {:induction false} JoinedIsUnfenced(lines: seq<string>)
    requires forall s :: s in lines ==> PlainLine(s)
    ensures Unfenced(Join(lines))
    ensures lines != [] ==> Join(lines) != "" && Join(lines)[0] != '-'
  {
    if lines != [] {
      var s := lines[0];
      assert s in lines;
      if |lines| == 1 {
        LineIsUnfenced(s);
      } else {
        var rest := Join(lines[1..]);
        assert forall t :: t in lines[1..] ==> t in lines;
        JoinedIsUnfenced(lines[1..]);
        assert Join(lines) == s + "\n" + rest;
        UnfencedJoin(s, rest);
      }
    }
  }

  lemma LineIsUnfenced(s: string)
    requires PlainLine(s)
    ensures Unfenced(s)
  {
    assert forall p :: 0 <= p < |s| ==> s[p] in s;
  }

  lemma UnfencedJoin(s: string, rest: string)
    requires PlainLine(s) && Unfenced(rest) && rest != "" && rest[0] != '-'
    ensures Unfenced(s + "\n" + rest)
  {
    var all := s + "\n" + rest;
    assert forall p :: 0 <= p < |s| ==> s[p] in s;
    forall p | 0 <= p < |all| && all[p] == '\n' ensures p + 1 < |all| && all[p + 1] != '-' {
      assert p >= |s|;
      assert p > |s| ==> rest[p - |s| - 1] == '\n';
    }
  }

  lemma {:induction false} PrintedLinesArePlain(entries: seq<Entry>, indent: nat, step: nat)
    requires Printable(entries)
    ensures forall s :: s in PrintLines(entries, indent, step) ==> PlainLine(s)
    decreases entries
  {
    if entries != [] {
      var e := entries[0];
      assert e in entries;
      PrintedLinesArePlain(entries[1..], indent, step);
      PrintedLineIsPlain(e, indent);
      match e.doc
      case Leaf(_) =>
      case Fork(children) => PrintedLinesArePlain(children, indent + step, step);
    }
  }

  lemma PrintedLineIsPlain(e: Entry, indent: nat)
    requires Printable([e])
    ensures PlainLine(PrintEntry(e, indent))
  {
    var s := PrintEntry(e, indent);
    assert e in [e];
    assert s[0] == (if indent > 0 then ' ' else '"');
    assert s[|s| - 1] in {':', '"'};
  }

  /** File round trip: a printed document between fences, with any body, is read back as the map it
      stands for and the trimmed body. */
  lemma FileRoundTrip(entries: seq<Entry>, indent: nat, step: nat, body: string)
    requires Printable(entries) && 1 <= step
    ensures ParseFile("---\n" + Join(PrintLines(entries, indent, step)) + "\n---\n" + body)
         == File(Meaning(entries, map[]), Trim(body))
  {
    var text := Join(PrintLines(entries, indent, step));
    var after := "\n---\n" + body;
    PrintedLinesArePlain(entries, indent, step);
    JoinedIsUnfenced(PrintLines(entries, indent, step));
    RoundTrip(entries, indent, step);
    Reassemble(text, body);
    FencedFile(text, body);
  }

  lemma Reassemble(text: string, body: string)
    ensures "---\n" + text + "\n---\n" + body == "---\n" + (text + ("\n---\n" + body))
  {}

  lemma FencedFile(text: string, body: string)
    requires Unfenced(text)
    ensures ParseFile("---\n" + (text + ("\n---\n" + body))) == File(Parse(text), Trim(body))
  {
    var after := "\n---\n" + body;
    var md := "---\n" + (text + after);
    assert md[..4] == "---\n" && md[4..] == text + after;
    assert after[..4] == "\n---";
    FirstFenceBehind(text, after);
    assert (text + after)[..|text|] == text && (text + after)[|text|..] == after;
    BehindTheFence(body);
  }

  lemma BehindTheFence(body: string)
    ensures DropLineEnd(("\n---\n" + body)[4..]) == body
  {
    var tail := ("\n---\n" + body)[4..];
    assert tail == "\n" + body && tail[0] == '\n';
    assert tail[..1] == "\n" && tail[1..] == body;
    assert !StartsWith(tail, "\r");
  }
}
