/** parseYaml itself (extension/opencode/index.ts:50-80): a stack of frames whose maps are mutable
    objects, each stored in the map below it. It is proved to build the map Frontmatter.Parse reads. */
module FrontmatterParser {
  import opened Options
  import opened Frontmatter

  datatype Cell = Scalar(text: string) | Nested(child: YamlMap)

  class YamlMap {
    var entries: map<string, Cell>

    constructor ()
      ensures entries == map[]
    {
      entries := map[];
    }
  }

  datatype Frame = Frame(indent: int, node: YamlMap)

  /** What a frame has read so far: its finished entries, and the key it is stored under below. */
  datatype Progress = Progress(indent: int, done: Entries, key: string)

  /** The pure maps that the objects reachable so far stand for. */
  type Shape = map<YamlMap, Entries>

  ghost predicate CellIs(cell: Cell, v: Value, shape: Shape) {
    match cell
    case Scalar(text) => v == Text(text)
    case Nested(child) => child in shape && v == Branch(shape[child])
  }

  ghost predicate NodeIs(n: YamlMap, m: Entries, shape: Shape)
    reads n
  {
    n.entries.Keys == m.Keys && forall k :: k in m ==> CellIs(n.entries[k], m[k], shape)
  }

  /** Every object of the shape holds exactly the entries the shape gives it. */
  ghost predicate Models(shape: Shape)
    reads shape.Keys
  {
    forall n :: n in shape ==> NodeIs(n, shape[n], shape)
  }

  /** A frame that is not on top: besides its finished entries it holds the map above it. */
  ghost predicate HoldsNext(n: YamlMap, m: Entries, key: string, next: YamlMap, shape: Shape)
    reads n
  {
    && n.entries.Keys == m.Keys + {key}
    && n.entries[key] == Nested(next)
    && forall k :: k in m && k != key ==> CellIs(n.entries[k], m[k], shape)
  }

  /** Indents grow strictly from -1 at the bottom. */
  predicate Aligned(stack: seq<Frame>, ps: seq<Progress>) {
    && 1 <= |stack| == |ps| && stack[0].indent == -1
    && (forall i :: 0 <= i < |stack| ==> ps[i].indent == stack[i].indent)
    && (forall i, j :: 0 <= i < j < |stack| ==> stack[i].indent < stack[j].indent)
  }

  /** No object is on the stack twice, or both on it and finished. */
  predicate Apart(stack: seq<Frame>, shape: Shape) {
    && (forall i, j :: 0 <= i < j < |stack| ==> stack[i].node != stack[j].node)
    && (forall i :: 0 <= i < |stack| ==> stack[i].node !in shape)
  }

  /** Each stacked map is the child stored in the one below. */
  ghost predicate Linked(stack: seq<Frame>, ps: seq<Progress>, shape: Shape)
    requires |stack| == |ps|
    reads set i | 0 <= i < |stack| - 1 :: stack[i].node
  {
    forall i :: 0 <= i < |stack| - 1 ==>
      HoldsNext(stack[i].node, ps[i].done, ps[i + 1].key, stack[i + 1].node, shape)
  }

  ghost predicate StackOk(stack: seq<Frame>, ps: seq<Progress>, shape: Shape)
    reads set i | 0 <= i < |stack| :: stack[i].node
    reads shape.Keys
  {
    && Aligned(stack, ps) && Apart(stack, shape) && Models(shape) && Linked(stack, ps, shape)
    && NodeIs(stack[|stack| - 1].node, ps[|ps| - 1].done, shape)
  }

  /** Reading on from a stack: finish the top block, hand it to the frame below, go on there. */
  ghost function Resume(ps: seq<Progress>, lines: seq<Line>): Entries
    requires ps != []
    decreases |ps|
  {
    var top := |ps| - 1;
    var b := ReadBlock(lines, ps[top].indent, ps[top].done);
    if top == 0 then b.entries else Resume(Below(ps, b.entries), b.rest)
  }

  /** The stack without its top frame, whose entries are now known. */
  ghost function Below(ps: seq<Progress>, entries: Entries): seq<Progress>
    requires |ps| >= 2
  {
    var top := |ps| - 1;
    ps[..top][top - 1 := ps[top - 1].(done := ps[top - 1].done[ps[top].key := Branch(entries)])]
  }

  lemma CellsKept(n: YamlMap, m: Entries, shape: Shape, top: YamlMap, done: Entries, but: set<string>)
    requires m.Keys - but <= n.entries.Keys && top !in shape
    requires forall k :: k in m && k !in but ==> CellIs(n.entries[k], m[k], shape)
    ensures forall k :: k in m && k !in but ==> CellIs(n.entries[k], m[k], shape[top := done])
  {
    forall k | k in m && k !in but ensures CellIs(n.entries[k], m[k], shape[top := done]) {
      assert CellIs(n.entries[k], m[k], shape);
    }
  }

  lemma NodeKept(n: YamlMap, m: Entries, shape: Shape, top: YamlMap, done: Entries)
    requires NodeIs(n, m, shape) && top !in shape
    ensures NodeIs(n, m, shape[top := done])
  {
    CellsKept(n, m, shape, top, done, {});
  }

  lemma ModelsGrow(shape: Shape, top: YamlMap, done: Entries)
    requires Models(shape) && NodeIs(top, done, shape) && top !in shape
    ensures Models(shape[top := done])
  {
    var grown := shape[top := done];
    forall n | n in grown ensures NodeIs(n, grown[n], grown) {
      NodeKept(n, grown[n], shape, top, done);
    }
  }

  lemma HandOver(below: YamlMap, m: Entries, key: string, top: YamlMap, done: Entries, shape: Shape)
    requires HoldsNext(below, m, key, top, shape) && top !in shape
    ensures NodeIs(below, m[key := Branch(done)], shape[top := done])
  {
    CellsKept(below, m, shape, top, done, {key});
  }

  lemma LinkKept(n: YamlMap, m: Entries, key: string, next: YamlMap, shape: Shape, top: YamlMap, done: Entries)
    requires HoldsNext(n, m, key, next, shape) && top !in shape
    ensures HoldsNext(n, m, key, next, shape[top := done])
  {
    CellsKept(n, m, shape, top, done, {key});
  }

  lemma LinksKept(stack: seq<Frame>, ps: seq<Progress>, shape: Shape, done: Entries)
    requires |stack| == |ps| >= 2 && Linked(stack, ps, shape) && stack[|stack| - 1].node !in shape
    ensures Linked(stack[..|stack| - 1], Below(ps, done), shape[stack[|stack| - 1].node := done])
  {
    var top := |stack| - 1;
    var qs := Below(ps, done);
    forall i | 0 <= i < top - 1
      ensures HoldsNext(stack[i].node, qs[i].done, qs[i + 1].key, stack[i + 1].node, shape[stack[top].node := done])
    {
      LinkKept(stack[i].node, ps[i].done, ps[i + 1].key, stack[i + 1].node, shape, stack[top].node, done);
    }
  }

  /** Popping a finished frame: its object joins the shape. */
  lemma Pop(stack: seq<Frame>, ps: seq<Progress>, shape: Shape)
    requires StackOk(stack, ps, shape) && |stack| >= 2
    ensures var top := |stack| - 1;
            StackOk(stack[..top], Below(ps, ps[top].done), shape[stack[top].node := ps[top].done])
  {
    var top := |stack| - 1;
    var done := ps[top].done;
    ModelsGrow(shape, stack[top].node, done);
    LinksKept(stack, ps, shape, done);
    HandOver(stack[top - 1].node, ps[top - 1].done, ps[top].key, stack[top].node, done, shape);
  }

  /** A line that is not deeper than the top frame ends the top block. */
  lemma ResumeAfterPop(ps: seq<Progress>, lines: seq<Line>)
    requires |ps| >= 2 && (lines == [] || lines[0].indent <= ps[|ps| - 1].indent)
    ensures Resume(ps, lines) == Resume(Below(ps, ps[|ps| - 1].done), lines)
  {}

  /** The objects of the new shape are those of the old one and of the stack. */
  ghost predicate ComesFrom(after: Shape, before: Shape, stack: seq<Frame>) {
    forall n :: n in after ==> n in before || exists f :: f in stack && f.node == n
  }

  lemma PoppedComesFrom(after: Shape, before: Shape, stack: seq<Frame>, top: Frame, done: Entries)
    requires ComesFrom(after, before, stack) && top in stack
    ensures ComesFrom(after[top.node := done], before, stack)
  {}

  /** One turn of the popping loop. */
  lemma PopTop(whole: seq<Frame>, before: Shape, stack: seq<Frame>, ps: seq<Progress>, shape: Shape, lines: seq<Line>)
    returns (ps': seq<Progress>, shape': Shape)
    requires StackOk(stack, ps, shape) && |stack| >= 2 && stack <= whole && ComesFrom(shape, before, whole)
    requires lines != [] && lines[0].indent <= stack[|stack| - 1].indent
    ensures StackOk(stack[..|stack| - 1], ps', shape') && ComesFrom(shape', before, whole)
    ensures Resume(ps', lines) == Resume(ps, lines)
  {
    var top := |stack| - 1;
    Pop(stack, ps, shape);
    ResumeAfterPop(ps, lines);
    assert stack[top] == whole[top] && whole[top] in whole;
    PoppedComesFrom(shape, before, whole, stack[top], ps[top].done);
    ps', shape' := Below(ps, ps[top].done), shape[stack[top].node := ps[top].done];
  }

  /** What the popping loop has made of the stack it started from. */
  ghost predicate Popped(whole: seq<Frame>, ps: seq<Progress>, before: Shape, lines: seq<Line>, stack: seq<Frame>,
                         qs: seq<Progress>, shape: Shape)
    requires ps != []
    reads set i | 0 <= i < |stack| :: stack[i].node
    reads shape.Keys
  {
    && StackOk(stack, qs, shape) && stack <= whole && ComesFrom(shape, before, whole)
    && Resume(qs, lines) == Resume(ps, lines)
  }

  lemma PopTurn(whole: seq<Frame>, ps: seq<Progress>, before: Shape, lines: seq<Line>, stack: seq<Frame>,
                qs: seq<Progress>, shape: Shape)
    returns (qs': seq<Progress>, shape': Shape)
    requires ps != [] && Popped(whole, ps, before, lines, stack, qs, shape) && |stack| >= 2
    requires lines != [] && lines[0].indent <= stack[|stack| - 1].indent
    ensures Popped(whole, ps, before, lines, stack[..|stack| - 1], qs', shape')
  {
    qs', shape' := PopTop(whole, before, stack, qs, shape, lines);
  }

  method PopClosed(stack: seq<Frame>, ghost ps: seq<Progress>, ghost shape: Shape, line: Line, ghost rest: seq<Line>)
    returns (stack': seq<Frame>, ghost ps': seq<Progress>, ghost shape': Shape)
    requires StackOk(stack, ps, shape)
    ensures StackOk(stack', ps', shape') && stack' <= stack
    ensures stack'[|stack'| - 1].indent < line.indent
    ensures Resume(ps', [line] + rest) == Resume(ps, [line] + rest)
    ensures ComesFrom(shape', shape, stack)
  {
    stack', ps', shape' := stack, ps, shape;
    while |stack'| > 1 && stack'[|stack'| - 1].indent >= line.indent
      invariant Popped(stack, ps, shape, [line] + rest, stack', ps', shape')
      decreases |stack'|
    {
      ps', shape' := PopTurn(stack, ps, shape, [line] + rest, stack', ps', shape');
      stack' := stack'[..|stack'| - 1];
    }
  }

  /** A value line's entry is added to the top frame. */
  ghost function Stored(ps: seq<Progress>, line: Line): seq<Progress>
    requires ps != []
  {
    var top := |ps| - 1;
    ps[top := ps[top].(done := ps[top].done[line.key := Text(Unquote(line.value))])]
  }

  /** A key line opens a frame above. */
  ghost function Opened(ps: seq<Progress>, line: Line): seq<Progress> {
    ps + [Progress(line.indent, map[], line.key)]
  }

  method StoreValue(stack: seq<Frame>, ghost ps: seq<Progress>, ghost shape: Shape, line: Line)
    requires StackOk(stack, ps, shape)
    modifies stack[|stack| - 1].node
    ensures StackOk(stack, Stored(ps, line), shape)
  {
    var node := stack[|stack| - 1].node;
    node.entries := node.entries[line.key := Scalar(Unquote(line.value))];
    assert Models(shape);
    assert Linked(stack, ps, shape);
    LinkedBelowTop(stack, ps, Stored(ps, line), shape);
  }

  lemma LinkedBelowTop(stack: seq<Frame>, ps: seq<Progress>, qs: seq<Progress>, shape: Shape)
    requires |stack| == |ps| == |qs| >= 1 && Linked(stack, ps, shape)
    requires forall i :: 0 <= i < |ps| ==> qs[i].key == ps[i].key
    requires forall i :: 0 <= i < |ps| - 1 ==> qs[i].done == ps[i].done
    ensures Linked(stack, qs, shape)
  {
    forall i | 0 <= i < |stack| - 1
      ensures HoldsNext(stack[i].node, qs[i].done, qs[i + 1].key, stack[i + 1].node, shape)
    {
      assert HoldsNext(stack[i].node, ps[i].done, ps[i + 1].key, stack[i + 1].node, shape);
    }
  }

  method OpenChild(stack: seq<Frame>, ghost ps: seq<Progress>, ghost shape: Shape, line: Line)
    returns (child: YamlMap)
    requires StackOk(stack, ps, shape) && stack[|stack| - 1].indent < line.indent
    modifies stack[|stack| - 1].node
    ensures fresh(child)
    ensures StackOk(stack + [Frame(line.indent, child)], Opened(ps, line), shape)
  {
    var node := stack[|stack| - 1].node;
    child := new YamlMap();
    node.entries := node.entries[line.key := Nested(child)];
    assert Models(shape);
    assert Linked(stack, ps, shape);
    PushedIsOk(stack, ps, shape, line, child);
  }

  /** The stack with a new, empty object on top that the frame below holds. */
  lemma PushedIsOk(stack: seq<Frame>, ps: seq<Progress>, shape: Shape, line: Line, child: YamlMap)
    requires Aligned(stack, ps) && Apart(stack, shape) && Models(shape) && Linked(stack, ps, shape)
    requires stack[|stack| - 1].indent < line.indent
    requires HoldsNext(stack[|stack| - 1].node, ps[|ps| - 1].done, line.key, child, shape)
    requires child.entries == map[] && child !in shape && forall i :: 0 <= i < |stack| ==> stack[i].node != child
    ensures StackOk(stack + [Frame(line.indent, child)], Opened(ps, line), shape)
  {
    LinkedAbove(stack, ps, shape, line, child);
  }

  lemma LinkedAbove(stack: seq<Frame>, ps: seq<Progress>, shape: Shape, line: Line, child: YamlMap)
    requires |stack| == |ps| >= 1 && Linked(stack, ps, shape)
    requires HoldsNext(stack[|stack| - 1].node, ps[|ps| - 1].done, line.key, child, shape)
    ensures Linked(stack + [Frame(line.indent, child)], Opened(ps, line), shape)
  {
    var more, qs := stack + [Frame(line.indent, child)], Opened(ps, line);
    forall i | 0 <= i < |more| - 1
      ensures HoldsNext(more[i].node, qs[i].done, qs[i + 1].key, more[i + 1].node, shape)
    {
      if i < |stack| - 1 {
        assert HoldsNext(stack[i].node, ps[i].done, ps[i + 1].key, stack[i + 1].node, shape);
      }
    }
  }

  method PlaceLine(stack: seq<Frame>, ghost ps: seq<Progress>, ghost shape: Shape, line: Line, ghost rest: seq<Line>)
    returns (stack': seq<Frame>, ghost ps': seq<Progress>)
    requires StackOk(stack, ps, shape) && stack[|stack| - 1].indent < line.indent
    modifies stack[|stack| - 1].node
    ensures StackOk(stack', ps', shape)
    ensures |stack'| == |stack| + (if line.value == "" then 1 else 0)
    ensures forall k :: 0 <= k < |stack| ==> stack'[k] == stack[k]
    ensures forall k :: |stack| <= k < |stack'| ==> fresh(stack'[k].node)
    ensures Resume(ps', rest) == Resume(ps, [line] + rest)
  {
    if line.value == "" {
      ResumeIntoChild(ps, line, rest);
      var child := OpenChild(stack, ps, shape, line);
      stack', ps' := stack + [Frame(line.indent, child)], Opened(ps, line);
    } else {
      ResumeWithValue(ps, line, rest);
      StoreValue(stack, ps, shape, line);
      stack', ps' := stack, Stored(ps, line);
    }
  }

  lemma ResumeIntoChild(ps: seq<Progress>, line: Line, rest: seq<Line>)
    requires ps != [] && ps[|ps| - 1].indent < line.indent && line.value == ""
    ensures Resume(ps + [Progress(line.indent, map[], line.key)], rest) == Resume(ps, [line] + rest)
  {
    var top := |ps| - 1;
    var ps' := ps + [Progress(line.indent, map[], line.key)];
    var child := ReadBlock(rest, line.indent, map[]);
    ReadLine(line, rest, ps[top].indent, ps[top].done);
    var handed := ps[top].(done := ps[top].done[line.key := Branch(child.entries)]);
    assert Below(ps', child.entries) == ps[top := handed];
    assert Resume(ps', rest) == Resume(ps[top := handed], child.rest);
    ResumeSame(ps, ps[top := handed], [line] + rest, child.rest);
  }

  lemma ResumeWithValue(ps: seq<Progress>, line: Line, rest: seq<Line>)
    requires ps != [] && ps[|ps| - 1].indent < line.indent && line.value != ""
    ensures Resume(Stored(ps, line), rest) == Resume(ps, [line] + rest)
  {
    var top := |ps| - 1;
    ReadLine(line, rest, ps[top].indent, ps[top].done);
    ResumeSame(ps, Stored(ps, line), [line] + rest, rest);
  }

  /** Two stacks that differ in the top frame's entries only, and whose top blocks end alike. */
  lemma ResumeSame(ps: seq<Progress>, qs: seq<Progress>, lines: seq<Line>, more: seq<Line>)
    requires |ps| == |qs| >= 1 && ps[..|ps| - 1] == qs[..|ps| - 1]
    requires var top := |ps| - 1;
             && ps[top].indent == qs[top].indent && ps[top].key == qs[top].key
             && ReadBlock(lines, ps[top].indent, ps[top].done) == ReadBlock(more, qs[top].indent, qs[top].done)
    ensures Resume(ps, lines) == Resume(qs, more)
  {
    var top := |ps| - 1;
    if top > 0 {
      assert ps[top - 1] == ps[..top][top - 1] == qs[..top][top - 1] == qs[top - 1];
    }
  }

  lemma ParseLinesSplit(raws: seq<string>, i: nat)
    requires i < |raws|
    ensures ParseLine(raws[i]).None? ==> ParseLines(raws[i..]) == ParseLines(raws[i + 1..])
    ensures ParseLine(raws[i]).Some? ==> ParseLines(raws[i..]) == [ParseLine(raws[i]).value] + ParseLines(raws[i + 1..])
  {
    assert raws[i..][1..] == raws[i + 1..];
  }

  method ReadLines(raws: seq<string>) returns (lines: seq<Line>)
    ensures lines == ParseLines(raws)
  {
    lines := [];
    var i := 0;
    while i < |raws|
      invariant i <= |raws|
      invariant lines + ParseLines(raws[i..]) == ParseLines(raws)
    {
      ParseLinesSplit(raws, i);
      var parsed := ParseLine(raws[i]);
      if parsed.Some? {
        lines := lines + [parsed.value];
      }
      i := i + 1;
    }
  }

  /** At the end of the text every open frame is finished where it stands. */
  lemma {:induction false} CloseAll(stack: seq<Frame>, ps: seq<Progress>, shape: Shape) returns (whole: Shape)
    requires StackOk(stack, ps, shape)
    ensures stack[0].node in whole && Models(whole) && whole[stack[0].node] == Resume(ps, [])
    decreases |stack|
  {
    var top := |stack| - 1;
    if top == 0 {
      ModelsGrow(shape, stack[0].node, ps[0].done);
      whole := shape[stack[0].node := ps[0].done];
    } else {
      Pop(stack, ps, shape);
      ResumeAfterPop(ps, []);
      whole := CloseAll(stack[..top], Below(ps, ps[top].done), shape[stack[top].node := ps[top].done]);
    }
  }

  /** One turn of the main loop. */
  method PlaceNext(stack: seq<Frame>, ghost ps: seq<Progress>, ghost shape: Shape, line: Line, ghost rest: seq<Line>)
    returns (stack': seq<Frame>, ghost ps': seq<Progress>, ghost shape': Shape)
    requires StackOk(stack, ps, shape)
    modifies set i | 0 <= i < |stack| :: stack[i].node
    ensures StackOk(stack', ps', shape') && stack'[0] == stack[0]
    ensures forall k :: 0 <= k < |stack'| ==> (k < |stack| && stack'[k] == stack[k]) || fresh(stack'[k].node)
    ensures Resume(ps', rest) == Resume(ps, [line] + rest)
  {
    var kept;
    ghost var qs;
    kept, qs, shape' := PopClosed(stack, ps, shape, line, rest);
    assert kept[|kept| - 1] == stack[|kept| - 1];
    stack', ps' := PlaceLine(kept, qs, shape', line, rest);
  }

  lemma NextLine(ps: seq<Progress>, lines: seq<Line>, i: nat)
    requires ps != [] && i < |lines|
    ensures Resume(ps, lines[i..]) == Resume(ps, [lines[i]] + lines[i + 1..])
  {
    assert lines[i..] == [lines[i]] + lines[i + 1..];
  }

  /** The loop over the lines read. */
  method BuildTree(lines: seq<Line>) returns (root: YamlMap, ghost shape: Shape)
    ensures fresh(root) && root in shape && Models(shape)
    ensures shape[root] == ReadBlock(lines, -1, map[]).entries
  {
    root := new YamlMap();
    var stack := [Frame(-1, root)];
    ghost var ps := [Progress(-1, map[], "")];
    shape := map[];
    ghost var whole := Resume(ps, lines);
    assert whole == ReadBlock(lines, -1, map[]).entries;
    assert lines[0..] == lines;
    var i := 0;
    while i < |lines|
      invariant i <= |lines|
      invariant StackOk(stack, ps, shape) && stack[0].node == root
      invariant forall k :: 0 <= k < |stack| ==> fresh(stack[k].node)
      invariant Resume(ps, lines[i..]) == whole
    {
      NextLine(ps, lines, i);
      stack, ps, shape := PlaceNext(stack, ps, shape, lines[i], lines[i + 1..]);
      i := i + 1;
    }
    assert lines[i..] == [];
    shape := CloseAll(stack, ps, shape);
  }

  /** The objects built stand for the map that Frontmatter.Parse reads from the text. */
  method ParseTree(text: string) returns (root: YamlMap, ghost shape: Shape)
    ensures fresh(root) && root in shape && Models(shape)
    ensures shape[root] == Parse(text)
  {
    var lines := ReadLines(SplitLines(text));
    root, shape := BuildTree(lines);
  }
}
