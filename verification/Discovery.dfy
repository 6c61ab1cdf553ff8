/** Suggesting allocators, deallocators, ownership transfers and iterator macros from an indexed
    project (sgre/internal/allocdiscover/discover.go:70-614): what the suggestions depend on. */
module Discovery {
  import opened Text
  import opened Ordering
  import NameAnalysis
  import Signatures

  datatype Confidence = High | Medium | Low

  datatype Entry = Entry(name: string, confidence: Confidence, reasons: seq<string>)

  datatype Kind = Allocator | Deallocator | Transfer | Iterator

  datatype Placed = Placed(kind: Kind, entry: Entry)

  /** What becomes of one name. */
  datatype Slot = Nowhere | To(placed: Placed)

  // ---------- the callees of a function ----------

  /** A call edge to an external function, with its caller's name. */
  datatype Call = Call(caller: string, callee: string, alloc: bool, dealloc: bool)

  function CalleesOf(calls: seq<Call>, caller: string, alloc: bool): (r: seq<string>)
    ensures forall n :: n in r <==>
        exists c :: c in calls && c.caller == caller && c.callee == n && (if alloc then c.alloc else c.dealloc)
  {
    if calls == [] then []
    else
      var rest := CalleesOf(calls[1..], caller, alloc);
      assert calls == [calls[0]] + calls[1..];
      if calls[0].caller == caller && (if alloc then calls[0].alloc else calls[0].dealloc) then [calls[0].callee] + rest
      else rest
  }

  /** The names once each, without the empty one. */
  function Distinct(names: seq<string>, seen: set<string>): seq<string> {
    if names == [] then []
    else if names[0] == "" || names[0] in seen then Distinct(names[1..], seen)
    else [names[0]] + Distinct(names[1..], seen + {names[0]})
  }

  function CommaList(names: seq<string>): string { Signatures.JoinWith(", ", Sort(names, StringLess)) }

  method JoinCallees(names: seq<string>) returns (text: string)
    ensures text == CommaList(Distinct(names, {}))
  {
    var seen: set<string> := {};
    var out: seq<string> := [];
    assert names[0..] == names;
    for i := 0 to |names|
      invariant out + Distinct(names[i..], seen) == Distinct(names, {})
    {
      assert names[i..][0] == names[i] && names[i..][1..] == names[i + 1..];
      if names[i] != "" && names[i] !in seen {
        seen := seen + {names[i]};
        out := out + [names[i]];
      }
    }
    assert names[|names|..] == [] && out + [] == out;
    text := CommaList(out);
  }

  lemma {:induction false} DistinctCount(names: seq<string>, seen: set<string>, x: string)
    ensures multiset(Distinct(names, seen))[x] == if x in names && x != "" && x !in seen then 1 else 0
  {
    if names != [] {
      assert names == [names[0]] + names[1..];
      if names[0] == "" || names[0] in seen {
        DistinctCount(names[1..], seen, x);
      } else {
        DistinctCount(names[1..], seen + {names[0]}, x);
      }
    }
  }

  /** The text depends on the set of callees only. */
  lemma CalleeTextIsASet(a: seq<string>, b: seq<string>)
    requires forall x :: x in a <==> x in b
    ensures CommaList(Distinct(a, {})) == CommaList(Distinct(b, {}))
  {
    forall x ensures multiset(Distinct(a, {}))[x] == multiset(Distinct(b, {}))[x] {
      DistinctCount(a, {}, x);
      DistinctCount(b, {}, x);
    }
    StringLessIsWeakOrder();
    StringsTieFree(Distinct(a, {}));
    SortForgetsOrder(Distinct(a, {}), Distinct(b, {}), StringLess);
  }

  // ---------- classification ----------

  datatype Callees = Callees(some: bool, text: string)

  function Summary(names: seq<string>): Callees { Callees(names != [], CommaList(Distinct(names, {}))) }

  datatype Declared = Declared(returnType: string, signature: string)

  datatype Symbol = Symbol(name: string, returnType: string, signature: string, allocs: Callees, deallocs: Callees)

  function SymbolOf(name: string, d: Declared, calls: seq<Call>): Symbol {
    Symbol(name, d.returnType, d.signature, Summary(CalleesOf(calls, name, true)),
           Summary(CalleesOf(calls, name, false)))
  }

  /** A name pattern: its text, "" when none matches, and whether it is a strong one. */
  datatype Pattern = Pattern(text: string, strong: bool)

  function FirstSuffix(lower: string, suffixes: seq<string>): string {
    if suffixes == [] then "" else if HasSuffix(lower, suffixes[0]) then suffixes[0]
    else FirstSuffix(lower, suffixes[1..])
  }

  function Starred(strong: string, weak: string): Pattern {
    if strong != "" then Pattern("*" + strong, true) else if weak != "" then Pattern("*" + weak, false)
    else Pattern("", false)
  }

  function AllocatorPattern(name: string): Pattern {
    var lower := ToLower(name);
    Starred(FirstSuffix(lower,
                        ["_malloc_f", "_calloc_f", "_realloc_f", "_alloc_f", "_malloc", "_calloc", "_realloc",
                         "_alloc", "malloc", "calloc", "realloc"]),
            FirstSuffix(lower, ["_new", "_mem_create", "_strdup", "_dup"]))
  }

  function DeallocatorPattern(name: string): Pattern {
    var lower := ToLower(name);
    Starred(FirstSuffix(lower, ["_free_f", "_free", "free"]),
            NameAnalysis.FirstToken(lower, ["_dealloc", "_release", "_destroy", "_delete", "_cleanup", "_recycle"]))
  }

  function IteratorPattern(name: string): string {
    NameAnalysis.FirstToken(ToLower(name), ["_for_each", "_foreach", "_scan", "_iter", "_walk", "_traverse", "_next"])
  }

  predicate SomeContains(params: seq<string>, word: string) { exists p :: p in params && Contains(p, word) }

  function Calls(c: Callees): seq<string> { if c.some then ["calls " + c.text] else [] }

  /** A name pattern is confirmed by a call; a weak one without a call is of medium confidence. */
  function ByPattern(name: string, p: Pattern, c: Callees, missing: string): Entry {
    Entry(name, if c.some || p.strong then High else Medium,
          ["name pattern " + p.text] + Calls(c) + if c.some || p.strong then [] else [missing])
  }

  function BySignature(name: string, what: string, c: Callees): Entry {
    Entry(name, if c.some then Medium else Low, [what] + Calls(c))
  }

  function Classify(s: Symbol): (slot: Slot)
    ensures slot.To? ==> slot.placed.entry.name == s.name
  {
    var alloc, dealloc := AllocatorPattern(s.name), DeallocatorPattern(s.name);
    var params := Signatures.Params(s.signature);
    if dealloc.text != "" then To(Placed(Deallocator, ByPattern(s.name, dealloc, s.deallocs, "no direct free call")))
    else if alloc.text != "" then To(Placed(Allocator, ByPattern(s.name, alloc, s.allocs, "no direct allocator call")))
    else if TrimSpace(s.returnType) == "void" && params != [] && Contains(params[0], "*") then
      To(Placed(Deallocator, BySignature(s.name, "void return, pointer parameter", s.deallocs)))
    else if Contains(s.returnType, "*") && SomeContains(params, "size_t") then
      To(Placed(Allocator, BySignature(s.name, "pointer return, size_t parameter", s.allocs)))
    else if s.deallocs.some && TrimSpace(s.returnType) == "void" then
      To(Placed(Deallocator, Entry(s.name, High, Calls(s.deallocs))))
    else if s.allocs.some && Contains(s.returnType, "*") then
      To(Placed(Allocator, Entry(s.name, High, Calls(s.allocs))))
    else Nowhere
  }

  function ClassifyTransfer(s: Symbol): (slot: Slot)
    ensures slot.To? ==> slot.placed.entry.name == s.name
  {
    var pattern := NameAnalysis.Pattern(s.name);
    var pointer := SomeContains(Signatures.Params(s.signature), "*");
    if pattern == "" then Nowhere
    else
      To(Placed(Transfer, Entry(s.name, if s.deallocs.some then Low else if pointer then High else Medium,
        ["name pattern " + pattern,
         if pointer then "pointer parameter" else "no pointer parameter detected from signature"]
        + if s.deallocs.some then Marked(s.deallocs) else [])))
  }

  function Marked(c: Callees): seq<string> { ["calls " + c.text + " \U{2014} may release rather than transfer"] }

  /** A function: a transfer unless of low confidence, else an allocator or deallocator, else a
      transfer after all. */
  function SymbolSlot(s: Symbol): (slot: Slot)
    ensures slot.To? ==> slot.placed.entry.name == s.name
  {
    var transfer := ClassifyTransfer(s);
    if transfer.To? && transfer.placed.entry.confidence != Low then transfer
    else if Classify(s).To? then Classify(s)
    else transfer
  }

  /** A macro name with the known callees in its bodies and their joined text. */
  datatype Macro = Macro(allocs: seq<string>, deallocs: seq<string>, text: string, functionLike: bool)

  function ByMacroName(name: string, p: Pattern, m: Macro, review: string, missing: string): Entry {
    if !m.functionLike || Contains(m.text, "==") || Contains(m.text, "!=") || Contains(m.text, "&&") ||
      Contains(m.text, "||") then
      Entry(name, Low, ["name pattern " + p.text + review])
    else
      Entry(name, if p.strong then High else Medium,
            ["macro name pattern " + p.text] + if p.strong then [] else [missing])
  }

  function MacroReasons(c: Callees, p: Pattern): seq<string> {
    ["expands to " + c.text] + if p.text != "" then ["macro name pattern " + p.text] else []
  }

  function ClassifyMacro(name: string, m: Macro): Slot {
    var alloc, dealloc := AllocatorPattern(name), DeallocatorPattern(name);
    var allocs, deallocs := Summary(m.allocs), Summary(m.deallocs);
    if deallocs.some && !allocs.some then To(Placed(Deallocator, Entry(name, High, MacroReasons(deallocs, dealloc))))
    else if allocs.some && !deallocs.some then To(Placed(Allocator, Entry(name, High, MacroReasons(allocs, alloc))))
    else if allocs.some then
      To(Placed(Allocator,
                Entry(name, Low, ["macro body contains both an allocation and a release \U{2014} ambiguous"])))
    else if dealloc.text != "" then
      To(Placed(Deallocator, ByMacroName(name, dealloc, m, "; no release call in body", "no direct free in body")))
    else if alloc.text != "" then
      To(Placed(Allocator, ByMacroName(name, alloc, m, "; no allocator call in body", "no direct allocator in body")))
    else Nowhere
  }

  function ClassifyIterator(name: string, m: Macro): Slot {
    var pattern := IteratorPattern(name);
    if pattern == "" || !m.functionLike then Nowhere
    else
      var loop := Contains(m.text, "for") || Contains(m.text, "while");
      var guard := Contains(m.text, "NULL") || Contains(m.text, "!=") || Contains(m.text, "next");
      To(Placed(Iterator, Entry(name, if loop || guard then High else Medium,
        ["macro name pattern *" + pattern]
        + if loop then ["body contains loop construct"] else if guard then ["body contains NULL/next guard"] else [])))
  }

  function MacroSlot(name: string, m: Macro): (slot: Slot)
    ensures slot.To? ==> slot.placed.entry.name == name
  {
    if ClassifyMacro(name, m).To? then ClassifyMacro(name, m) else ClassifyIterator(name, m)
  }

  // ---------- gathering ----------

  datatype Project = Project(symbols: map<string, Declared>, calls: seq<Call>, macros: map<string, Macro>,
                             known: set<string>)

  function FromSymbol(p: Project, name: string): (slot: Slot)
    ensures slot.To? ==> slot.placed.entry.name == name
  {
    if name in p.known || name !in p.symbols then Nowhere else SymbolSlot(SymbolOf(name, p.symbols[name], p.calls))
  }

  /** A macro is skipped when a function of its name was suggested. */
  function FromMacro(p: Project, name: string): (slot: Slot)
    ensures slot.To? ==> slot.placed.entry.name == name
  {
    if FromSymbol(p, name).To? || name in p.known || name !in p.macros then Nowhere else MacroSlot(name, p.macros[name])
  }

  ghost predicate Named(f: string -> Slot) {
    forall n :: f(n).To? ==> f(n).placed.entry.name == n
  }

  function Gather(order: seq<string>, f: string -> Slot): seq<Placed> {
    if order == [] then []
    else (match f(order[0]) case Nowhere => [] case To(p) => [p]) + Gather(order[1..], f)
  }

  lemma GatherOne(n: string, f: string -> Slot)
    ensures Gather([n], f) == match f(n) case Nowhere => [] case To(p) => [p]
  {
    assert [n][1..] == [];
  }

  lemma {:induction false} GatherCount(order: seq<string>, f: string -> Slot, p: Placed)
    requires Named(f)
    ensures multiset(Gather(order, f))[p] == if f(p.entry.name) == To(p) then multiset(order)[p.entry.name] else 0
  {
    if order != [] {
      assert order == [order[0]] + order[1..];
      GatherCount(order[1..], f, p);
    }
  }

  lemma GatherForgetsOrder(a: seq<string>, b: seq<string>, f: string -> Slot)
    requires Named(f) && multiset(a) == multiset(b)
    ensures multiset(Gather(a, f)) == multiset(Gather(b, f))
  {
    forall p ensures multiset(Gather(a, f))[p] == multiset(Gather(b, f))[p] {
      GatherCount(a, f, p);
      GatherCount(b, f, p);
    }
  }

  function ListOf(ps: seq<Placed>, kind: Kind): seq<Entry> {
    if ps == [] then [] else (if ps[0].kind == kind then [ps[0].entry] else []) + ListOf(ps[1..], kind)
  }

  lemma ListOfOne(p: Placed, kind: Kind)
    ensures ListOf([p], kind) == if p.kind == kind then [p.entry] else []
  {
    assert [p][1..] == [];
  }

  lemma {:induction false} ListOfCount(ps: seq<Placed>, kind: Kind, e: Entry)
    ensures multiset(ListOf(ps, kind))[e] == multiset(ps)[Placed(kind, e)]
  {
    if ps != [] {
      assert ps == [ps[0]] + ps[1..];
      ListOfCount(ps[1..], kind, e);
    }
  }

  lemma ListOfForgetsOrder(a: seq<Placed>, b: seq<Placed>, kind: Kind)
    requires multiset(a) == multiset(b)
    ensures multiset(ListOf(a, kind)) == multiset(ListOf(b, kind))
  {
    forall e ensures multiset(ListOf(a, kind))[e] == multiset(ListOf(b, kind))[e] {
      ListOfCount(a, kind, e);
      ListOfCount(b, kind, e);
    }
  }

  // ---------- the result ----------

  function Rank(c: Confidence): int { match c case High => 0 case Medium => 1 case Low => 2 }

  /** sortEntries: by confidence, then by name ignoring case. */
  predicate EntryLess(a: Entry, b: Entry) {
    if Rank(a.confidence) != Rank(b.confidence) then Rank(a.confidence) < Rank(b.confidence)
    else StringLess(ToLower(a.name), ToLower(b.name))
  }

  lemma EntryLessIsWeakOrder()
    ensures WeakOrder(EntryLess)
  {
    forall a, b | EntryLess(a, b) ensures !EntryLess(b, a) {
      StringLessIsOneWay(ToLower(a.name), ToLower(b.name));
    }
    forall a, b, c | EntryLess(a, c) ensures EntryLess(a, b) || EntryLess(b, c) {
      if a.confidence == b.confidence == c.confidence {
        StringLessBetween(ToLower(a.name), ToLower(b.name), ToLower(c.name));
      }
    }
  }

  datatype Result = Result(allocators: seq<Entry>, deallocators: seq<Entry>, transfers: seq<Entry>,
                           iterators: seq<Entry>)

  function Symbols(p: Project): string -> Slot { n => FromSymbol(p, n) }

  function Macros(p: Project): string -> Slot { n => FromMacro(p, n) }

  function All(p: Project, order: seq<string>, macroOrder: seq<string>): seq<Placed> {
    Gather(order, Symbols(p)) + Gather(macroOrder, Macros(p))
  }

  function Ranked(ps: seq<Placed>, kind: Kind): seq<Entry> { Sort(ListOf(ps, kind), EntryLess) }

  function Suggestions(p: Project, order: seq<string>, macroOrder: seq<string>): Result {
    var all := All(p, order, macroOrder);
    Result(Ranked(all, Allocator), Ranked(all, Deallocator), Ranked(all, Transfer), Ranked(all, Iterator))
  }

  /** What ranging over a map gives. */
  ghost predicate NoRepeats(order: seq<string>) { forall n :: multiset(order)[n] <= 1 }

  lemma NotBefore(order: seq<string>, i: nat)
    requires i < |order| && NoRepeats(order)
    ensures order[i] !in order[..i]
  {
    assert order == order[..i] + [order[i]] + order[i + 1..];
    assert multiset(order)[order[i]] == multiset(order[..i])[order[i]] + 1 + multiset(order[i + 1..])[order[i]];
  }

  method DiscoverSymbols(p: Project, order: seq<string>) returns (all: seq<Placed>, emitted: set<string>)
    ensures all == Gather(order, Symbols(p))
    ensures forall n :: n in emitted <==> n in order && FromSymbol(p, n).To?
  {
    emitted := {};
    all := [];
    for i := 0 to |order|
      invariant all == Gather(order[..i], Symbols(p))
      invariant forall n :: n in emitted <==> n in order[..i] && FromSymbol(p, n).To?
    {
      assert order[..i + 1] == order[..i] + [order[i]];
      GatherConcat(order[..i], [order[i]], Symbols(p));
      GatherOne(order[i], Symbols(p));
      var slot := FromSymbol(p, order[i]);
      if slot.To? {
        all := all + [slot.placed];
        emitted := emitted + {order[i]};
      }
    }
    assert order[..|order|] == order;
  }

  ghost predicate EmittedSymbols(p: Project, emitted: set<string>) {
    forall n :: n in emitted <==> FromSymbol(p, n).To?
  }

  method DiscoverMacros(p: Project, emitted: set<string>, order: seq<string>) returns (all: seq<Placed>)
    requires EmittedSymbols(p, emitted) && NoRepeats(order)
    ensures all == Gather(order, Macros(p))
  {
    all := [];
    var done := emitted;
    for i := 0 to |order|
      invariant all == Gather(order[..i], Macros(p))
      invariant forall n :: n in done ==> n in emitted || n in order[..i]
      invariant emitted <= done
    {
      var name := order[i];
      NotBefore(order, i);
      assert order[..i + 1] == order[..i] + [name];
      GatherConcat(order[..i], [name], Macros(p));
      GatherOne(name, Macros(p));
      if name !in done && name !in p.known && name in p.macros {
        var slot := MacroSlot(name, p.macros[name]);
        assert slot == FromMacro(p, name);
        if slot.To? {
          all := all + [slot.placed];
          done := done + {name};
        }
      }
    }
    assert order[..|order|] == order;
  }

  /** The two loops of Discover; `order` and `macroOrder` are the iteration orders. */
  method Discover(p: Project, order: seq<string>, macroOrder: seq<string>) returns (res: Result)
    requires forall n :: n in order <==> n in p.symbols
    requires NoRepeats(macroOrder)
    ensures res == Suggestions(p, order, macroOrder)
  {
    var all, emitted := DiscoverSymbols(p, order);
    assert EmittedSymbols(p, emitted);
    var macros := DiscoverMacros(p, emitted, macroOrder);
    all := all + macros;
    res := Result(Ranked(all, Allocator), Ranked(all, Deallocator), Ranked(all, Transfer), Ranked(all, Iterator));
  }

  // ---------- theorems ----------

  /** Every name is suggested at most once, over the four lists. */
  lemma EachNameOnce(p: Project, order: seq<string>, macroOrder: seq<string>, x: Placed, y: Placed)
    requires NoRepeats(order) && NoRepeats(macroOrder)
    requires x in All(p, order, macroOrder) && y in All(p, order, macroOrder) && x.entry.name == y.entry.name
    ensures x == y && multiset(All(p, order, macroOrder))[x] == 1
  {
    var f, g := Symbols(p), Macros(p);
    assert multiset(All(p, order, macroOrder)) == multiset(Gather(order, f)) + multiset(Gather(macroOrder, g));
    GatherCount(order, f, x);
    GatherCount(order, f, y);
    GatherCount(macroOrder, g, x);
    GatherCount(macroOrder, g, y);
    assert x in multiset(All(p, order, macroOrder)) && y in multiset(All(p, order, macroOrder));
    assert multiset(order)[x.entry.name] <= 1 && multiset(macroOrder)[x.entry.name] <= 1;
  }

  /** Reordering the call edges changes no classification. */
  lemma CallOrderIsForgotten(p: Project, calls: seq<Call>, name: string)
    requires multiset(calls) == multiset(p.calls)
    ensures FromSymbol(p, name) == FromSymbol(p.(calls := calls), name)
    ensures FromMacro(p, name) == FromMacro(p.(calls := calls), name)
  {
    assert forall c :: c in calls <==> c in multiset(calls);
    assert forall c :: c in p.calls <==> c in multiset(p.calls);
    SameCallees(p.calls, calls, name, true);
    SameCallees(p.calls, calls, name, false);
  }

  lemma SameCallees(a: seq<Call>, b: seq<Call>, name: string, alloc: bool)
    requires forall c :: c in a <==> c in b
    ensures Summary(CalleesOf(a, name, alloc)) == Summary(CalleesOf(b, name, alloc))
  {
    var s, t := CalleesOf(a, name, alloc), CalleesOf(b, name, alloc);
    assert forall n :: n in s <==> n in t;
    CalleeTextIsASet(s, t);
    assert s != [] ==> s[0] in t;
    assert t != [] ==> t[0] in s;
  }

  lemma {:induction false} SameGather(order: seq<string>, f: string -> Slot, g: string -> Slot)
    requires forall n :: f(n) == g(n)
    ensures Gather(order, f) == Gather(order, g)
  {
    if order != [] {
      SameGather(order[1..], f, g);
    }
  }

  lemma SameSlots(p: Project, calls: seq<Call>, order: seq<string>)
    requires multiset(calls) == multiset(p.calls)
    ensures Gather(order, Symbols(p.(calls := calls))) == Gather(order, Symbols(p))
    ensures Gather(order, Macros(p.(calls := calls))) == Gather(order, Macros(p))
  {
    forall n ensures Symbols(p)(n) == Symbols(p.(calls := calls))(n) && Macros(p)(n) == Macros(p.(calls := calls))(n) {
      CallOrderIsForgotten(p, calls, n);
    }
    SameGather(order, Symbols(p.(calls := calls)), Symbols(p));
    SameGather(order, Macros(p.(calls := calls)), Macros(p));
  }

  /** The entries of one list that come from functions, in the order of the map iteration, and those
      that come from macros, in the sorted order of their names. */
  function FunctionEntries(p: Project, order: seq<string>, kind: Kind): seq<Entry> {
    ListOf(Gather(order, Symbols(p)), kind)
  }

  function MacroEntries(p: Project, macroOrder: seq<string>, kind: Kind): seq<Entry> {
    ListOf(Gather(macroOrder, Macros(p)), kind)
  }

  lemma {:induction false} ListOfConcat(a: seq<Placed>, b: seq<Placed>, kind: Kind)
    ensures ListOf(a + b, kind) == ListOf(a, kind) + ListOf(b, kind)
  {
    if a == [] {
      assert a + b == b;
    } else {
      assert (a + b)[0] == a[0] && (a + b)[1..] == a[1..] + b;
      ListOfConcat(a[1..], b, kind);
    }
  }

  lemma {:induction false} GatherConcat(a: seq<string>, b: seq<string>, f: string -> Slot)
    ensures Gather(a + b, f) == Gather(a, f) + Gather(b, f)
  {
    if a == [] {
      assert a + b == b;
    } else {
      assert (a + b)[0] == a[0] && (a + b)[1..] == a[1..] + b;
      GatherConcat(a[1..], b, f);
    }
  }

  /** No two functions of one list have the same confidence and names that agree ignoring case. */
  ghost predicate NoTie(p: Project, order: seq<string>, kind: Kind) {
    TieFree(FunctionEntries(p, order, kind), EntryLess)
  }

  lemma RankedIsMerged(p: Project, order: seq<string>, macroOrder: seq<string>, kind: Kind)
    ensures Ranked(All(p, order, macroOrder), kind)
         == Merge(Sort(FunctionEntries(p, order, kind), EntryLess),
                  Sort(MacroEntries(p, macroOrder, kind), EntryLess), EntryLess)
  {
    EntryLessIsWeakOrder();
    ListOfConcat(Gather(order, Symbols(p)), Gather(macroOrder, Macros(p)), kind);
    SortOfConcat(FunctionEntries(p, order, kind), MacroEntries(p, macroOrder, kind), EntryLess);
  }

  lemma UntiedRankForgetsOrder(p: Project, calls: seq<Call>, order: seq<string>, other: seq<string>,
                               macroOrder: seq<string>, kind: Kind)
    requires multiset(calls) == multiset(p.calls) && multiset(other) == multiset(order) && NoTie(p, order, kind)
    ensures Ranked(All(p.(calls := calls), other, macroOrder), kind) == Ranked(All(p, order, macroOrder), kind)
  {
    SameSlots(p, calls, other);
    SameSlots(p, calls, macroOrder);
    RankedIsMerged(p, order, macroOrder, kind);
    RankedIsMerged(p, other, macroOrder, kind);
    GatherForgetsOrder(order, other, Symbols(p));
    ListOfForgetsOrder(Gather(order, Symbols(p)), Gather(other, Symbols(p)), kind);
    EntryLessIsWeakOrder();
    SortForgetsOrder(FunctionEntries(p, order, kind), FunctionEntries(p, other, kind), EntryLess);
  }

  // ---------- ties follow the iteration ----------

  /** The functions of one list that are tied with e. */
  function Tied(p: Project, order: seq<string>, kind: Kind, e: Entry): seq<Entry> {
    Ties(FunctionEntries(p, order, kind), e, EntryLess)
  }

  lemma TiedConcat(p: Project, a: seq<string>, b: seq<string>, kind: Kind, e: Entry)
    ensures Tied(p, a + b, kind, e) == Tied(p, a, kind, e) + Tied(p, b, kind, e)
  {
    GatherConcat(a, b, Symbols(p));
    ListOfConcat(Gather(a, Symbols(p)), Gather(b, Symbols(p)), kind);
    TiesOfConcat(FunctionEntries(p, a, kind), FunctionEntries(p, b, kind), e, EntryLess);
  }

  lemma TiedOne(p: Project, n: string, kind: Kind, e: Entry, x: Entry)
    requires FromSymbol(p, n) == To(Placed(kind, x)) && !EntryLess(e, x) && !EntryLess(x, e)
    ensures Tied(p, [n], kind, e) == [x]
  {
    GatherOne(n, Symbols(p));
    TiesOne(x, e, kind);
  }

  lemma TiesOne(x: Entry, e: Entry, kind: Kind)
    requires !EntryLess(e, x) && !EntryLess(x, e)
    ensures Ties(ListOf([Placed(kind, x)], kind), e, EntryLess) == [x]
  {
    ListOfOne(Placed(kind, x), kind);
    assert [x][1..] == [] && Ties([x], e, EntryLess) == [x] + [];
  }

  lemma TiedFive(p: Project, a: seq<string>, x: string, b: seq<string>, y: string, c: seq<string>, kind: Kind, e: Entry)
    ensures Tied(p, a + [x] + b + [y] + c, kind, e)
         == Tied(p, a, kind, e) + Tied(p, [x], kind, e) + Tied(p, b, kind, e) + Tied(p, [y], kind, e) +
           Tied(p, c, kind, e)
  {
    TiedConcat(p, a, [x], kind, e);
    TiedConcat(p, a + [x], b, kind, e);
    TiedConcat(p, a + [x] + b, [y], kind, e);
    TiedConcat(p, a + [x] + b + [y], c, kind, e);
  }

  /** The tied functions can be read off the list that is shown. */
  lemma TiedIsShown(p: Project, order: seq<string>, macroOrder: seq<string>, kind: Kind, e: Entry)
    ensures Ties(Ranked(All(p, order, macroOrder), kind), e, EntryLess)
         == Tied(p, order, kind, e) + Ties(MacroEntries(p, macroOrder, kind), e, EntryLess)
  {
    EntryLessIsWeakOrder();
    SortIsStable(ListOf(All(p, order, macroOrder), kind), e, EntryLess);
    ListOfConcat(Gather(order, Symbols(p)), Gather(macroOrder, Macros(p)), kind);
    TiesOfConcat(FunctionEntries(p, order, kind), MacroEntries(p, macroOrder, kind), e, EntryLess);
  }

  /** Exchanging two tied functions in the iteration changes the list. */
  lemma ExchangeShows(p: Project, a: seq<string>, x: string, b: seq<string>, y: string, c: seq<string>,
                      macroOrder: seq<string>, kind: Kind, e: Entry, f: Entry)
    requires FromSymbol(p, x) == To(Placed(kind, e)) && FromSymbol(p, y) == To(Placed(kind, f))
    requires e != f && !EntryLess(e, f) && !EntryLess(f, e)
    ensures Ranked(All(p, a + [x] + b + [y] + c, macroOrder), kind) !=
        Ranked(All(p, a + [y] + b + [x] + c, macroOrder), kind)
  {
    EntryLessIsWeakOrder();
    assert !EntryLess(e, e);
    TiedOne(p, x, kind, e, e);
    TiedOne(p, y, kind, e, f);
    TiedFive(p, a, x, b, y, c, kind, e);
    TiedFive(p, a, y, b, x, c, kind, e);
    TiedIsShown(p, a + [x] + b + [y] + c, macroOrder, kind, e);
    TiedIsShown(p, a + [y] + b + [x] + c, macroOrder, kind, e);
    Differ(Tied(p, a, kind, e), e, f, Tied(p, b, kind, e), Tied(p, c, kind, e),
           Ties(MacroEntries(p, macroOrder, kind), e, EntryLess));
  }

  lemma Differ(a: seq<Entry>, e: Entry, f: Entry, b: seq<Entry>, c: seq<Entry>, d: seq<Entry>)
    requires e != f
    ensures a + [e] + b + [f] + c + d != a + [f] + b + [e] + c + d
  {
    assert (a + [e] + b + [f] + c + d)[|a|] == e && (a + [f] + b + [e] + c + d)[|a|] == f;
  }

  predicate Tie(e: Entry, f: Entry) { e != f && !EntryLess(e, f) && !EntryLess(f, e) }

  /** Two functions of one list that are tied, anywhere in the iteration, come out in the order of the
      iteration: some other iteration gives another result. */
  lemma TiedFunctionsFollowTheIteration(p: Project, order: seq<string>, macroOrder: seq<string>, kind: Kind, e: Entry,
                                        f: Entry)
    returns (other: seq<string>)
    requires e in FunctionEntries(p, order, kind) && f in FunctionEntries(p, order, kind) && Tie(e, f)
    ensures multiset(other) == multiset(order) && Suggestions(p, other, macroOrder) != Suggestions(p, order, macroOrder)
  {
    EntryHasItsFunction(p, order, kind, e);
    EntryHasItsFunction(p, order, kind, f);
    var i :| 0 <= i < |order| && order[i] == e.name;
    var j :| 0 <= j < |order| && order[j] == f.name;
    if i < j {
      other := Exchanged(p, order, macroOrder, i, j, kind, e, f);
    } else {
      assert i != j;
      other := Exchanged(p, order, macroOrder, j, i, kind, f, e);
    }
  }

  lemma Exchanged(p: Project, order: seq<string>, macroOrder: seq<string>, i: nat, j: nat, kind: Kind, e: Entry,
                  f: Entry)
    returns (other: seq<string>)
    requires i < j < |order| && Tie(e, f)
    requires FromSymbol(p, order[i]) == To(Placed(kind, e)) && FromSymbol(p, order[j]) == To(Placed(kind, f))
    ensures multiset(other) == multiset(order) && Suggestions(p, other, macroOrder) != Suggestions(p, order, macroOrder)
  {
    var a, x, b, y, c := order[..i], order[i], order[i + 1..j], order[j], order[j + 1..];
    other := a + [y] + b + [x] + c;
    SplitAt(order, i, j);
    ExchangeShows(p, a, x, b, y, c, macroOrder, kind, e, f);
    DifferentResult(p, order, other, macroOrder, kind);
  }

  lemma SplitAt(order: seq<string>, i: nat, j: nat)
    requires i < j < |order|
    ensures order == order[..i] + [order[i]] + order[i + 1..j] + [order[j]] + order[j + 1..]
    ensures multiset(order[..i] + [order[j]] + order[i + 1..j] + [order[i]] + order[j + 1..]) == multiset(order)
  {
    assert order == order[..i] + [order[i]] + order[i + 1..j] + [order[j]] + order[j + 1..];
  }

  lemma DifferentResult(p: Project, order: seq<string>, other: seq<string>, macroOrder: seq<string>, kind: Kind)
    requires Ranked(All(p, order, macroOrder), kind) != Ranked(All(p, other, macroOrder), kind)
    ensures Suggestions(p, other, macroOrder) != Suggestions(p, order, macroOrder)
  {
    match kind case Allocator => case Deallocator => case Transfer => case Iterator =>
  }

  /** The function an entry comes from. */
  lemma EntryHasItsFunction(p: Project, order: seq<string>, kind: Kind, e: Entry)
    requires e in FunctionEntries(p, order, kind)
    ensures e.name in order && FromSymbol(p, e.name) == To(Placed(kind, e))
  {
    Listed(Gather(order, Symbols(p)), kind, e);
    assert Placed(kind, e) in multiset(Gather(order, Symbols(p)));
    GatherCount(order, Symbols(p), Placed(kind, e));
    assert e.name in multiset(order);
  }

  ghost predicate OrderFree(p: Project, order: seq<string>, macroOrder: seq<string>) {
    forall calls, other :: multiset(calls) == multiset(p.calls) && multiset(other) == multiset(order) ==>
      Suggestions(p.(calls := calls), other, macroOrder) == Suggestions(p, order, macroOrder)
  }

  /** Discovery gives one result for every iteration order of the symbol map and every order of the
      call edges if and only if no two different functions of one list are tied: have the same
      confidence and names that agree ignoring case. Macros, which come in the order of their names
      and behind the functions, may be tied with anything. */
  lemma DiscoveryIsOrderFree(p: Project, order: seq<string>, macroOrder: seq<string>)
    ensures OrderFree(p, order, macroOrder) <==> forall kind :: NoTie(p, order, kind)
  {
    if forall kind :: NoTie(p, order, kind) {
      forall calls, other | multiset(calls) == multiset(p.calls) && multiset(other) == multiset(order)
        ensures Suggestions(p.(calls := calls), other, macroOrder) == Suggestions(p, order, macroOrder)
      {
        UntiedSuggestions(p, calls, order, other, macroOrder);
      }
    } else {
      var kind :| !NoTie(p, order, kind);
      TieShows(p, order, macroOrder, kind);
    }
  }

  lemma UntiedSuggestions(p: Project, calls: seq<Call>, order: seq<string>, other: seq<string>, macroOrder: seq<string>)
    requires multiset(calls) == multiset(p.calls) && multiset(other) == multiset(order) &&
        forall kind :: NoTie(p, order, kind)
    ensures Suggestions(p.(calls := calls), other, macroOrder) == Suggestions(p, order, macroOrder)
  {
    forall kind ensures Ranked(All(p.(calls := calls), other, macroOrder), kind) ==
        Ranked(All(p, order, macroOrder), kind) {
      assert NoTie(p, order, kind);
      UntiedRankForgetsOrder(p, calls, order, other, macroOrder, kind);
    }
  }

  lemma TieShows(p: Project, order: seq<string>, macroOrder: seq<string>, kind: Kind)
    requires !NoTie(p, order, kind)
    ensures !OrderFree(p, order, macroOrder)
  {
    var list := FunctionEntries(p, order, kind);
    var e, f :| e in list && f in list && e != f && !EntryLess(e, f) && !EntryLess(f, e);
    var other := TiedFunctionsFollowTheIteration(p, order, macroOrder, kind, e, f);
    assert p.(calls := p.calls) == p;
  }

  predicate Twins(x: Entry, y: Entry) { ToLower(x.name) == ToLower(y.name) }

  ghost predicate NoTwins(list: seq<Entry>) {
    forall x, y :: x in list && y in list && Twins(x, y) ==> x == y
  }

  /** Functions whose names differ ignoring case leave no tie. */
  lemma DistinctNamesLeaveNoTie(p: Project, order: seq<string>, kind: Kind)
    requires NoTwins(FunctionEntries(p, order, kind))
    ensures NoTie(p, order, kind)
  {
    var list := FunctionEntries(p, order, kind);
    forall i, j | 0 <= i < |list| && 0 <= j < |list|
      ensures list[i] == list[j] || EntryLess(list[i], list[j]) || EntryLess(list[j], list[i])
    {
      TwinsOrOrdered(list[i], list[j]);
    }
  }

  lemma TwinsOrOrdered(x: Entry, y: Entry)
    ensures Twins(x, y) || EntryLess(x, y) || EntryLess(y, x)
  {
    StringLessIsOneWay(ToLower(x.name), ToLower(y.name));
  }

  lemma Listed(all: seq<Placed>, kind: Kind, e: Entry)
    requires e in ListOf(all, kind)
    ensures Placed(kind, e) in all
  {
    ListOfCount(all, kind, e);
    assert e in multiset(ListOf(all, kind));
    assert Placed(kind, e) in multiset(all);
  }

  /** A function and a macro whose names agree ignoring case are no such tie: with them alone the
      result is order-free. */
  lemma MacroTwinDoesNotMatter(p: Project, x: string, macroOrder: seq<string>)
    ensures OrderFree(p, [x], macroOrder)
  {
    forall kind ensures NoTie(p, [x], kind) {
      OneFunctionIsUntied(p, x, kind);
    }
    DiscoveryIsOrderFree(p, [x], macroOrder);
  }

  lemma OneFunctionIsUntied(p: Project, x: string, kind: Kind)
    ensures NoTie(p, [x], kind)
  {
    GatherOne(x, Symbols(p));
    if FromSymbol(p, x).To? {
      ListOfOne(FromSymbol(p, x).placed, kind);
    }
    assert |FunctionEntries(p, [x], kind)| <= 1;
  }
}
