/** Names that hand a pointer over: apikb.IsEscapeFunction (sgre/internal/apikb/apikb.go:870-946) and
    the pattern that suggests such names (sgre/internal/allocdiscover/discover.go:578-614). */
module NameAnalysis {
  import opened Text

  predicate IsUpper(c: char) { 'A' <= c <= 'Z' }

  /** The word stands at i and a capital letter or the end of the name follows. */
  predicate WholeWordAt(name: string, word: string, i: nat) {
    OccursAt(name, word, i) && (i + |word| == |name| || IsUpper(name[i + |word|]))
  }

  ghost predicate HasWholeWord(name: string, word: string) {
    exists i: nat :: WholeWordAt(name, word, i)
  }

  /** The search from position `from`: each occurrence that is no whole word is skipped over. */
  function Search(name: string, word: string, from: nat): bool
    requires from <= |name| && word != ""
    decreases |name| - from
  {
    var i := Index(name[from..], word);
    if i < 0 then false
    else if WholeWordAt(name[from..], word, i) then true
    else Search(name, word, from + i + |word|)
  }

  /** The loop, which is written twice in the repository. */
  method ContainsCamelWord(name: string, word: string) returns (found: bool)
    requires word != ""
    ensures found == Search(name, word, 0)
  {
    var idx := 0;
    while true
      invariant idx <= |name|
      invariant Search(name, word, 0) == Search(name, word, idx)
      decreases |name| - idx
    {
      var i := Index(name[idx..], word);
      if i < 0 {
        return false;
      }
      var after := idx + i + |word|;
      if after >= |name| {
        return true;
      }
      if IsUpper(name[after]) {
        return true;
      }
      idx := after;
    }
  }

  // ---------- when the search is exact ----------

  /** The word begins with the b characters it ends with. */
  predicate Border(word: string, b: nat) {
    0 < b < |word| && word[..b] == word[|word| - b..]
  }

  /** Wherever the word overlaps itself a capital letter follows the overlap. */
  ghost predicate Skippable(word: string) {
    forall b: nat :: Border(word, b) ==> IsUpper(word[b])
  }

  lemma Shifted(name: string, word: string, from: nat, i: nat)
    requires from <= |name|
    ensures OccursAt(name[from..], word, i) <==> OccursAt(name, word, from + i)
    ensures WholeWordAt(name[from..], word, i) <==> WholeWordAt(name, word, from + i)
  {
    if from + i + |word| <= |name| {
      assert name[from..][i..i + |word|] == name[from + i..from + i + |word|];
    }
  }

  /** Two occurrences that overlap make a border, and the character behind the first one stands in
      the second one right behind the overlap. */
  lemma OverlapIsBorder(name: string, word: string, i: nat, j: nat)
    requires OccursAt(name, word, i) && OccursAt(name, word, j) && i < j < i + |word|
    ensures Border(word, i + |word| - j)
    ensures i + |word| < |name| && name[i + |word|] == word[i + |word| - j]
  {
    var b := i + |word| - j;
    assert word[..b] == name[j..j + |word|][..b] == name[j..i + |word|];
    assert word[|word| - b..] == name[i..i + |word|][|word| - b..] == name[j..i + |word|];
    assert name[j..j + |word|][b] == name[i + |word|];
  }

  /** A whole word ahead is found, or lies behind the occurrence that is skipped. */
  lemma NotSkippedOver(name: string, word: string, i: nat, j: nat)
    requires Skippable(word) && WholeWordAt(name, word, j) && OccursAt(name, word, i) && i <= j
    ensures WholeWordAt(name, word, i) || i + |word| <= j
  {
    if i < j < i + |word| {
      OverlapIsBorder(name, word, i, j);
      assert IsUpper(word[i + |word| - j]);
    }
  }

  lemma FirstOccurrence(name: string, word: string, from: nat, j: nat)
    requires from <= j && from <= |name| && word != "" && Skippable(word) && WholeWordAt(name, word, j)
    ensures var i := Index(name[from..], word);
            0 <= i && (WholeWordAt(name[from..], word, i) || from + i + |word| <= j)
  {
    Shifted(name, word, from, j - from);
    var i := Index(name[from..], word);
    assert 0 <= i <= j - from;
    NotSkippedOver(name[from..], word, i, j - from);
  }

  lemma {:induction false} SearchFinds(name: string, word: string, from: nat, j: nat)
    requires from <= j && from <= |name| && word != "" && Skippable(word) && WholeWordAt(name, word, j)
    ensures Search(name, word, from)
    decreases |name| - from
  {
    FirstOccurrence(name, word, from, j);
    var i := Index(name[from..], word);
    if !WholeWordAt(name[from..], word, i) {
      SearchFinds(name, word, from + i + |word|, j);
    }
  }

  lemma {:induction false} SearchIsSound(name: string, word: string, from: nat) returns (j: nat)
    requires from <= |name| && word != "" && Search(name, word, from)
    ensures WholeWordAt(name, word, j)
    decreases |name| - from
  {
    var i := Index(name[from..], word);
    Shifted(name, word, from, i);
    if WholeWordAt(name[from..], word, i) {
      j := from + i;
    } else {
      j := SearchIsSound(name, word, from + i + |word|);
    }
  }

  lemma SecondOccurrence(word: string, b: nat)
    requires Border(word, b)
    ensures WholeWordAt(word + word[b..], word, |word| - b)
  {
    var start := |word| - b;
    assert (word + word[b..])[start..start + |word|] == word[start..] + word[b..] == word[..b] + word[b..] == word;
  }

  /** The occurrence at the front is no whole word, and is skipped. */
  lemma FirstOccurrenceIsSkipped(word: string, tail: string)
    requires word != "" && tail != "" && !IsUpper(tail[0])
    ensures Search(word + tail, word, 0) == Search(word + tail, word, |word|)
  {
    var name := word + tail;
    assert name[0..] == name && name[0..|word|] == word && name[|word|] == tail[0];
    assert OccursAt(name, word, 0) && Index(name, word) == 0;
  }

  lemma TailIsTooShort(word: string, tail: string)
    requires |tail| < |word|
    ensures !Search(word + tail, word, |word|)
  {
    assert (word + tail)[|word|..] == tail;
    assert Index(tail, word) < 0;
  }

  /** A word and its own tail behind the overlap: the second occurrence is missed. */
  lemma OverlapIsMissed(word: string, b: nat)
    requires Border(word, b) && !IsUpper(word[b])
    ensures var name := word + word[b..]; HasWholeWord(name, word) && !Search(name, word, 0)
  {
    SecondOccurrence(word, b);
    FirstOccurrenceIsSkipped(word, word[b..]);
    TailIsTooShort(word, word[b..]);
  }

  /** The search is exact for every name if and only if a capital letter follows wherever the word
      overlaps itself. */
  lemma SearchIsExactIffSkippable(word: string)
    requires word != ""
    ensures (forall name :: Search(name, word, 0) <==> HasWholeWord(name, word)) <==> Skippable(word)
  {
    if Skippable(word) {
      forall name ensures Search(name, word, 0) <==> HasWholeWord(name, word) {
        if Search(name, word, 0) {
          var j := SearchIsSound(name, word, 0);
        }
        if j: nat :| WholeWordAt(name, word, j) {
          SearchFinds(name, word, 0, j);
        }
      }
    } else {
      var b: nat :| Border(word, b) && !IsUpper(word[b]);
      OverlapIsMissed(word, b);
    }
  }

  // ---------- the two name heuristics ----------

  const Tokens: seq<string> := ["_put", "_push", "_queue", "_enqueue", "_register", "_insert", "_append", "_store",
                                "_send", "_add"]

  const Verbs: seq<string> := ["Add", "Insert", "Push", "Put", "Append", "Store", "Enqueue", "Register", "Send",
                               "Queue"]

  /** One capital letter, at the front. */
  predicate Capitalized(word: string) {
    word != "" && IsUpper(word[0]) && forall i :: 0 < i < |word| ==> !IsUpper(word[i])
  }

  lemma CapitalizedIsSkippable(word: string)
    requires Capitalized(word)
    ensures Skippable(word)
  {
    forall b: nat | Border(word, b) ensures word[|word| - b] == word[0] {
      assert word[..b][0] == word[0] && word[|word| - b..][0] == word[|word| - b];
    }
  }

  /** Every verb is searched for exactly. */
  lemma VerbsAreFound(name: string)
    ensures forall v :: v in Verbs ==> (Finds(name, v) <==> HasWholeWord(name, v))
  {
    forall v | v in Verbs ensures Finds(name, v) <==> HasWholeWord(name, v) {
      assert Capitalized(v);
      CapitalizedIsSkippable(v);
      SearchIsExactIffSkippable(v);
    }
  }

  /** The first token the name contains, with the words before it left out. */
  function FirstToken(lower: string, tokens: seq<string>): (t: string)
    ensures t == "" <==> forall k :: k in tokens ==> k == "" || !Contains(lower, k)
    ensures t != "" ==> t in tokens && Contains(lower, t)
  {
    if tokens == [] then ""
    else if tokens[0] != "" && Contains(lower, tokens[0]) then tokens[0]
    else FirstToken(lower, tokens[1..])
  }

  predicate Finds(name: string, verb: string) { verb != "" && Search(name, verb, 0) }

  function FirstVerb(name: string, verbs: seq<string>): (v: string)
    ensures v == "" <==> forall w :: w in verbs ==> !Finds(name, w)
    ensures v != "" ==> v in verbs && Finds(name, v)
  {
    if verbs == [] then ""
    else if Finds(name, verbs[0]) then verbs[0]
    else FirstVerb(name, verbs[1..])
  }

  /** ownershipTransferNamePattern */
  function Pattern(name: string): string {
    var token := FirstToken(ToLower(name), Tokens);
    if token != "" then "*" + token
    else
      var verb := FirstVerb(name, Verbs);
      if verb != "" then "*" + verb else ""
  }

  datatype Ownership = Unmodelled | Borrow | TransferOnSuccess | TransferAlways

  /** The knowledge base: the external API models and the names declared in secguard.toml. */
  class Registry {
    const models: map<string, Ownership>
    var declared: set<string>

    constructor (models: map<string, Ownership>)
      ensures this.models == models && declared == {}
    {
      this.models, declared := models, {};
    }

    method RegisterOwnershipTransfer(name: string)
      modifies this
      ensures declared == if name == "" then old(declared) else old(declared) + {name}
    {
      if name != "" {
        declared := declared + {name};
      }
    }

    method IsEscapeFunction(name: string) returns (escapes: bool)
      ensures escapes == Escapes(models, declared, name)
    {
      if name in models && models[name] != Unmodelled {
        return models[name] == TransferOnSuccess || models[name] == TransferAlways;
      }
      if name in declared {
        return true;
      }
      var lower := ToLower(name);
      var i := 0;
      while i < |Tokens|
        invariant i <= |Tokens|
        invariant forall j :: 0 <= j < i ==> !Contains(lower, Tokens[j])
      {
        if Contains(lower, Tokens[i]) {
          TokenEscapes(name, i);
          return true;
        }
        i := i + 1;
      }
      i := 0;
      while i < |Verbs|
        invariant i <= |Verbs|
        invariant forall j :: 0 <= j < i ==> !Finds(name, Verbs[j])
      {
        var found := ContainsCamelWord(name, Verbs[i]);
        if found {
          VerbEscapes(name, i);
          return true;
        }
        i := i + 1;
      }
      NothingEscapes(name);
      return false;
    }
  }

  ghost predicate TransferName(name: string) {
    (exists t :: t in Tokens && Contains(ToLower(name), t)) || (exists v :: v in Verbs && HasWholeWord(name, v))
  }

  ghost predicate Escapes(models: map<string, Ownership>, declared: set<string>, name: string) {
    if name in models && models[name] != Unmodelled then
      models[name] == TransferOnSuccess || models[name] == TransferAlways
    else name in declared || TransferName(name)
  }

  lemma TokenEscapes(name: string, i: nat)
    requires i < |Tokens| && Contains(ToLower(name), Tokens[i])
    ensures TransferName(name)
  {
    assert Tokens[i] in Tokens;
  }

  lemma VerbEscapes(name: string, i: nat)
    requires i < |Verbs| && Finds(name, Verbs[i])
    ensures TransferName(name)
  {
    VerbsAreFound(name);
    assert Verbs[i] in Verbs;
  }

  lemma NothingEscapes(name: string)
    requires forall j :: 0 <= j < |Tokens| ==> !Contains(ToLower(name), Tokens[j])
    requires forall j :: 0 <= j < |Verbs| ==> !Finds(name, Verbs[j])
    ensures !TransferName(name)
  {
    VerbsAreFound(name);
  }

  /** A name is suggested exactly when the leak detector treats it as an escape by its name alone. */
  lemma SuggestedIffEscapesByName(name: string, models: map<string, Ownership>, declared: set<string>)
    requires name !in declared && (name !in models || models[name] == Unmodelled)
    ensures Pattern(name) != "" <==> Escapes(models, declared, name)
  {
    VerbsAreFound(name);
    TokensAreWords();
  }

  lemma TokensAreWords()
    ensures forall t :: t in Tokens ==> t != ""
    ensures forall v :: v in Verbs ==> v != ""
  {}

  /** Declaring a name changes the answer for some name if and only if it is new, has no ownership
      model and is not suggested: declaring what discovery suggests changes nothing. */
  lemma DeclaringASuggestionChangesNothing(n: string, models: map<string, Ownership>, declared: set<string>)
    requires n != ""
    ensures (forall name :: Escapes(models, declared + {n}, name) == Escapes(models, declared, name)) <==>
            (n in declared || (n in models && models[n] != Unmodelled) || Pattern(n) != "")
  {
    if n !in declared && (n !in models || models[n] == Unmodelled) {
      SuggestedIffEscapesByName(n, models, declared);
      assert Escapes(models, declared + {n}, n);
    }
  }
}
