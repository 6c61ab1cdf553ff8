/** `secguard report --write-json` (sgre/internal/cli/report.go:634-840) over the location-keyed
    finding store (sgre/internal/db/crud_findings.go:95-162): a read-only first pass, then one
    transaction of upserts. */
module WriteBatch {
  import opened Text
  import FindingPaths

  // ---------- rows ----------

  datatype Verdict = Confirmed | Dismissed | Invalid

  function NormalizeVerdict(raw: string): Verdict {
    var status := ToLower(TrimSpace(raw));
    if status == "confirmed" then Confirmed
    else if status in {"dismissed", "false-positive", "false_positive", "false positive", "suspected",
                       "suspected-kept"} then
      Dismissed
    else Invalid
  }

  /** `vulnType` is the declared type, or the one the rule stands for; "" when there is none. */
  datatype Input = Input(file: string, line: int, rule: string, status: string, vulnType: string,
                         functionName: string, variable: string, details: string)

  /** The unique index uq_finding_loc. */
  datatype Key = Key(scan: string, rule: string, file: string, line: int, variable: string)

  datatype Finding = Finding(key: Key, functionName: string, details: string)

  datatype Stored = Stored(id: nat, functionName: string, details: string, review: string)

  datatype Dismissal = Dismissal(scan: string, vulnType: string, file: string, line: int, functionName: string,
                                 variable: string)

  type Rows = map<Key, Stored>

  datatype Context = Context(scan: string, rules: set<string>, files: seq<string>)

  datatype Judged = NoLocation | BadStatus | Skip(verdict: Dismissal) | BadRule | Ready(finding: Finding)

  function RuleId(rule: string): string { ToUpper(TrimSpace(rule)) }

  /** The first pass on one row; the store's key keeps the rule as it was spelled. */
  function Judge(input: Input, c: Context): Judged {
    if TrimSpace(input.file) == "" || input.line <= 0 then NoLocation
    else
      match NormalizeVerdict(input.status)
      case Invalid => BadStatus
      case Dismissed =>
        Skip(Dismissal(c.scan, input.vulnType, FindingPaths.Resolve(input.file, c.files), input.line,
                       input.functionName, input.variable))
      case Confirmed =>
        if RuleId(input.rule) == "" || RuleId(input.rule) !in c.rules then BadRule
        else
          Ready(Finding(Key(c.scan, input.rule, FindingPaths.Resolve(input.file, c.files), input.line,
                            input.variable), input.functionName, input.details))
  }

  /** What the first pass makes of each row. */
  function JudgeAll(inputs: seq<Input>, c: Context): (judgements: seq<Judged>)
    ensures |judgements| == |inputs| && forall i :: 0 <= i < |inputs| ==> judgements[i] == Judge(inputs[i], c)
  {
    seq(|inputs|, i requires 0 <= i < |inputs| => Judge(inputs[i], c))
  }

  // ---------- the passes ----------

  datatype BatchError =
    | LocationError(row: nat) | RuleError(row: nat) | ProbeError(row: nat) | UpsertError(row: nat) | CommitError

  datatype Written = Written(row: nat, id: nat, duplicate: bool)

  datatype Pending = Pending(row: nat, finding: Finding)

  /** Which store calls fail; the row's position in the input names the call. Without a connection or
      the write lock the transaction does not begin. */
  datatype Faults = Faults(ledger: nat -> bool, probe: nat -> bool, upsert: nat -> bool, begin: bool, commit: bool)

  datatype First = First(pending: seq<Pending>, errors: seq<BatchError>, skipped: nat, verdicts: set<Dismissal>)

  function FirstStep(p: First, row: nat, judged: Judged, faults: Faults): First
    requires judged != BadStatus
  {
    match judged
    case NoLocation => p.(errors := p.errors + [LocationError(row)])
    case BadRule => p.(errors := p.errors + [RuleError(row)])
    case Ready(f) => p.(pending := p.pending + [Pending(row, f)])
    case Skip(v) =>
      p.(skipped := p.skipped + 1,
         verdicts := if v.vulnType != "" && !faults.ledger(row) then p.verdicts + {v} else p.verdicts)
  }

  predicate NoBadStatus(judgements: seq<Judged>) {
    forall i :: 0 <= i < |judgements| ==> judgements[i] != BadStatus
  }

  /** The first pass over the first n rows. */
  function FirstPass(judgements: seq<Judged>, faults: Faults, verdicts: set<Dismissal>, n: nat): First
    requires n <= |judgements| && NoBadStatus(judgements[..n])
  {
    if n == 0 then First([], [], 0, verdicts)
    else
      assert judgements[..n][n - 1] == judgements[n - 1];
      assert judgements[..n - 1] == judgements[..n][..n - 1];
      FirstStep(FirstPass(judgements, faults, verdicts, n - 1), n - 1, judgements[n - 1], faults)
  }

  /** The transaction so far. `wasted` counts the rows that were found but not written. */
  datatype Tx = Tx(rows: Rows, nextId: nat, written: seq<Written>, duplicates: nat, errors: seq<BatchError>,
                   wasted: nat)

  function IdOf(rows: Rows, nextId: nat, key: Key): nat {
    if key in rows then rows[key].id else nextId
  }

  /** INSERT ... ON CONFLICT DO UPDATE: the id and the review survive an update. */
  function Upsert(rows: Rows, nextId: nat, f: Finding): Rows {
    rows[f.key := Stored(IdOf(rows, nextId, f.key), f.functionName, f.details,
                         if f.key in rows then rows[f.key].review else "")]
  }

  function SecondStep(tx: Tx, p: Pending, faults: Faults): Tx {
    if faults.probe(p.row) then tx.(errors := tx.errors + [ProbeError(p.row)])
    else
      var found := p.finding.key in tx.rows;
      var probed := if found then tx.(duplicates := tx.duplicates + 1) else tx;
      if faults.upsert(p.row) then
        probed.(errors := tx.errors + [UpsertError(p.row)], wasted := tx.wasted + if found then 1 else 0)
      else
        probed.(rows := Upsert(tx.rows, tx.nextId, p.finding),
                nextId := if found then tx.nextId else tx.nextId + 1,
                written := tx.written + [Written(p.row, IdOf(tx.rows, tx.nextId, p.finding.key), found)])
  }

  function SecondPass(pending: seq<Pending>, faults: Faults, start: Tx, n: nat): Tx
    requires n <= |pending|
  {
    if n == 0 then start else SecondStep(SecondPass(pending, faults, start, n - 1), pending[n - 1], faults)
  }

  /** The pending rows the transaction gets to: all of them, or none if it does not begin. */
  function Taken(pending: seq<Pending>, faults: Faults): (n: nat)
    ensures n <= |pending|
  {
    if faults.begin then 0 else |pending|
  }

  /** The transaction leaves nothing in the store, and its error is reported. */
  predicate Aborted(faults: Faults) { faults.begin || faults.commit }

  datatype Outcome =
    | Rejected
    | Reported(written: seq<Written>, duplicates: nat, skipped: nat, errors: seq<BatchError>, exit: nat)

  datatype Db = Db(rows: Rows, nextId: nat, verdicts: set<Dismissal>)

  /** The position of the first row with an invalid status, or the length. */
  function FirstBad(judgements: seq<Judged>): (n: nat)
    ensures n <= |judgements| && NoBadStatus(judgements[..n])
    ensures n < |judgements| ==> judgements[n] == BadStatus
  {
    if judgements == [] || judgements[0] == BadStatus then 0
    else
      var m := FirstBad(judgements[1..]);
      NoBadStatusBefore(judgements, m);
      m + 1
  }

  lemma NoBadStatusBefore(judgements: seq<Judged>, m: nat)
    requires m < |judgements| && judgements[0] != BadStatus && NoBadStatus(judgements[1..][..m])
    ensures NoBadStatus(judgements[..m + 1])
  {
    assert forall i :: 0 < i <= m ==> judgements[i] == judgements[1..][..m][i - 1];
  }

  function TxOf(db: Db, judgements: seq<Judged>, faults: Faults): Tx
    requires FirstBad(judgements) == |judgements|
  {
    var first := FirstPass(judgements, faults, db.verdicts, |judgements|);
    SecondPass(first.pending, faults, Tx(db.rows, db.nextId, [], 0, first.errors, 0), Taken(first.pending, faults))
  }

  function OutcomeOf(db: Db, judgements: seq<Judged>, faults: Faults): Outcome {
    var n := FirstBad(judgements);
    if n < |judgements| then Rejected
    else
      var tx := TxOf(db, judgements, faults);
      var errors := tx.errors + if Aborted(faults) then [CommitError] else [];
      Reported(tx.written, tx.duplicates, FirstPass(judgements, faults, db.verdicts, n).skipped, errors,
               if errors == [] then 0 else 1)
  }

  function DbAfter(db: Db, judgements: seq<Judged>, faults: Faults): Db {
    var n := FirstBad(judgements);
    var verdicts := FirstPass(judgements, faults, db.verdicts, n).verdicts;
    if n < |judgements| || Aborted(faults) then db.(verdicts := verdicts)
    else
      var tx := TxOf(db, judgements, faults);
      Db(tx.rows, tx.nextId, verdicts)
  }

  class Store {
    var rows: Rows
    var nextId: nat
    var verdicts: set<Dismissal>

    constructor ()
      ensures View() == Db(map[], 1, {})
    {
      rows, nextId, verdicts := map[], 1, {};
    }

    function View(): Db
      reads this
    {
      Db(rows, nextId, verdicts)
    }

    /** The first loop; a dismissed row is entered in the ledger at once, outside any transaction. */
    method Validate(inputs: seq<Input>, c: Context, faults: Faults) returns (rejected: bool, first: First)
      modifies this`verdicts
      ensures rejected <==> FirstBad(JudgeAll(inputs, c)) < |inputs|
      ensures first == FirstPass(JudgeAll(inputs, c), faults, old(verdicts), FirstBad(JudgeAll(inputs, c)))
      ensures verdicts == first.verdicts
    {
      ghost var judgements := JudgeAll(inputs, c);
      first := First([], [], 0, verdicts);
      var i := 0;
      while i < |inputs|
        invariant i <= |inputs| && Passed(first, judgements, faults, old(verdicts), i) && verdicts == first.verdicts
      {
        var judged := Judge(inputs[i], c);
        NextRow(first, judgements, faults, old(verdicts), i);
        if judged == BadStatus {
          return true, first;
        }
        first := EnterRow(first, i, judged, faults);
        verdicts := first.verdicts;
        i := i + 1;
      }
      rejected := false;
    }

    /** One row of the first pass that does not reject the batch. */
    method EnterRow(p: First, row: nat, judged: Judged, faults: Faults) returns (q: First)
      requires judged != BadStatus
      ensures q == FirstStep(p, row, judged, faults)
    {
      var pending, errors, skipped, ledger := p.pending, p.errors, p.skipped, p.verdicts;
      match judged {
        case NoLocation => errors := errors + [LocationError(row)];
        case BadRule => errors := errors + [RuleError(row)];
        case Ready(f) => pending := pending + [Pending(row, f)];
        case Skip(v) =>
          skipped := skipped + 1;
          if v.vulnType != "" && !faults.ledger(row) {
            ledger := ledger + {v};
          }
      }
      q := First(pending, errors, skipped, ledger);
    }

    /** The transaction: begin, probe and upsert every pending row, then commit all or nothing. */
    method WriteAll(first: First, faults: Faults) returns (tx: Tx)
      modifies this`rows, this`nextId
      ensures tx == SecondPass(first.pending, faults, Tx(old(rows), old(nextId), [], 0, first.errors, 0),
                               Taken(first.pending, faults))
      ensures rows == if Aborted(faults) then old(rows) else tx.rows
      ensures nextId == if Aborted(faults) then old(nextId) else tx.nextId
      ensures faults.begin ==> tx.written == [] && tx.errors == first.errors
    {
      ghost var start := Tx(rows, nextId, [], 0, first.errors, 0);
      var inTx, id, written, duplicates, errors, wasted := rows, nextId, [], 0, first.errors, 0;
      if faults.begin {
        return Tx(inTx, id, written, duplicates, errors, wasted);
      }
      for i := 0 to |first.pending|
        invariant Tx(inTx, id, written, duplicates, errors, wasted) == SecondPass(first.pending, faults, start, i)
      {
        var p := first.pending[i];
        if faults.probe(p.row) {
          errors := errors + [ProbeError(p.row)];
        } else {
          var duplicate := p.finding.key in inTx;
          if duplicate {
            duplicates := duplicates + 1;
          }
          if faults.upsert(p.row) {
            errors := errors + [UpsertError(p.row)];
            wasted := wasted + if duplicate then 1 else 0;
          } else {
            written := written + [Written(p.row, IdOf(inTx, id, p.finding.key), duplicate)];
            inTx := Upsert(inTx, id, p.finding);
            id := if duplicate then id else id + 1;
          }
        }
      }
      if !faults.commit {
        rows, nextId := inTx, id;
      }
      tx := Tx(inTx, id, written, duplicates, errors, wasted);
    }

    method Write(inputs: seq<Input>, c: Context, faults: Faults) returns (outcome: Outcome)
      modifies this
      ensures outcome == OutcomeOf(old(View()), JudgeAll(inputs, c), faults)
      ensures View() == DbAfter(old(View()), JudgeAll(inputs, c), faults)
    {
      var rejected, first := Validate(inputs, c, faults);
      if rejected {
        return Rejected;
      }
      var tx := WriteAll(first, faults);
      var errors := tx.errors + if Aborted(faults) then [CommitError] else [];
      return Reported(tx.written, tx.duplicates, first.skipped, errors, if errors == [] then 0 else 1);
    }
  }

  lemma FirstPassNext(judgements: seq<Judged>, faults: Faults, verdicts: set<Dismissal>, n: nat)
    requires n < |judgements| && NoBadStatus(judgements[..n]) && NoBadStatus(judgements[..n + 1])
    ensures judgements[n] != BadStatus
    ensures FirstPass(judgements, faults, verdicts, n + 1)
         == FirstStep(FirstPass(judgements, faults, verdicts, n), n, judgements[n], faults)
  {
    assert judgements[..n + 1][n] == judgements[n];
  }

  /** The first i rows did not reject the batch, and p is what the first pass made of them. */
  ghost predicate Passed(p: First, judgements: seq<Judged>, faults: Faults, verdicts: set<Dismissal>, i: nat) {
    && i <= FirstBad(judgements) && NoBadStatus(judgements[..i])
    && p == FirstPass(judgements, faults, verdicts, i)
  }

  /** The row after those that passed rejects the batch, or passes too. */
  lemma NextRow(p: First, judgements: seq<Judged>, faults: Faults, verdicts: set<Dismissal>, i: nat)
    requires i < |judgements| && Passed(p, judgements, faults, verdicts, i)
    ensures judgements[i] == BadStatus <==> i == FirstBad(judgements)
    ensures judgements[i] != BadStatus ==>
      Passed(FirstStep(p, i, judgements[i], faults), judgements, faults, verdicts, i + 1)
  {
    BadIsFirst(judgements, i);
    if judgements[i] != BadStatus {
      FirstPassNext(judgements, faults, verdicts, i);
    }
  }

  lemma BadIsFirst(judgements: seq<Judged>, i: nat)
    requires i < |judgements| && i <= FirstBad(judgements)
    ensures judgements[i] == BadStatus <==> i == FirstBad(judgements)
    ensures i < FirstBad(judgements) ==> NoBadStatus(judgements[..i + 1])
  {
    if i < FirstBad(judgements) {
      NoBadStatusUpTo(judgements, i, FirstBad(judgements));
    }
  }

  lemma NoBadStatusUpTo(judgements: seq<Judged>, i: nat, n: nat)
    requires i < n <= |judgements| && NoBadStatus(judgements[..n])
    ensures judgements[i] != BadStatus && NoBadStatus(judgements[..i + 1])
  {
    assert forall j :: 0 <= j <= i ==> judgements[..i + 1][j] == judgements[..n][j] == judgements[j];
  }
}
