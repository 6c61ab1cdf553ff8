/** What a batch promises: an account of every row, and the state of the store over whole runs. */
module WriteBatchLaws {
  import opened Options
  import opened WriteBatch
  import opened Text
  import FindingPaths

  // ---------- row accounting ----------

  ghost predicate InErrors(errors: seq<BatchError>, row: nat) {
    exists e :: e in errors && !e.CommitError? && e.row == row
  }

  ghost predicate InWritten(written: seq<Written>, row: nat) {
    exists w :: w in written && w.row == row
  }

  ghost predicate InPending(pending: seq<Pending>, row: nat) {
    exists p :: p in pending && p.row == row
  }

  /** After n rows: each is pending, in errors or a dismissal, and nothing is listed twice. */
  ghost predicate FirstAccount(p: First, judgements: seq<Judged>, n: nat)
    requires n <= |judgements|
  {
    && (forall i :: 0 <= i < n ==> (InPending(p.pending, i) <==> judgements[i].Ready?))
    && (forall i :: 0 <= i < n ==> (InErrors(p.errors, i) <==> judgements[i].NoLocation? || judgements[i].BadRule?))
    && (forall i :: i >= n ==> !InPending(p.pending, i) && !InErrors(p.errors, i))
    && CommitError !in p.errors
    && |p.pending| + |p.errors| + p.skipped == n
  }

  lemma AddPending(pending: seq<Pending>, p: Pending)
    ensures forall i :: InPending(pending + [p], i) <==> InPending(pending, i) || i == p.row
  {
    forall i ensures InPending(pending + [p], i) <==> InPending(pending, i) || i == p.row {
      if i == p.row {
        assert p in pending + [p];
      }
      if q :| q in pending && q.row == i {
        assert q in pending + [p];
      }
    }
  }

  lemma AddError(errors: seq<BatchError>, e: BatchError)
    requires !e.CommitError?
    ensures forall i :: InErrors(errors + [e], i) <==> InErrors(errors, i) || i == e.row
  {
    forall i ensures InErrors(errors + [e], i) <==> InErrors(errors, i) || i == e.row {
      if i == e.row {
        assert e in errors + [e];
      }
      if d :| d in errors && !d.CommitError? && d.row == i {
        assert d in errors + [e];
      }
    }
  }

  lemma AddWritten(written: seq<Written>, w: Written)
    ensures forall i :: InWritten(written + [w], i) <==> InWritten(written, i) || i == w.row
  {
    forall i ensures InWritten(written + [w], i) <==> InWritten(written, i) || i == w.row {
      if i == w.row {
        assert w in written + [w];
      }
      if v :| v in written && v.row == i {
        assert v in written + [w];
      }
    }
  }

  lemma {:induction false} FirstPassAccounts(judgements: seq<Judged>, faults: Faults, verdicts: set<Dismissal>, n: nat)
    requires n <= |judgements| && NoBadStatus(judgements[..n])
    ensures FirstAccount(FirstPass(judgements, faults, verdicts, n), judgements, n)
  {
    if n > 0 {
      assert judgements[..n - 1] == judgements[..n][..n - 1];
      FirstPassNext(judgements, faults, verdicts, n - 1);
      FirstPassAccounts(judgements, faults, verdicts, n - 1);
      FirstStepAccounts(FirstPass(judgements, faults, verdicts, n - 1), judgements, faults, n - 1);
    }
  }

  lemma FirstStepAccounts(p: First, judgements: seq<Judged>, faults: Faults, n: nat)
    requires n < |judgements| && judgements[n] != BadStatus && FirstAccount(p, judgements, n)
    ensures FirstAccount(FirstStep(p, n, judgements[n], faults), judgements, n + 1)
  {
    RowPlaced(p, n, judgements[n], faults);
  }

  /** The first pass puts the row where it belongs and leaves the others. */
  lemma RowPlaced(p: First, n: nat, judged: Judged, faults: Faults)
    requires judged != BadStatus && CommitError !in p.errors
    ensures var q := FirstStep(p, n, judged, faults);
            && (forall i :: InPending(q.pending, i) <==> InPending(p.pending, i) || (i == n && judged.Ready?))
            && (forall i :: InErrors(q.errors, i) <==>
                InErrors(p.errors, i) || (i == n && (judged.NoLocation? || judged.BadRule?)))
            && CommitError !in q.errors
            && |q.pending| + |q.errors| + q.skipped == |p.pending| + |p.errors| + p.skipped + 1
  {
    match judged
    case NoLocation => AddError(p.errors, LocationError(n));
    case BadRule => AddError(p.errors, RuleError(n));
    case Ready(f) => AddPending(p.pending, Pending(n, f));
    case Skip(_) =>
  }

  /** After the transaction took m pending rows: those are written or in errors, never both. */
  ghost predicate SecondAccount(tx: Tx, first: First, m: nat)
    requires m <= |first.pending|
  {
    && (forall i :: InPending(first.pending[..m], i) ==> (InWritten(tx.written, i) <==> !InErrors(tx.errors, i)))
    && (forall i :: InWritten(tx.written, i) ==> InPending(first.pending[..m], i))
    && (forall i :: InErrors(tx.errors, i) ==> InErrors(first.errors, i) || InPending(first.pending[..m], i))
    && (forall i :: InErrors(first.errors, i) ==> InErrors(tx.errors, i))
    && CommitError !in tx.errors
    && |tx.written| + |tx.errors| == m + |first.errors|
  }

  /** Rows that are pending come in increasing order and are not in errors yet. */
  ghost predicate Fresh(first: First) {
    && (forall m, n :: 0 <= m < n < |first.pending| ==> first.pending[m].row < first.pending[n].row)
    && (forall i :: InPending(first.pending, i) ==> !InErrors(first.errors, i))
    && CommitError !in first.errors
  }

  lemma {:induction false} FirstPassFresh(judgements: seq<Judged>, faults: Faults, verdicts: set<Dismissal>, n: nat)
    requires n <= |judgements| && NoBadStatus(judgements[..n])
    ensures Fresh(FirstPass(judgements, faults, verdicts, n))
  {
    FirstPassAccounts(judgements, faults, verdicts, n);
    FirstPassOrdered(judgements, faults, verdicts, n);
  }

  /** Pending rows stand in input order and carry the finding the row was judged to be. */
  ghost predicate InOrder(pending: seq<Pending>, judgements: seq<Judged>, n: nat)
    requires n <= |judgements|
  {
    && (forall k :: 0 <= k < |pending| ==>
        pending[k].row < n && judgements[pending[k].row] == Ready(pending[k].finding))
    && (forall k, l :: 0 <= k < l < |pending| ==> pending[k].row < pending[l].row)
  }

  lemma {:induction false} FirstPassOrdered(judgements: seq<Judged>, faults: Faults, verdicts: set<Dismissal>, n: nat)
    requires n <= |judgements| && NoBadStatus(judgements[..n])
    ensures InOrder(FirstPass(judgements, faults, verdicts, n).pending, judgements, n)
  {
    if n == 0 {
      assert FirstPass(judgements, faults, verdicts, 0).pending == [];
    } else {
      assert judgements[..n - 1] == judgements[..n][..n - 1];
      FirstPassNext(judgements, faults, verdicts, n - 1);
      FirstPassOrdered(judgements, faults, verdicts, n - 1);
      StepInOrder(FirstPass(judgements, faults, verdicts, n - 1), judgements, faults, n - 1);
    }
  }

  lemma StepInOrder(p: First, judgements: seq<Judged>, faults: Faults, n: nat)
    requires n < |judgements| && judgements[n] != BadStatus && InOrder(p.pending, judgements, n)
    ensures InOrder(FirstStep(p, n, judgements[n], faults).pending, judgements, n + 1)
  {}

  lemma PendingSplit(first: First, m: nat)
    requires m < |first.pending| && Fresh(first)
    ensures forall i :: InPending(first.pending[..m + 1], i) <==>
        InPending(first.pending[..m], i) || i == first.pending[m].row
    ensures !InPending(first.pending[..m], first.pending[m].row) && !InErrors(first.errors, first.pending[m].row)
  {
    assert first.pending[..m + 1] == first.pending[..m] + [first.pending[m]];
    AddPending(first.pending[..m], first.pending[m]);
    assert first.pending[m] in first.pending;
    assert InPending(first.pending, first.pending[m].row);
  }

  lemma SecondStepAccounts(tx: Tx, first: First, faults: Faults, m: nat)
    requires m < |first.pending| && Fresh(first) && SecondAccount(tx, first, m)
    ensures SecondAccount(SecondStep(tx, first.pending[m], faults), first, m + 1)
  {
    var p := first.pending[m];
    PendingSplit(first, m);
    assert !InWritten(tx.written, p.row) && !InErrors(tx.errors, p.row);
    if faults.probe(p.row) {
      AddError(tx.errors, ProbeError(p.row));
    } else if faults.upsert(p.row) {
      AddError(tx.errors, UpsertError(p.row));
    } else {
      AddWritten(tx.written, Written(p.row, IdOf(tx.rows, tx.nextId, p.finding.key), p.finding.key in tx.rows));
    }
  }

  lemma {:induction false} SecondPassAccounts(first: First, faults: Faults, rows: Rows, nextId: nat, m: nat)
    requires m <= |first.pending| && Fresh(first)
    ensures SecondAccount(SecondPass(first.pending, faults, Tx(rows, nextId, [], 0, first.errors, 0), m), first, m)
  {
    if m > 0 {
      SecondPassAccounts(first, faults, rows, nextId, m - 1);
      SecondStepAccounts(SecondPass(first.pending, faults, Tx(rows, nextId, [], 0, first.errors, 0), m - 1), first,
                         faults, m - 1);
    }
  }

  ghost predicate AtMostOne(a: bool, b: bool, c: bool) {
    !(a && b) && !(a && c) && !(b && c)
  }

  predicate NoneReady(judgements: seq<Judged>) {
    forall i :: 0 <= i < |judgements| ==> !judgements[i].Ready?
  }

  /** The row is listed nowhere: the batch counts it neither as written nor dismissed nor failed. */
  ghost predicate Unlisted(o: Outcome, judged: Judged, row: nat)
    requires o.Reported?
  {
    !InWritten(o.written, row) && !judged.Skip? && !InErrors(o.errors, row)
  }

  /** Row accounting. An accepted batch lists no row twice; a row is listed nowhere exactly when it was
      to be written and the transaction did not begin. So every row is listed exactly once, and the
      counts add up, if and only if the transaction began or no row was to be written. */
  lemma EveryRowIsAccountedFor(db: Db, judgements: seq<Judged>, faults: Faults)
    requires NoBadStatus(judgements)
    ensures OutcomeOf(db, judgements, faults).Reported?
    ensures var o := OutcomeOf(db, judgements, faults);
            forall i :: 0 <= i < |judgements| ==>
              && AtMostOne(InWritten(o.written, i), judgements[i].Skip?, InErrors(o.errors, i))
              && (Unlisted(o, judgements[i], i) <==> faults.begin && judgements[i].Ready?)
    ensures var o := OutcomeOf(db, judgements, faults);
            && ((forall i :: 0 <= i < |judgements| ==> !Unlisted(o, judgements[i], i)) <==>
                !faults.begin || NoneReady(judgements))
            && (|o.written| + o.skipped + |o.errors| == |judgements| + (if Aborted(faults) then 1 else 0) <==>
                !faults.begin || NoneReady(judgements))
    ensures CommitError in OutcomeOf(db, judgements, faults).errors <==> Aborted(faults)
    ensures var o := OutcomeOf(db, judgements, faults);
            && (o.exit == 0 <==> o.errors == [])
            && (o.exit == 0 <==> !Aborted(faults) && forall i :: 0 <= i < |judgements| ==>
                InWritten(o.written, i) || judgements[i].Skip?)
  {
    AcceptedIsWhole(judgements);
    var n := |judgements|;
    assert judgements[..n] == judgements;
    var first := FirstPass(judgements, faults, db.verdicts, n);
    FirstPassAccounts(judgements, faults, db.verdicts, n);
    FirstPassFresh(judgements, faults, db.verdicts, n);
    SecondPassAccounts(first, faults, db.rows, db.nextId, Taken(first.pending, faults));
    var tx := TxOf(db, judgements, faults);
    CommitErrorHasNoRow(tx.errors);
    RowsListed(tx, first, judgements, faults);
    CountsAddUp(tx, first, judgements, faults);
    if !faults.begin {
      NoErrorsMeansWritten(tx, first, judgements, faults);
    }
  }

  /** One valid row and no write lock: the batch lists nothing but the commit error. */
  lemma UnbegunBatchHidesItsRow(db: Db, f: Finding, faults: Faults)
    requires faults.begin
    ensures OutcomeOf(db, [Ready(f)], faults) == Reported([], 0, 0, [CommitError], 1)
    ensures DbAfter(db, [Ready(f)], faults) == db
  {
    var judgements := [Ready(f)];
    AcceptedIsWhole(judgements);
    assert judgements[..1] == judgements;
    FirstPassNext(judgements, faults, db.verdicts, 0);
  }

  lemma CommitErrorHasNoRow(errors: seq<BatchError>)
    ensures forall i :: InErrors(errors + [CommitError], i) <==> InErrors(errors, i)
    ensures errors + [] == errors
  {
    forall i ensures InErrors(errors + [CommitError], i) <==> InErrors(errors, i) {
      if e :| e in errors && !e.CommitError? && e.row == i {
        assert e in errors + [CommitError];
      }
    }
  }

  /** The transaction took the pending rows, or did not begin and took none. */
  ghost predicate TxAccount(tx: Tx, first: First, judgements: seq<Judged>, faults: Faults) {
    && NoBadStatus(judgements)
    && FirstAccount(first, judgements, |judgements|)
    && SecondAccount(tx, first, Taken(first.pending, faults))
  }

  lemma PendingTaken(first: First, faults: Faults)
    ensures var taken := first.pending[..Taken(first.pending, faults)];
            forall i :: InPending(taken, i) <==> !faults.begin && InPending(first.pending, i)
  {
    assert first.pending[..|first.pending|] == first.pending;
  }

  lemma RowListed(tx: Tx, first: First, judgements: seq<Judged>, faults: Faults, i: nat)
    requires TxAccount(tx, first, judgements, faults) && i < |judgements|
    ensures InWritten(tx.written, i) ==> judgements[i].Ready? && !InErrors(tx.errors, i)
    ensures InErrors(tx.errors, i) ==> !judgements[i].Skip?
    ensures !InWritten(tx.written, i) && !judgements[i].Skip? && !InErrors(tx.errors, i) <==>
            faults.begin && judgements[i].Ready?
  {
    PendingTaken(first, faults);
    assert judgements[i] != BadStatus;
  }

  lemma RowsListed(tx: Tx, first: First, judgements: seq<Judged>, faults: Faults)
    requires TxAccount(tx, first, judgements, faults)
    ensures forall i :: 0 <= i < |judgements| ==>
      && AtMostOne(InWritten(tx.written, i), judgements[i].Skip?, InErrors(tx.errors, i))
      && (!InWritten(tx.written, i) && !judgements[i].Skip? && !InErrors(tx.errors, i) <==>
          faults.begin && judgements[i].Ready?)
  {
    forall i | 0 <= i < |judgements|
      ensures AtMostOne(InWritten(tx.written, i), judgements[i].Skip?, InErrors(tx.errors, i))
      ensures !InWritten(tx.written, i) && !judgements[i].Skip? && !InErrors(tx.errors, i) <==>
              faults.begin && judgements[i].Ready?
    {
      RowListed(tx, first, judgements, faults, i);
    }
  }

  /** The counts miss the pending rows of a transaction that did not begin. */
  lemma CountsAddUp(tx: Tx, first: First, judgements: seq<Judged>, faults: Faults)
    requires TxAccount(tx, first, judgements, faults)
    ensures |tx.written| + first.skipped + |tx.errors| == |judgements| <==> !faults.begin || NoneReady(judgements)
  {
    if first.pending != [] {
      assert InPending(first.pending, first.pending[0].row);
      assert !NoneReady(judgements);
    } else {
      assert NoneReady(judgements) by {
        forall i | 0 <= i < |judgements| ensures !judgements[i].Ready? {
          assert !InPending(first.pending, i);
        }
      }
    }
  }

  lemma NoErrorsMeansWritten(tx: Tx, first: First, judgements: seq<Judged>, faults: Faults)
    requires TxAccount(tx, first, judgements, faults) && !faults.begin
    ensures tx.errors == [] <==>
            forall i :: 0 <= i < |judgements| ==> InWritten(tx.written, i) || judgements[i].Skip?
  {
    RowsListed(tx, first, judgements, faults);
    if tx.errors != [] {
      FailedRowShows(tx, first, judgements, faults);
    } else {
      assert forall i :: !InErrors(tx.errors, i);
    }
  }

  lemma FailedRowShows(tx: Tx, first: First, judgements: seq<Judged>, faults: Faults)
    requires TxAccount(tx, first, judgements, faults) && tx.errors != []
    ensures exists i :: 0 <= i < |judgements| && !InWritten(tx.written, i) && !judgements[i].Skip?
  {
    var e := tx.errors[0];
    assert e in tx.errors && e != CommitError;
    assert InErrors(tx.errors, e.row);
    PendingTaken(first, faults);
    assert InErrors(first.errors, e.row) || InPending(first.pending, e.row);
    RowListed(tx, first, judgements, faults, e.row);
  }

  lemma {:induction false} AcceptedIsWhole(judgements: seq<Judged>)
    ensures NoBadStatus(judgements) <==> FirstBad(judgements) == |judgements|
  {
    var n := FirstBad(judgements);
    if n == |judgements| {
      assert judgements[..n] == judgements;
    }
  }

  /** The row is a dismissal that enters the ledger: it has a type, and the ledger write works. */
  predicate Recorded(judged: Judged, fails: bool) {
    judged.Skip? && !fails && judged.verdict.vulnType != ""
  }

  /** The dismissals that the first n rows enter. */
  function Entered(judgements: seq<Judged>, faults: Faults, n: nat): set<Dismissal>
    requires n <= |judgements|
  {
    set i | 0 <= i < n && Recorded(judgements[i], faults.ledger(i)) :: judgements[i].verdict
  }

  lemma EnteredNext(judgements: seq<Judged>, faults: Faults, n: nat)
    requires n < |judgements|
    ensures Entered(judgements, faults, n + 1) == Entered(judgements, faults, n)
              + (if Recorded(judgements[n], faults.ledger(n)) then {judgements[n].verdict} else {})
  {}

  lemma StepEnters(p: First, row: nat, judged: Judged, faults: Faults)
    requires judged != BadStatus
    ensures FirstStep(p, row, judged, faults).verdicts
         == p.verdicts + (if Recorded(judged, faults.ledger(row)) then {judged.verdict} else {})
  {}

  lemma {:induction false} LedgerIsExact(judgements: seq<Judged>, faults: Faults, verdicts: set<Dismissal>, n: nat)
    requires n <= |judgements| && NoBadStatus(judgements[..n])
    ensures FirstPass(judgements, faults, verdicts, n).verdicts == verdicts + Entered(judgements, faults, n)
  {
    if n > 0 {
      assert judgements[..n - 1] == judgements[..n][..n - 1];
      LedgerIsExact(judgements, faults, verdicts, n - 1);
      FirstPassNext(judgements, faults, verdicts, n - 1);
      StepEnters(FirstPass(judgements, faults, verdicts, n - 1), n - 1, judgements[n - 1], faults);
      EnteredNext(judgements, faults, n - 1);
    }
  }

  /** A batch, rejected or not, enters exactly the dismissals before its first invalid status. One
      invalid status rejects the batch, and no finding is written; the store is left as it was if
      and only if every dismissal before that row was in the ledger already. */
  lemma BadStatusRejectsTheBatch(db: Db, judgements: seq<Judged>, faults: Faults)
    ensures OutcomeOf(db, judgements, faults).Rejected? <==>
        exists i :: 0 <= i < |judgements| && judgements[i] == BadStatus
    ensures DbAfter(db, judgements, faults).verdicts == db.verdicts + Entered(judgements, faults, FirstBad(judgements))
    ensures OutcomeOf(db, judgements, faults).Rejected? ==>
      DbAfter(db, judgements, faults).rows == db.rows && DbAfter(db, judgements, faults).nextId == db.nextId
    ensures OutcomeOf(db, judgements, faults).Rejected? ==>
      (DbAfter(db, judgements, faults) == db <==> Entered(judgements, faults, FirstBad(judgements)) <= db.verdicts)
  {
    AcceptedIsWhole(judgements);
    LedgerIsExact(judgements, faults, db.verdicts, FirstBad(judgements));
  }

  // ---------- one transaction ----------

  ghost predicate KeysAre(rows: Rows, start: Rows, written: seq<Key>) {
    rows.Keys == start.Keys + (set k | k in written)
  }

  /** Every row there before is there with its id and its review. */
  ghost predicate Kept(start: Rows, rows: Rows) {
    forall k :: k in start ==> k in rows && rows[k].id == start[k].id && rows[k].review == start[k].review
  }

  ghost predicate IdsMatch(rows: Rows, written: seq<Key>, list: seq<Written>) {
    |written| == |list| && forall m :: 0 <= m < |written| ==> written[m] in rows && rows[written[m]].id == list[m].id
  }

  /** What the transaction did to the store it started from. */
  ghost predicate TxInv(tx: Tx, start: Rows, written: seq<Key>) {
    && |tx.rows| + tx.duplicates == |start| + |tx.written| + tx.wasted
    && KeysAre(tx.rows, start, written)
    && Kept(start, tx.rows)
    && IdsMatch(tx.rows, written, tx.written)
  }

  /** The keys of the rows the transaction wrote, in order. */
  ghost function KeysWritten(pending: seq<Pending>, faults: Faults, m: nat): seq<Key>
    requires m <= |pending|
  {
    if m == 0 then []
    else
      var p := pending[m - 1];
      KeysWritten(pending, faults, m - 1) + if faults.probe(p.row) || faults.upsert(p.row) then [] else [p.finding.key]
  }

  lemma UpsertKeeps(rows: Rows, nextId: nat, f: Finding)
    ensures var after := Upsert(rows, nextId, f);
            && after.Keys == rows.Keys + {f.key}
            && |after| == |rows| + (if f.key in rows then 0 else 1)
            && after[f.key].id == IdOf(rows, nextId, f.key)
            && Kept(rows, after)
  {
    var after := Upsert(rows, nextId, f);
    assert after.Keys == rows.Keys + {f.key};
    assert |after| == |after.Keys| && |rows| == |rows.Keys|;
    if f.key in rows {
      assert after.Keys == rows.Keys;
    }
  }

  lemma KeptTwice(a: Rows, b: Rows, c: Rows)
    requires Kept(a, b) && Kept(b, c)
    ensures Kept(a, c)
  {}

  lemma IdsMore(rows: Rows, after: Rows, written: seq<Key>, list: seq<Written>, k: Key, w: Written)
    requires IdsMatch(rows, written, list) && Kept(rows, after) && k in after && after[k].id == w.id
    ensures IdsMatch(after, written + [k], list + [w])
  {}

  lemma KeysMore(rows: Rows, after: Rows, start: Rows, written: seq<Key>, k: Key)
    requires KeysAre(rows, start, written) && after.Keys == rows.Keys + {k}
    ensures KeysAre(after, start, written + [k])
  {
    assert (set x | x in written + [k]) == (set x | x in written) + {k};
  }

  /** A pending row whose probe or upsert fails leaves the store alone. */
  lemma TxFailed(tx: Tx, start: Rows, written: seq<Key>, p: Pending, faults: Faults)
    requires TxInv(tx, start, written) && (faults.probe(p.row) || faults.upsert(p.row))
    ensures TxInv(SecondStep(tx, p, faults), start, written)
  {}

  lemma TxWritten(tx: Tx, start: Rows, written: seq<Key>, p: Pending, faults: Faults)
    requires TxInv(tx, start, written) && !faults.probe(p.row) && !faults.upsert(p.row)
    ensures TxInv(SecondStep(tx, p, faults), start, written + [p.finding.key])
  {
    var next := SecondStep(tx, p, faults);
    var k := p.finding.key;
    var w := Written(p.row, IdOf(tx.rows, tx.nextId, k), k in tx.rows);
    UpsertKeeps(tx.rows, tx.nextId, p.finding);
    assert next.rows == Upsert(tx.rows, tx.nextId, p.finding) && next.written == tx.written + [w];
    KeysMore(tx.rows, next.rows, start, written, k);
    KeptTwice(start, tx.rows, next.rows);
    IdsMore(tx.rows, next.rows, written, tx.written, k, w);
  }

  lemma TxStep(tx: Tx, start: Rows, written: seq<Key>, p: Pending, faults: Faults)
    requires TxInv(tx, start, written)
    ensures TxInv(SecondStep(tx, p, faults), start,
                  written + if faults.probe(p.row) || faults.upsert(p.row) then [] else [p.finding.key])
  {
    if faults.probe(p.row) || faults.upsert(p.row) {
      TxFailed(tx, start, written, p, faults);
      assert written + [] == written;
    } else {
      TxWritten(tx, start, written, p, faults);
    }
  }

  lemma TxStarts(start: Tx)
    requires start.written == [] && start.duplicates == 0 && start.wasted == 0
    ensures TxInv(start, start.rows, [])
  {
    assert start.rows.Keys + (set k: Key | k in []) == start.rows.Keys;
  }

  lemma SecondPassNext(pending: seq<Pending>, faults: Faults, start: Tx, m: nat)
    requires m < |pending|
    ensures SecondPass(pending, faults, start, m + 1) ==
        SecondStep(SecondPass(pending, faults, start, m), pending[m], faults)
    ensures KeysWritten(pending, faults, m + 1) == KeysWritten(pending, faults, m)
              + if faults.probe(pending[m].row) || faults.upsert(pending[m].row) then [] else [pending[m].finding.key]
  {}

  lemma TxHoldsNext(pending: seq<Pending>, faults: Faults, start: Tx, m: nat, tx: Tx, written: seq<Key>)
    returns (tx': Tx, written': seq<Key>)
    requires m < |pending| && TxInv(tx, start.rows, written)
    requires tx == SecondPass(pending, faults, start, m) && written == KeysWritten(pending, faults, m)
    ensures TxInv(tx', start.rows, written')
    ensures tx' == SecondPass(pending, faults, start, m + 1) && written' == KeysWritten(pending, faults, m + 1)
  {
    var failed := faults.probe(pending[m].row) || faults.upsert(pending[m].row);
    tx', written' := SecondStep(tx, pending[m], faults), written + if failed then [] else [pending[m].finding.key];
    SecondPassNext(pending, faults, start, m);
    TxStep(tx, start.rows, written, pending[m], faults);
  }

  /** The transaction after m pending rows, and the keys it has written. */
  lemma {:induction false} TxHolds(pending: seq<Pending>, faults: Faults, start: Tx, m: nat)
    returns (tx: Tx, written: seq<Key>)
    requires m <= |pending| && TxInv(start, start.rows, [])
    ensures TxInv(tx, start.rows, written)
    ensures tx == SecondPass(pending, faults, start, m) && written == KeysWritten(pending, faults, m)
  {
    if m == 0 {
      tx, written := start, [];
    } else {
      tx, written := TxHolds(pending, faults, start, m - 1);
      tx, written := TxHoldsNext(pending, faults, start, m - 1, tx, written);
    }
  }

  // ---------- whole runs ----------

  datatype Batch = Batch(judgements: seq<Judged>, faults: Faults)

  function Apply(db: Db, b: Batch): Db { DbAfter(db, b.judgements, b.faults) }

  function Run(db: Db, batches: seq<Batch>): Db
    decreases |batches|
  {
    if batches == [] then db else Run(Apply(db, batches[0]), batches[1..])
  }

  predicate Committed(b: Batch) { FirstBad(b.judgements) == |b.judgements| && !Aborted(b.faults) }

  function PendingOf(b: Batch): seq<Pending>
    requires FirstBad(b.judgements) == |b.judgements|
  {
    FirstPass(b.judgements, b.faults, {}, |b.judgements|).pending
  }

  /** The keys a batch adds to the store. */
  ghost function KeysOf(b: Batch): seq<Key> {
    if Committed(b) then KeysWritten(PendingOf(b), b.faults, |PendingOf(b)|) else []
  }

  lemma {:induction false} LedgerDoesNotMatter(judgements: seq<Judged>, faults: Faults, v: set<Dismissal>,
                                               w: set<Dismissal>, n: nat)
    requires n <= |judgements| && NoBadStatus(judgements[..n])
    ensures FirstPass(judgements, faults, v, n).pending == FirstPass(judgements, faults, w, n).pending
  {
    if n > 0 {
      assert judgements[..n - 1] == judgements[..n][..n - 1];
      FirstPassNext(judgements, faults, v, n - 1);
      FirstPassNext(judgements, faults, w, n - 1);
      LedgerDoesNotMatter(judgements, faults, v, w, n - 1);
    }
  }

  ghost predicate BatchInv(db: Db, b: Batch) {
    var after := Apply(db, b);
    && KeysAre(after.rows, db.rows, KeysOf(b))
    && Kept(db.rows, after.rows)
    && (Committed(b) ==>
          var tx := TxOf(db, b.judgements, b.faults);
          && |after.rows| + tx.duplicates == |db.rows| + |tx.written| + tx.wasted
          && IdsMatch(after.rows, KeysOf(b), tx.written))
    && (!Committed(b) ==> after.rows == db.rows)
  }

  lemma BatchHolds(db: Db, b: Batch)
    ensures BatchInv(db, b)
  {
    if Committed(b) {
      var first := FirstPass(b.judgements, b.faults, db.verdicts, |b.judgements|);
      LedgerDoesNotMatter(b.judgements, b.faults, db.verdicts, {}, |b.judgements|);
      TxStarts(Tx(db.rows, db.nextId, [], 0, first.errors, 0));
      var _, _ := TxHolds(first.pending, b.faults, Tx(db.rows, db.nextId, [], 0, first.errors, 0), |first.pending|);
    } else {
      assert db.rows.Keys + (set k: Key | k in []) == db.rows.Keys;
    }
  }

  /** Committed writes, duplicates and rows found but not written, over a run. */
  datatype Tally = Tally(written: nat, duplicates: nat, wasted: nat)

  function TallyOf(db: Db, batches: seq<Batch>): Tally
    decreases |batches|
  {
    if batches == [] then Tally(0, 0, 0)
    else
      var rest := TallyOf(Apply(db, batches[0]), batches[1..]);
      if !Committed(batches[0]) then rest
      else
        var tx := TxOf(db, batches[0].judgements, batches[0].faults);
        Tally(rest.written + |tx.written|, rest.duplicates + tx.duplicates, rest.wasted + tx.wasted)
  }

  ghost function KeysOfAll(batches: seq<Batch>): set<Key> {
    if batches == [] then {} else (set k | k in KeysOf(batches[0])) + KeysOfAll(batches[1..])
  }

  /** Over any sequence of batches, accepted or rejected, committed or not: the rows are those
      there before and the distinct keys committed since; a row once there keeps its id and its
      review. */
  lemma {:induction false} StoreHoldsTheKeysWritten(db: Db, batches: seq<Batch>)
    ensures Run(db, batches).rows.Keys == db.rows.Keys + KeysOfAll(batches)
    ensures Kept(db.rows, Run(db, batches).rows)
    decreases |batches|
  {
    if batches != [] {
      var next := Apply(db, batches[0]);
      BatchHolds(db, batches[0]);
      StoreHoldsTheKeysWritten(next, batches[1..]);
      KeptTwice(db.rows, next.rows, Run(next, batches[1..]).rows);
    }
  }

  /** From an empty store the row count is the number of distinct keys committed; and the sum of
      written minus duplicates is the row count if and only if no committed batch found a row that
      it then failed to write, because the duplicate is counted before the write. */
  lemma WrittenMinusDuplicates(start: Db, batches: seq<Batch>)
    requires start.rows == map[]
    ensures |Run(start, batches).rows| == |KeysOfAll(batches)|
    ensures var t := TallyOf(start, batches);
            && |Run(start, batches).rows| == t.written - t.duplicates + t.wasted
            && (t.written - t.duplicates == |Run(start, batches).rows| <==> t.wasted == 0)
  {
    StoreHoldsTheKeysWritten(start, batches);
    RowsBalance(start, batches);
    assert |Run(start, batches).rows| == |Run(start, batches).rows.Keys|;
  }

  lemma {:induction false} RowsBalance(db: Db, batches: seq<Batch>)
    ensures var t := TallyOf(db, batches);
            |Run(db, batches).rows| + t.duplicates == |db.rows| + t.written + t.wasted
    decreases |batches|
  {
    if batches != [] {
      BatchHolds(db, batches[0]);
      RowsBalance(Apply(db, batches[0]), batches[1..]);
    }
  }

  /** Every row of the list reported as written names a finding of the store. */
  ghost predicate ListedIsStored(written: seq<Written>, judgements: seq<Judged>, rows: Rows) {
    forall w :: w in written ==>
      w.row < |judgements| && judgements[w.row].Ready? && judgements[w.row].finding.key in rows
  }

  /** The rows that a batch reports as written are all in the store afterwards if and only if the
      commit did not fail, or they were all there before: a failed commit does not withdraw the list.
      A transaction that does not begin lists no row. */
  lemma ListedRowsAreStored(db: Db, b: Batch)
    requires FirstBad(b.judgements) == |b.judgements|
    ensures OutcomeOf(db, b.judgements, b.faults).Reported?
    ensures var written := OutcomeOf(db, b.judgements, b.faults).written;
            && (b.faults.begin ==> written == [])
            && (ListedIsStored(written, b.judgements, Apply(db, b).rows) <==>
                !b.faults.commit || ListedIsStored(written, b.judgements, db.rows))
  {
    if !b.faults.begin {
      var whole := |b.judgements|;
      var first := FirstPass(b.judgements, b.faults, db.verdicts, whole);
      var start := Tx(db.rows, db.nextId, [], 0, first.errors, 0);
      assert b.judgements[..whole] == b.judgements;
      FirstPassOrdered(b.judgements, b.faults, db.verdicts, whole);
      WrittenRowsHaveTheirKeys(b.judgements, first.pending, b.faults, start, |first.pending|);
      TxStarts(start);
      var _, _ := TxHolds(first.pending, b.faults, start, |first.pending|);
      var tx := TxOf(db, b.judgements, b.faults);
      ListedByKeys(tx.written, KeysWritten(first.pending, b.faults, |first.pending|), b.judgements, tx.rows);
    }
  }

  lemma ListedByKeys(written: seq<Written>, keys: seq<Key>, judgements: seq<Judged>, rows: Rows)
    requires KeysOfRows(written, keys, judgements) && forall k :: k in keys ==> k in rows
    ensures ListedIsStored(written, judgements, rows)
  {
    forall w | w in written
      ensures w.row < |judgements| && judgements[w.row].Ready? && judgements[w.row].finding.key in rows
    {
      var m :| 0 <= m < |written| && written[m] == w;
      assert keys[m] in keys;
    }
  }

  // ---------- replay ----------

  predicate NoFaults(faults: Faults, pending: seq<Pending>) {
    !Aborted(faults) && forall m :: 0 <= m < |pending| ==>
      !faults.probe(pending[m].row) && !faults.upsert(pending[m].row)
  }

  /** The last of the first m pending findings with a key. */
  ghost function Last(pending: seq<Pending>, m: nat, k: Key): Option<Finding>
    requires m <= |pending|
  {
    if m == 0 then None
    else if pending[m - 1].finding.key == k then Some(pending[m - 1].finding)
    else Last(pending, m - 1, k)
  }

  /** The row under k holds the last finding written to it, or is as it was. */
  ghost predicate HoldsLast(rows: Rows, start: Rows, k: Key, last: Option<Finding>) {
    && (k in rows <==> k in start || last.Some?)
    && (last.Some? ==> rows[k].functionName == last.value.functionName && rows[k].details == last.value.details)
    && (last.None? && k in start ==> rows[k] == start[k])
    && (k in start ==> rows[k].id == start[k].id && rows[k].review == start[k].review)
  }

  lemma {:induction false} TxHoldsLast(pending: seq<Pending>, faults: Faults, start: Tx, m: nat, k: Key)
    requires m <= |pending| && NoFaults(faults, pending)
    ensures HoldsLast(SecondPass(pending, faults, start, m).rows, start.rows, k, Last(pending, m, k))
  {
    if m > 0 {
      TxHoldsLast(pending, faults, start, m - 1, k);
      LastStep(SecondPass(pending, faults, start, m - 1), start.rows, pending[m - 1], faults, k,
               Last(pending, m - 1, k));
    }
  }

  lemma LastStep(tx: Tx, start: Rows, p: Pending, faults: Faults, k: Key, last: Option<Finding>)
    requires HoldsLast(tx.rows, start, k, last) && !faults.probe(p.row) && !faults.upsert(p.row)
    ensures HoldsLast(SecondStep(tx, p, faults).rows, start, k, if p.finding.key == k then Some(p.finding) else last)
  {
    assert SecondStep(tx, p, faults).rows == Upsert(tx.rows, tx.nextId, p.finding);
  }

  /** Every pending key is there from the start: only duplicates, and no new id. */
  ghost predicate OnlyDuplicates(tx: Tx, start: Tx, pending: seq<Pending>, m: nat) {
    && tx.rows.Keys == start.rows.Keys && tx.nextId == start.nextId
    && tx.duplicates == start.duplicates + m && tx.errors == start.errors
    && |tx.written| == |start.written| + m
    && (forall w :: w in tx.written ==> w in start.written || w.duplicate)
  }

  lemma {:induction false} ReplayFindsEverything(pending: seq<Pending>, faults: Faults, start: Tx, m: nat)
    requires m <= |pending| && NoFaults(faults, pending)
    requires forall j :: 0 <= j < |pending| ==> pending[j].finding.key in start.rows
    ensures OnlyDuplicates(SecondPass(pending, faults, start, m), start, pending, m)
  {
    if m > 0 {
      ReplayFindsEverything(pending, faults, start, m - 1);
      DuplicateStep(SecondPass(pending, faults, start, m - 1), start, pending, faults, m - 1);
    }
  }

  lemma DuplicateStep(tx: Tx, start: Tx, pending: seq<Pending>, faults: Faults, m: nat)
    requires m < |pending| && OnlyDuplicates(tx, start, pending, m) && pending[m].finding.key in start.rows
    requires !faults.probe(pending[m].row) && !faults.upsert(pending[m].row)
    ensures OnlyDuplicates(SecondStep(tx, pending[m], faults), start, pending, m + 1)
  {
    UpsertKeeps(tx.rows, tx.nextId, pending[m].finding);
    assert pending[m].finding.key in tx.rows;
  }

  lemma {:induction false} LastIsPending(pending: seq<Pending>, m: nat, j: nat)
    requires j < m <= |pending|
    ensures Last(pending, m, pending[j].finding.key).Some?
  {
    if j < m - 1 {
      LastIsPending(pending, m - 1, j);
    }
  }

  lemma FaultsDoNotMatterToThePending(b: Batch, again: Faults)
    requires FirstBad(b.judgements) == |b.judgements|
    ensures PendingOf(b) == PendingOf(b.(faults := again))
  {
    SamePending(b.judgements, b.faults, again, |b.judgements|);
  }

  lemma {:induction false} SamePending(judgements: seq<Judged>, f: Faults, g: Faults, n: nat)
    requires n <= |judgements| && NoBadStatus(judgements[..n])
    ensures FirstPass(judgements, f, {}, n).pending == FirstPass(judgements, g, {}, n).pending
  {
    if n > 0 {
      assert judgements[..n - 1] == judgements[..n][..n - 1];
      FirstPassNext(judgements, f, {}, n - 1);
      FirstPassNext(judgements, g, {}, n - 1);
      SamePending(judgements, f, g, n - 1);
    }
  }

  /** Replay: after a batch that was written without a fault, the same batch without a fault leaves
      the findings exactly as they are and reports every row it writes as a duplicate. */
  lemma ReplayChangesNothing(db: Db, b: Batch, again: Faults)
    requires FirstBad(b.judgements) == |b.judgements|
    requires NoFaults(b.faults, PendingOf(b)) && NoFaults(again, PendingOf(b))
    ensures var once := Apply(db, b);
            var o := OutcomeOf(once, b.judgements, again);
            && Apply(once, b.(faults := again)).rows == once.rows
            && o.Reported? && o.duplicates == |o.written| == |PendingOf(b)|
            && forall w :: w in o.written ==> w.duplicate
  {
    var once := Apply(db, b);
    var pending := PendingOf(b);
    var first := FirstPass(b.judgements, b.faults, db.verdicts, |b.judgements|);
    var second := FirstPass(b.judgements, again, once.verdicts, |b.judgements|);
    LedgerDoesNotMatter(b.judgements, b.faults, db.verdicts, {}, |b.judgements|);
    LedgerDoesNotMatter(b.judgements, again, once.verdicts, {}, |b.judgements|);
    FaultsDoNotMatterToThePending(b, again);
    var start := Tx(db.rows, db.nextId, [], 0, first.errors, 0);
    var restart := Tx(once.rows, once.nextId, [], 0, second.errors, 0);
    ReplayRows(pending, b.faults, again, start, restart);
  }

  lemma ReplayRows(pending: seq<Pending>, f: Faults, g: Faults, start: Tx, restart: Tx)
    requires NoFaults(f, pending) && NoFaults(g, pending)
    requires restart.rows == SecondPass(pending, f, start, |pending|).rows
    requires restart.written == [] && restart.duplicates == 0
    ensures SecondPass(pending, g, restart, |pending|).rows == restart.rows
    ensures OnlyDuplicates(SecondPass(pending, g, restart, |pending|), restart, pending, |pending|)
  {
    var n := |pending|;
    forall j | 0 <= j < n ensures pending[j].finding.key in restart.rows {
      LastIsPending(pending, n, j);
      TxHoldsLast(pending, f, start, n, pending[j].finding.key);
    }
    ReplayFindsEverything(pending, g, restart, n);
    var rows := SecondPass(pending, g, restart, n).rows;
    forall k | k in rows ensures rows[k] == restart.rows[k] {
      TxHoldsLast(pending, f, start, n, k);
      TxHoldsLast(pending, g, restart, n, k);
    }
  }

  // ---------- which rows share a finding ----------

  /** Ids were handed out in order, one for each row. */
  ghost predicate DistinctIds(rows: Rows, nextId: nat) {
    && (forall k :: k in rows ==> rows[k].id < nextId)
    && (forall k, l :: k in rows && l in rows && rows[k].id == rows[l].id ==> k == l)
  }

  lemma StepKeepsIds(tx: Tx, p: Pending, faults: Faults)
    requires DistinctIds(tx.rows, tx.nextId)
    ensures DistinctIds(SecondStep(tx, p, faults).rows, SecondStep(tx, p, faults).nextId)
  {
    if !faults.probe(p.row) && !faults.upsert(p.row) {
      var next := SecondStep(tx, p, faults);
      assert next.rows == Upsert(tx.rows, tx.nextId, p.finding);
      assert forall k :: k in next.rows ==> next.rows[k].id == if k in tx.rows then tx.rows[k].id else tx.nextId;
      assert forall k :: k in next.rows ==> k in tx.rows || k == p.finding.key;
    }
  }

  lemma {:induction false} PassKeepsIds(pending: seq<Pending>, faults: Faults, start: Tx, m: nat)
    requires m <= |pending| && DistinctIds(start.rows, start.nextId)
    ensures DistinctIds(SecondPass(pending, faults, start, m).rows, SecondPass(pending, faults, start, m).nextId)
  {
    if m > 0 {
      PassKeepsIds(pending, faults, start, m - 1);
      StepKeepsIds(SecondPass(pending, faults, start, m - 1), pending[m - 1], faults);
    }
  }

  /** Over whole runs no two findings have the same id. */
  lemma {:induction false} IdsStayDistinct(db: Db, batches: seq<Batch>)
    requires DistinctIds(db.rows, db.nextId)
    ensures DistinctIds(Run(db, batches).rows, Run(db, batches).nextId)
    decreases |batches|
  {
    if batches != [] {
      BatchKeepsIds(db, batches[0]);
      IdsStayDistinct(Apply(db, batches[0]), batches[1..]);
    }
  }

  lemma BatchKeepsIds(db: Db, b: Batch)
    requires DistinctIds(db.rows, db.nextId)
    ensures DistinctIds(Apply(db, b).rows, Apply(db, b).nextId)
  {
    if Committed(b) {
      var first := FirstPass(b.judgements, b.faults, db.verdicts, |b.judgements|);
      PassKeepsIds(first.pending, b.faults, Tx(db.rows, db.nextId, [], 0, first.errors, 0), |first.pending|);
    }
  }

  /** The list of written rows and the keys written go together. */
  ghost predicate KeysOfRows(written: seq<Written>, keys: seq<Key>, judgements: seq<Judged>) {
    |written| == |keys|
    && forall m :: 0 <= m < |written| ==>
         written[m].row < |judgements| && judgements[written[m].row].Ready?
         && judgements[written[m].row].finding.key == keys[m]
  }

  lemma {:induction false} WrittenRowsHaveTheirKeys(judgements: seq<Judged>, pending: seq<Pending>, faults: Faults,
                                                    start: Tx, m: nat)
    requires m <= |pending| && InOrder(pending, judgements, |judgements|) && start.written == []
    ensures KeysOfRows(SecondPass(pending, faults, start, m).written, KeysWritten(pending, faults, m), judgements)
  {
    if m > 0 {
      WrittenRowsHaveTheirKeys(judgements, pending, faults, start, m - 1);
      SecondPassNext(pending, faults, start, m - 1);
      assert judgements[pending[m - 1].row] == Ready(pending[m - 1].finding);
    }
  }

  /** What two rows must agree on to be one finding: the rule as it is spelled, the resolved path, the
      line and the variable. */
  predicate SameFinding(a: Input, b: Input, c: Context) {
    && a.rule == b.rule && a.line == b.line && a.variable == b.variable
    && FindingPaths.Resolve(a.file, c.files) == FindingPaths.Resolve(b.file, c.files)
  }

  lemma KeysAgreeIffSameFinding(a: Input, b: Input, c: Context)
    requires Judge(a, c).Ready? && Judge(b, c).Ready?
    ensures Judge(a, c).finding.key == Judge(b, c).finding.key <==> SameFinding(a, b, c)
  {}

  /** For any two rows that a batch without a commit fault lists as written: they are the same stored finding if and
      only if they agree on the spelled rule, the resolved path, the line and the variable. */
  lemma RowsShareAFindingIff(db: Db, inputs: seq<Input>, c: Context, faults: Faults, v: Written, w: Written)
    requires DistinctIds(db.rows, db.nextId) && NoBadStatus(JudgeAll(inputs, c)) && !faults.commit
    requires OutcomeOf(db, JudgeAll(inputs, c), faults).Reported?
    requires v in OutcomeOf(db, JudgeAll(inputs, c), faults).written
    requires w in OutcomeOf(db, JudgeAll(inputs, c), faults).written
    ensures v.row < |inputs| && w.row < |inputs|
    ensures v.id == w.id <==> SameFinding(inputs[v.row], inputs[w.row], c)
  {
    var judgements := JudgeAll(inputs, c);
    AcceptedIsWhole(judgements);
    assert !faults.begin;
    WrittenIdsTellKeys(db, Batch(judgements, faults), v, w);
    KeysAgreeIffSameFinding(inputs[v.row], inputs[w.row], c);
  }

  lemma WrittenIdsTellKeys(db: Db, b: Batch, v: Written, w: Written)
    requires DistinctIds(db.rows, db.nextId) && Committed(b)
    requires v in TxOf(db, b.judgements, b.faults).written && w in TxOf(db, b.judgements, b.faults).written
    ensures v.row < |b.judgements| && w.row < |b.judgements|
    ensures b.judgements[v.row].Ready? && b.judgements[w.row].Ready?
    ensures v.id == w.id <==> b.judgements[v.row].finding.key == b.judgements[w.row].finding.key
  {
    var whole := |b.judgements|;
    var first := FirstPass(b.judgements, b.faults, db.verdicts, whole);
    var start := Tx(db.rows, db.nextId, [], 0, first.errors, 0);
    assert b.judgements[..whole] == b.judgements;
    FirstPassOrdered(b.judgements, b.faults, db.verdicts, whole);
    WrittenRowsHaveTheirKeys(b.judgements, first.pending, b.faults, start, |first.pending|);
    TxStarts(start);
    var _, _ := TxHolds(first.pending, b.faults, start, |first.pending|);
    PassKeepsIds(first.pending, b.faults, start, |first.pending|);
  }

  /** The store keys on the rule as it is spelled: two rows for one location whose rules differ in
      case or blanks only become two findings. */
  lemma RuleSpellingSplitsAFinding(db: Db, a: Input, b: Input, c: Context, faults: Faults)
    requires Judge(a, c).Ready? && b == a.(rule := b.rule) && RuleId(b.rule) == RuleId(a.rule) && b.rule != a.rule
    requires NoFaults(faults, [Pending(0, Judge(a, c).finding), Pending(1, Judge(b, c).finding)])
    ensures var rows := DbAfter(db, JudgeAll([a, b], c), faults).rows;
            && Judge(a, c).finding.key in rows && Judge(b, c).finding.key in rows
            && Judge(b, c).finding.key == Judge(a, c).finding.key.(rule := b.rule) != Judge(a, c).finding.key
  {
    var f, g := Judge(a, c).finding, Judge(b, c).finding;
    assert JudgeAll([a, b], c) == [Ready(f), Ready(g)];
    TwoReadyRows(db, f, g, faults);
  }

  lemma TwoReadyRows(db: Db, f: Finding, g: Finding, faults: Faults)
    requires NoFaults(faults, [Pending(0, f), Pending(1, g)])
    ensures f.key in DbAfter(db, [Ready(f), Ready(g)], faults).rows
    ensures g.key in DbAfter(db, [Ready(f), Ready(g)], faults).rows
  {
    var judgements := [Ready(f), Ready(g)];
    var pending := [Pending(0, f), Pending(1, g)];
    AcceptedIsWhole(judgements);
    assert judgements[..2] == judgements;
    FirstPassNext(judgements, faults, db.verdicts, 1);
    FirstPassNext(judgements, faults, db.verdicts, 0);
    assert FirstPass(judgements, faults, db.verdicts, 2).pending == pending;
    var start := Tx(db.rows, db.nextId, [], 0, [], 0);
    LastIsPending(pending, 2, 0);
    LastIsPending(pending, 2, 1);
    TxHoldsLast(pending, faults, start, 2, f.key);
    TxHoldsLast(pending, faults, start, 2, g.key);
  }
}
