/** How any reachable claim appears in the coverage report: the claim service writes the
    log, the report reads it (src/eclaim/services/claims.py, src/eclaim/services/coverage.py). */
module ClaimCoverage {
  import opened Prelude
  import opened ClaimModel
  import opened ClaimLifecycle
  import opened Coverage

  lemma {:induction false} RowsElsewhere(before: seq<Handoff>, rows: seq<Handoff>, cid: ClaimId, lines: seq<Line>,
                                         sent: seq<Line>, batch: nat, period: nat, forward: bool, key: DocKey)
    requires Rowed(rows, cid, lines, sent, batch, period, forward) && LinesOfDoc(sent, key) == []
    ensures DocumentFor(before + rows, DocId(cid, key)) == DocumentFor(before, DocId(cid, key))
    decreases |rows|
  {
    if sent == [] {
      assert before + rows == before;
    } else {
      var most, h := rows[..|rows| - 1], rows[|rows| - 1];
      RowsElsewhere(before, most, cid, lines, sent[..|sent| - 1], batch, period, forward, key);
      assert before + rows == (before + most) + [h];
      DocumentStep(before + most, h, DocId(cid, key));
    }
  }

  /** How a document of the claim must appear. */
  predicate Appears(doc: Option<Document>, lines: seq<Line>, key: DocKey, month: nat, reversed: bool) {
    var own := LinesOfDoc(Relevant(lines), key);
    if own == [] then doc.None?
    else
      && doc.Some? && doc.value.period == month && doc.value.captured == DocGross(lines, key)
      && |doc.value.lines| == |own| && doc.value.forwarded == (if reversed then 0.0 else AmountSum(own))
  }

  lemma {:induction false} LedgerAppears(cid: ClaimId, c: Claim, rows: seq<Handoff>, key: DocKey)
    requires LedgerOk(cid, c, rows) && rows != []
    ensures Appears(DocumentFor(rows, DocId(cid, key)), c.lines, key, rows[0].period, |rows| > |Relevant(c.lines)|)
  {
    var relevant := Relevant(c.lines);
    var n := |relevant|;
    var sent, back := rows[..n], rows[n..];
    assert rows == sent + back;
    DocumentForwarded(sent, cid, c.lines, relevant, rows[0].batch, rows[0].period, key);
    if |rows| > n {
      if LinesOfDoc(relevant, key) == [] {
        RowsElsewhere(sent, back, cid, c.lines, relevant, rows[n].batch, rows[n].period, false, key);
      } else {
        DocumentReversed(sent, back, cid, c.lines, relevant, rows[n].batch, rows[n].period, key,
                         DocumentFor(sent, DocId(cid, key)).value);
      }
    } else {
      assert sent == rows;
    }
  }

  lemma {:induction false} NothingAppears(cid: ClaimId, c: Claim, rows: seq<Handoff>, key: DocKey, month: nat,
                                          reversed: bool)
    requires LedgerOk(cid, c, rows) && rows == [] && Left(c.status)
    ensures Appears(DocumentFor(rows, DocId(cid, key)), c.lines, key, month, reversed)
  {
    assert Relevant(c.lines) == [];
  }

  /** The month a claim was first released in. */
  function ReleaseMonth(db: Db, cid: ClaimId): nat {
    var rows := RowsOf(db.handoffs, cid);
    if rows == [] then 0 else rows[0].period
  }

  /** In every reachable state, a claim that has not left is not in the report. One that has
      shows each document with carbon-relevant lines once, in the month of its release,
      capturing the gross of all its lines and forwarding its relevant ones, or nothing
      once reversed, whatever month the reversal came in. */
  lemma {:induction false} ReportOfClaim(db: Db, cid: ClaimId, key: DocKey)
    requires Reachable(db) && cid in db.claims
    ensures
      var doc, c := DocumentFor(db.handoffs, DocId(cid, key)), db.claims[cid];
      if Left(c.status)
      then Appears(doc, c.lines, key, ReleaseMonth(db, cid), Relevant(c.lines) != [] && Reversed(db, cid))
      else doc.None?
  {
    ReachableInv(db);
    var c, rows := db.claims[cid], RowsOf(db.handoffs, cid);
    assert LedgerOk(cid, c, rows) by { assert ClaimInv(cid, c, rows, db.batches); }
    DocumentOfClaim(db.handoffs, DocId(cid, key));
    if rows != [] {
      LedgerAppears(cid, c, rows, key);
    } else if Left(c.status) {
      NothingAppears(cid, c, rows, key, 0, false);
    }
  }
}
