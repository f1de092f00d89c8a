/** What the handoff log says about any reachable state of the claims: which rows each line
    has, that they never change, and that a reversal nets a release out. */
module ClaimLedger {
  import opened Prelude
  import opened ApprovalMatrix
  import opened ClaimModel
  import opened ClaimChanges
  import opened ClaimLifecycle

  /** The rows of one line in one direction, oldest first. */
  function LineRows(handoffs: seq<Handoff>, id: LineId, forward: bool): seq<Handoff> {
    if handoffs == [] then []
    else
      var last := handoffs[|handoffs| - 1];
      LineRows(handoffs[..|handoffs| - 1], id, forward)
      + if last.line == id && last.forward == forward then [last] else []
  }

  lemma {:induction false} LineRowsOfClaim(handoffs: seq<Handoff>, id: LineId, forward: bool)
    requires forall h :: h in handoffs ==> h.line.claim == h.claim
    ensures LineRows(handoffs, id, forward) == LineRows(RowsOf(handoffs, id.claim), id, forward)
  {
    if handoffs != [] {
      var init, last := handoffs[..|handoffs| - 1], handoffs[|handoffs| - 1];
      LineRowsOfClaim(init, id, forward);
      assert last in handoffs;
      var rows := RowsOf(init, id.claim);
      if last.claim == id.claim {
        assert RowsOf(handoffs, id.claim) == rows + [last] && (rows + [last])[..|rows|] == rows;
      } else {
        assert RowsOf(handoffs, id.claim) == rows;
      }
    }
  }

  lemma {:induction false} LineRowsNone(rows: seq<Handoff>, id: LineId, forward: bool)
    requires forall i :: 0 <= i < |rows| ==> rows[i].line != id || rows[i].forward != forward
    ensures LineRows(rows, id, forward) == []
  {
    if rows != [] { LineRowsNone(rows[..|rows| - 1], id, forward); }
  }

  lemma {:induction false} LineRowsOne(rows: seq<Handoff>, k: nat, id: LineId, forward: bool)
    requires k < |rows| && rows[k].line == id && rows[k].forward == forward
    requires forall i :: 0 <= i < |rows| && i != k ==> rows[i].line != id || rows[i].forward != forward
    ensures LineRows(rows, id, forward) == [rows[k]]
  {
    if k == |rows| - 1 {
      LineRowsNone(rows[..k], id, forward);
    } else {
      LineRowsOne(rows[..|rows| - 1], k, id, forward);
    }
  }

  lemma {:induction false} LineRowsAppend(a: seq<Handoff>, b: seq<Handoff>, id: LineId, forward: bool)
    ensures LineRows(a + b, id, forward) == LineRows(a, id, forward) + LineRows(b, id, forward)
    decreases |b|
  {
    if b == [] {
      assert a + b == a;
    } else {
      LineRowsAppend(a, b[..|b| - 1], id, forward);
      assert (a + b)[..|a + b| - 1] == a + b[..|b| - 1];
    }
  }

  lemma {:induction false} RelevantDistinct(lines: seq<Line>)
    requires forall i, j :: 0 <= i < j < |lines| ==> lines[i].id != lines[j].id
    ensures forall i, j :: 0 <= i < j < |Relevant(lines)| ==> Relevant(lines)[i].id != Relevant(lines)[j].id
  {
    if lines != [] {
      var init, last := lines[..|lines| - 1], lines[|lines| - 1];
      RelevantDistinct(init);
      forall l | l in Relevant(init) ensures l.id != last.id {
        var i :| 0 <= i < |init| && init[i] == l;
        assert lines[i] == l;
      }
      forall i | 0 <= i < |Relevant(init)| ensures Relevant(init)[i] in Relevant(init) {}
    }
  }

  /** One release, or one reversal, has exactly one row of each relevant line. */
  lemma {:induction false} LineRowsOfOneBatch(cid: ClaimId, lines: seq<Line>, serials: nat, l: Line, batch: nat,
                                              period: nat, made: bool, forward: bool)
    requires LinesOk(cid, lines, serials) && l in lines
    ensures LineRows(Rows(cid, lines, batch, period, made), l.id, forward) ==
            if made == forward && IsRelevant(l) then [Row(cid, lines, l, batch, period, forward)] else []
  {
    var rows := Rows(cid, lines, batch, period, made);
    var relevant := Relevant(lines);
    IdsDistinct(cid, lines, serials);
    RelevantDistinct(lines);
    if made == forward && IsRelevant(l) {
      assert l in relevant;
      var k :| 0 <= k < |relevant| && relevant[k] == l;
      forall i | 0 <= i < |rows| && i != k ensures rows[i].line != l.id {
        if i < k { assert relevant[i].id != relevant[k].id; } else { assert relevant[k].id != relevant[i].id; }
      }
      LineRowsOne(rows, k, l.id, forward);
    } else {
      forall i | 0 <= i < |rows| ensures rows[i].line != l.id || rows[i].forward != forward {
        if made == forward {
          assert relevant[i] in relevant;
          var j :| 0 <= j < |lines| && lines[j] == relevant[i];
          var k :| 0 <= k < |lines| && lines[k] == l;
          assert j != k;
        }
      }
      LineRowsNone(rows, l.id, forward);
    }
  }

  predicate HasReversal(c: Claim, rows: seq<Handoff>) {
    |rows| > |Relevant(c.lines)|
  }

  lemma {:induction false} LineRowsOfLedger(cid: ClaimId, c: Claim, rows: seq<Handoff>, l: Line)
    requires LinesOk(cid, c.lines, c.serials) && LedgerOk(cid, c, rows) && l in c.lines
    ensures !Left(c.status) || !IsRelevant(l) ==> LineRows(rows, l.id, true) == [] && LineRows(rows, l.id, false) == []
    ensures Left(c.status) && IsRelevant(l) ==>
      && rows != []
      && LineRows(rows, l.id, true) == [ForwardRow(cid, c.lines, l, rows[0].batch, rows[0].period)]
      && LineRows(rows, l.id, false) ==
         if HasReversal(c, rows)
         then [ReversalRow(cid, c.lines, l, rows[|Relevant(c.lines)|].batch, rows[|Relevant(c.lines)|].period)] else []
  {
    var n := |Relevant(c.lines)|;
    if Left(c.status) && n > 0 {
      assert rows == rows[..n] + rows[n..];
      LineRowsAppend(rows[..n], rows[n..], l.id, true);
      LineRowsAppend(rows[..n], rows[n..], l.id, false);
      LineRowsOfOneBatch(cid, c.lines, c.serials, l, rows[0].batch, rows[0].period, true, true);
      LineRowsOfOneBatch(cid, c.lines, c.serials, l, rows[0].batch, rows[0].period, true, false);
      if |rows| > n {
        LineRowsOfOneBatch(cid, c.lines, c.serials, l, rows[n].batch, rows[n].period, false, true);
        LineRowsOfOneBatch(cid, c.lines, c.serials, l, rows[n].batch, rows[n].period, false, false);
      }
    } else {
      assert IsRelevant(l) ==> l in Relevant(c.lines);
    }
  }

  /** In every reachable state: a line of a claim that has left has exactly one forward
      row, carrying its own figures, if it is approved and carbon-relevant; every other
      line, and every line of any other claim, has none. */
  lemma {:induction false} ForwardedExactlyOnce(db: Db, cid: ClaimId, l: Line)
    requires Inv(db) && cid in db.claims && l in db.claims[cid].lines
    ensures
      var c, rows := db.claims[cid], RowsOf(db.handoffs, cid);
      if Left(c.status) && IsRelevant(l)
      then
        && rows != []
        && LineRows(db.handoffs, l.id, true) == [ForwardRow(cid, c.lines, l, rows[0].batch, rows[0].period)]
      else LineRows(db.handoffs, l.id, true) == [] && LineRows(db.handoffs, l.id, false) == []
  {
    var c := db.claims[cid];
    assert ClaimInv(cid, c, RowsOf(db.handoffs, cid), db.batches);
    OwnLine(cid, c, l);
    LineRowsOfClaim(db.handoffs, l.id, true);
    LineRowsOfClaim(db.handoffs, l.id, false);
    LineRowsOfLedger(cid, c, RowsOf(db.handoffs, cid), l);
  }

  lemma OwnLine(cid: ClaimId, c: Claim, l: Line)
    requires LinesOk(cid, c.lines, c.serials) && l in c.lines
    ensures l.id.claim == cid
  {
    var i :| 0 <= i < |c.lines| && c.lines[i] == l;
    assert LineOk(cid, c.lines[i], c.serials);
  }

  lemma RowIsOfLine(cid: ClaimId, c: Claim, rows: seq<Handoff>, i: nat) returns (l: Line)
    requires LedgerOk(cid, c, rows) && i < |rows|
    ensures Left(c.status) && l in Relevant(c.lines) && l.id == rows[i].line
  {
    var n := |Relevant(c.lines)|;
    if i < n {
      assert rows[..n][i] == rows[i];
      l := Relevant(c.lines)[i];
    } else {
      assert rows[n..][i - n] == rows[i];
      l := Relevant(c.lines)[i - n];
    }
  }

  /** Nothing was ever forwarded for a line no claim has, or that is not relevant. */
  lemma NoStrayRows(db: Db, h: Handoff) returns (l: Line)
    requires Inv(db) && h in db.handoffs
    ensures h.claim in db.claims && Left(db.claims[h.claim].status)
    ensures l in db.claims[h.claim].lines && l.id == h.line && IsRelevant(l)
  {
    var c, rows := db.claims[h.claim], RowsOf(db.handoffs, h.claim);
    assert LedgerOk(h.claim, c, rows) by { assert ClaimInv(h.claim, c, rows, db.batches); }
    assert h in rows by { RowsOfMembers(db.handoffs, h.claim); }
    var i :| 0 <= i < |rows| && rows[i] == h;
    l := RowIsOfLine(h.claim, c, rows, i);
  }

  // -- netting ------------------------------------------------------------------------

  /** The signed figures of a row. */
  datatype Figure = Amount | NetAmount | Tax | Base | Quantity

  function Reading(h: Handoff, f: Figure): real {
    match f
    case Amount => AmountOrZero(h.amount)
    case NetAmount => AmountOrZero(h.net)
    case Tax => AmountOrZero(h.tax)
    case Base => AmountOrZero(h.base)
    case Quantity => AmountOrZero(h.quantity)
  }

  function LineReading(l: Line, f: Figure): real {
    match f
    case Amount => AmountOrZero(l.total)
    case NetAmount => AmountOrZero(l.net)
    case Tax => AmountOrZero(l.tax)
    case Base => AmountOrZero(l.base)
    case Quantity => AmountOrZero(l.quantity)
  }

  /** Sum of a figure over every row of a line, forward and reversal. */
  function Total(handoffs: seq<Handoff>, id: LineId, f: Figure): real {
    if handoffs == [] then 0.0
    else
      var last := handoffs[|handoffs| - 1];
      Total(handoffs[..|handoffs| - 1], id, f) + (if last.line == id then Reading(last, f) else 0.0)
  }

  lemma {:induction false} TotalByDirection(handoffs: seq<Handoff>, id: LineId, f: Figure)
    ensures Total(handoffs, id, f) ==
            Total(LineRows(handoffs, id, true), id, f) + Total(LineRows(handoffs, id, false), id, f)
  {
    if handoffs != [] {
      var init, last := handoffs[..|handoffs| - 1], handoffs[|handoffs| - 1];
      TotalByDirection(init, id, f);
      var sent, back := LineRows(init, id, true), LineRows(init, id, false);
      if last.line == id && last.forward {
        assert (sent + [last])[..|sent|] == sent;
        assert LineRows(handoffs, id, true) == sent + [last] && LineRows(handoffs, id, false) == back;
      } else if last.line == id {
        assert (back + [last])[..|back|] == back;
        assert LineRows(handoffs, id, true) == sent && LineRows(handoffs, id, false) == back + [last];
      } else {
        assert LineRows(handoffs, id, true) == sent && LineRows(handoffs, id, false) == back;
      }
    }
  }

  lemma {:induction false} TotalOfOne(h: Handoff, f: Figure)
    ensures Total([h], h.line, f) == Reading(h, f)
  {
    assert [h][..0] == [];
  }

  lemma RowReadings(cid: ClaimId, lines: seq<Line>, l: Line, batch: nat, period: nat, f: Figure)
    ensures Reading(ForwardRow(cid, lines, l, batch, period), f) == LineReading(l, f)
    ensures Reading(ReversalRow(cid, lines, l, batch, period), f) == -LineReading(l, f)
  {
  }

  /** The rows of one line: sent, or sent and taken back. */
  lemma {:induction false} SentAndBack(cid: ClaimId, lines: seq<Line>, l: Line, sent: seq<Handoff>, back: seq<Handoff>,
                                       b: nat, p: nat, d: nat, q: nat, f: Figure)
    requires sent == [ForwardRow(cid, lines, l, b, p)]
    requires back == [] || back == [ReversalRow(cid, lines, l, d, q)]
    ensures Total(sent, l.id, f) + Total(back, l.id, f) == if back == [] then LineReading(l, f) else 0.0
  {
    RowReadings(cid, lines, l, b, p, f);
    TotalOfOne(ForwardRow(cid, lines, l, b, p), f);
    if back != [] {
      RowReadings(cid, lines, l, d, q, f);
      TotalOfOne(ReversalRow(cid, lines, l, d, q), f);
    }
  }

  lemma {:induction false} LedgerNetsOut(cid: ClaimId, c: Claim, rows: seq<Handoff>, l: Line, f: Figure)
    requires LinesOk(cid, c.lines, c.serials) && LedgerOk(cid, c, rows) && l in c.lines
    ensures Total(LineRows(rows, l.id, true), l.id, f) + Total(LineRows(rows, l.id, false), l.id, f) ==
            if Left(c.status) && IsRelevant(l) && !HasReversal(c, rows) then LineReading(l, f) else 0.0
  {
    LineRowsOfLedger(cid, c, rows, l);
    if Left(c.status) && IsRelevant(l) {
      var n := |Relevant(c.lines)|;
      var d, q := if HasReversal(c, rows) then rows[n].batch else 0, if HasReversal(c, rows) then rows[n].period else 0;
      SentAndBack(cid, c.lines, l, LineRows(rows, l.id, true), LineRows(rows, l.id, false), rows[0].batch,
                  rows[0].period, d, q, f);
    }
  }

  /** A line's rows sum to its own figures once forwarded, and to nothing once reversed:
      amount, net, tax, base and quantity alike. */
  lemma {:induction false} RowsNetOut(db: Db, cid: ClaimId, l: Line, f: Figure)
    requires Inv(db) && cid in db.claims && l in db.claims[cid].lines
    ensures Total(db.handoffs, l.id, f) ==
      if Left(db.claims[cid].status) && IsRelevant(l) && !Reversed(db, cid) then LineReading(l, f) else 0.0
  {
    var c, rows := db.claims[cid], RowsOf(db.handoffs, cid);
    assert LinesOk(cid, c.lines, c.serials) && LedgerOk(cid, c, rows) by { assert ClaimInv(cid, c, rows, db.batches); }
    OwnLine(cid, c, l);
    TotalByDirection(db.handoffs, l.id, f);
    LineRowsOfClaim(db.handoffs, l.id, true);
    LineRowsOfClaim(db.handoffs, l.id, false);
    LedgerNetsOut(cid, c, rows, l, f);
    assert IsRelevant(l) ==> l in Relevant(c.lines);
  }

  // -- what later runs keep ----------------------------------------------------------------

  /** Nothing a later step does reaches a claim that has left, except that it may be paid
      and reversed. */
  predicate Sealed(db: Db, cid: ClaimId, after: Db)
    requires cid in db.claims
  {
    && cid in after.claims
    && Left(after.claims[cid].status)
    && after.claims[cid].lines == db.claims[cid].lines
    && after.claims[cid].client == db.claims[cid].client
    && after.claims[cid].attestedBy == db.claims[cid].attestedBy
    && RowsOf(db.handoffs, cid) <= RowsOf(after.handoffs, cid)
    && OriginalBatch(after, cid) == OriginalBatch(db, cid)
  }

  lemma {:induction false} BatchByHashStays(batches: seq<Batch>, more: Batch, client: nat, digest: Digest)
    requires BatchByHash(batches, client, digest).Some? && BatchByHash(batches, more.client, more.digest).None?
    ensures BatchByHash(batches + [more], client, digest) == BatchByHash(batches, client, digest)
  {
    assert (batches + [more])[..|batches|] == batches;
  }

  lemma {:induction false} PublishedSeals(db: Db, cid: ClaimId, other: ClaimId, digest: Digest, period: nat,
                                          forward: bool)
    requires cid in db.claims && Left(db.claims[cid].status) && OriginalBatch(db, cid).Some?
    requires other in db.claims && BatchByHash(db.batches, db.claims[other].client, digest).None?
    requires other == cid && RowsOf(db.handoffs, cid) == [] ==> Relevant(db.claims[cid].lines) == []
    ensures Sealed(db, cid, Published(db, other, db.claims[other], digest, period, forward))
  {
    var c := db.claims[other];
    var after := Published(db, other, c, digest, period, forward);
    PublishedRows(db.handoffs, other, c.lines, |db.batches|, period, forward, cid);
    if RowsOf(db.handoffs, cid) == [] {
      assert RowsOf(after.handoffs, cid) == [];
      BatchByHashStays(db.batches, Batch(c.client, digest, |Rows(other, c.lines, |db.batches|, period, forward)|),
                       db.claims[cid].client, multiset{EmptyRelease(cid)});
    }
  }

  /** A claim that has left has an original batch, and rows unless it had none to send. */
  lemma {:induction false} LeftWithOrigin(db: Db, cid: ClaimId)
    requires Inv(db) && cid in db.claims && Left(db.claims[cid].status)
    ensures OriginalBatch(db, cid).Some?
    ensures RowsOf(db.handoffs, cid) == [] ==> Relevant(db.claims[cid].lines) == []
  {
    assert ClaimInv(cid, db.claims[cid], RowsOf(db.handoffs, cid), db.batches);
  }

  lemma ReleaseSeals(db: Db, cid: ClaimId, other: ClaimId, p: Option<Principal>, posting: Posting, period: nat)
    requires Inv(db) && cid in db.claims && Left(db.claims[cid].status) && other in db.claims
    ensures Sealed(db, cid, ReleaseClaim(db, other, p, posting, period).0)
  {
    var c := db.claims[other];
    if Left(c.status) {
      ReleaseAgainIsNoOp(db, other, p, posting, period);
    } else {
      ReleaseCommits(db, other, p, posting, period);
      if MayRelease(c, p, posting) {
        assert ClaimInv(other, c, RowsOf(db.handoffs, other), db.batches);
        DigestNames(other, c.lines, c.serials, false);
        var item :| item in ReleaseDigest(other, c.lines);
        assert !ItemOk(db, item);
        FreshDigest(db, ReleaseDigest(other, c.lines), c.client, item);
        LeftWithOrigin(db, cid);
        PublishedSeals(db, cid, other, ReleaseDigest(other, c.lines), period, true);
      }
    }
  }

  lemma ReverseSeals(db: Db, cid: ClaimId, other: ClaimId, p: Option<Principal>, mode: ReverseMode,
                     reason: Option<string>, period: nat)
    requires Inv(db) && cid in db.claims && Left(db.claims[cid].status) && other in db.claims
    ensures Sealed(db, cid, ReverseClaim(db, other, p, mode, reason, period).0)
  {
    var c := db.claims[other];
    var rows := RowsOf(db.handoffs, other);
    if MayReverseClaim(c, p, mode, reason) && !Reversed(db, other) {
      ReverseCommits(db, other, c, p, mode, reason, period);
      assert ClaimInv(other, c, rows, db.batches);
      ReversalIsFresh(db, other, c, rows);
      LeftWithOrigin(db, cid);
      PublishedSeals(db, cid, other, ReversalDigest(other, c.lines), period, false);
    } else if MayReverseClaim(c, p, mode, reason) {
      ReverseAgainIsNoOp(db, other, c, p, mode, reason, period);
    } else {
      ReverseForbidden(db, other, p, mode, reason, period);
    }
  }

  lemma ChangeSeals(db: Db, cid: ClaimId, other: ClaimId, after: Claim)
    requires cid in db.claims && Left(db.claims[cid].status)
    requires other == cid ==> after == db.claims[cid].(status := Paid)
    ensures Sealed(db, cid, Replaced(db, other, after))
  {
  }

  lemma ChangeStepSeals(db: Db, cid: ClaimId, other: ClaimId, change: ClaimChanges.Change)
    requires Inv(db) && cid in db.claims && Left(db.claims[cid].status) && other in db.claims
    requires Apply(other, db.claims[other], change).Ok?
    ensures Sealed(db, cid, Replaced(db, other, Apply(other, db.claims[other], change).value))
  {
    var c := db.claims[other];
    assert ClaimOk(other, c) by { assert ClaimInv(other, c, RowsOf(db.handoffs, other), db.batches); }
    ChangeKeeps(other, c, change, Apply(other, c, change).value);
    ChangeSeals(db, cid, other, Apply(other, c, change).value);
  }

  lemma StepIsStart(db: Db, cid: ClaimId, capture: Capture)
    ensures Step(db, Start(cid, capture)).0 ==
      if cid in db.claims then db else Replaced(db, cid, CapturedClaim(cid, capture))
  {
  }

  lemma StepIsChange(db: Db, cid: ClaimId, change: ClaimChanges.Change)
    ensures Step(db, Change(cid, change)).0 ==
      if cid in db.claims && Apply(cid, db.claims[cid], change).Ok?
      then Replaced(db, cid, Apply(cid, db.claims[cid], change).value) else db
  {
  }

  lemma StepIsRelease(db: Db, cid: ClaimId, p: Option<Principal>, posting: Posting, period: nat)
    ensures Step(db, Release(cid, p, posting, period)).0 ==
      if cid in db.claims then ReleaseClaim(db, cid, p, posting, period).0 else db
  {
  }

  lemma SealedItself(db: Db, cid: ClaimId)
    requires cid in db.claims && Left(db.claims[cid].status)
    ensures Sealed(db, cid, db)
  {
  }

  lemma StepSeals(db: Db, cid: ClaimId, op: Op)
    requires Inv(db) && cid in db.claims && Left(db.claims[cid].status)
    ensures Sealed(db, cid, Step(db, op).0)
  {
    SealedItself(db, cid);
    match op
    case Start(other, capture) =>
      StepIsStart(db, other, capture);
      if other !in db.claims { ChangeSeals(db, cid, other, CapturedClaim(other, capture)); }
    case Change(other, change) =>
      StepIsChange(db, other, change);
      if other in db.claims && Apply(other, db.claims[other], change).Ok? { ChangeStepSeals(db, cid, other, change); }
    case Release(other, p, posting, period) =>
      StepIsRelease(db, other, p, posting, period);
      if other in db.claims { ReleaseSeals(db, cid, other, p, posting, period); }
    case Reverse(other, p, mode, reason, period) =>
      if other in db.claims {
        StepIsReverse(db, other, p, mode, reason, period);
        ReverseSeals(db, cid, other, p, mode, reason, period);
      }
  }

  lemma {:induction false} RunSeals(db: Db, cid: ClaimId, ops: seq<Op>)
    requires Inv(db) && cid in db.claims && Left(db.claims[cid].status)
    ensures Sealed(db, cid, Run(db, ops))
    decreases |ops|
  {
    if ops != [] {
      StepKeepsInv(db, ops[0]);
      StepSeals(db, cid, ops[0]);
      RunSeals(Step(db, ops[0]).0, cid, ops[1..]);
    }
  }

  lemma FirstReleaseIsOriginal(db: Db, cid: ClaimId, p: Option<Principal>, posting: Posting, period: nat)
    requires Inv(db) && cid in db.claims && !Left(db.claims[cid].status) && MayRelease(db.claims[cid], p, posting)
    ensures
      var (after, outcome) := ReleaseClaim(db, cid, p, posting, period);
      && cid in after.claims && after.claims[cid] == db.claims[cid].(status := Released)
      && OriginalBatch(after, cid).Some? && outcome == Batched(OriginalBatch(after, cid).value)
  {
    var c := db.claims[cid];
    ReleaseCommits(db, cid, p, posting, period);
    PublishedRows(db.handoffs, cid, c.lines, |db.batches|, period, true, cid);
    assert ClaimInv(cid, c, RowsOf(db.handoffs, cid), db.batches);
  }

  /** From any reachable state, after a release and anything that follows: the claim is
      attested wherever it reimburses, its lines are the released ones, and releasing it
      once more answers with the same batch and changes nothing. */
  lemma ReleasedOnceForAll(db: Db, cid: ClaimId, p: Option<Principal>, posting: Posting, period: nat,
                           later: seq<Op>, q: Option<Principal>, policy: Posting, month: nat)
    requires Reachable(db)
    requires cid in db.claims && !Left(db.claims[cid].status) && MayRelease(db.claims[cid], p, posting)
    ensures
      var (released, outcome) := Step(db, Release(cid, p, posting, period));
      var end := Run(released, later);
      && cid in end.claims && Left(end.claims[cid].status) && end.claims[cid].lines == db.claims[cid].lines
      && (end.claims[cid].attestedBy.None? ==> forall l :: l in end.claims[cid].lines ==> !ApprovedOutOfPocket(l))
      && outcome.Batched?
      && (MayWrite(q, end.claims[cid].client) ==> Step(end, Release(cid, q, policy, month)) == (end, outcome))
  {
    ReachableInv(db);
    var (released, outcome) := Step(db, Release(cid, p, posting, period));
    FirstReleaseIsOriginal(db, cid, p, posting, period);
    StepKeepsInv(db, Release(cid, p, posting, period));
    RunSeals(released, cid, later);
    RunKeepsInv(released, later);
    var end := Run(released, later);
    ReleaseAgainIsNoOp(end, cid, q, policy, month);
    assert ClaimInv(cid, end.claims[cid], RowsOf(end.handoffs, cid), end.batches);
  }

  lemma ReversedRowsStay(db: Db, cid: ClaimId, end: Db)
    requires cid in db.claims && Sealed(db, cid, end) && Reversed(db, cid) && Relevant(db.claims[cid].lines) != []
    ensures Reversed(end, cid)
  {
  }

  lemma {:induction false} PublishedReverses(db: Db, cid: ClaimId, c: Claim, period: nat)
    requires cid in db.claims && c == db.claims[cid] && |RowsOf(db.handoffs, cid)| == |Relevant(c.lines)|
    ensures
      var after := Published(db, cid, c, ReversalDigest(cid, c.lines), period, false);
      cid in after.claims && Reversed(after, cid)
  {
    PublishedRows(db.handoffs, cid, c.lines, |db.batches|, period, false, cid);
  }

  lemma ReverseReverses(db: Db, cid: ClaimId, p: Option<Principal>, mode: ReverseMode, reason: Option<string>,
                        period: nat)
    requires Inv(db) && cid in db.claims && MayReverseClaim(db.claims[cid], p, mode, reason)
    ensures cid in ReverseClaim(db, cid, p, mode, reason, period).0.claims
    ensures Reversed(ReverseClaim(db, cid, p, mode, reason, period).0, cid)
  {
    var c, rows := db.claims[cid], RowsOf(db.handoffs, cid);
    if Reversed(db, cid) {
      ReverseAgainIsNoOp(db, cid, c, p, mode, reason, period);
    } else {
      ReverseCommits(db, cid, c, p, mode, reason, period);
      assert LedgerOk(cid, c, rows) by { assert ClaimInv(cid, c, rows, db.batches); }
      PublishedReverses(db, cid, c, period);
    }
  }

  lemma ReverseStepReverses(db: Db, cid: ClaimId, p: Option<Principal>, mode: ReverseMode, reason: Option<string>,
                            period: nat)
    requires Inv(db) && cid in db.claims && MayReverseClaim(db.claims[cid], p, mode, reason)
    ensures var after := Step(db, Reverse(cid, p, mode, reason, period)).0; cid in after.claims && Reversed(after, cid)
  {
    StepIsReverse(db, cid, p, mode, reason, period);
    ReverseReverses(db, cid, p, mode, reason, period);
  }

  lemma StepIsReverse(db: Db, cid: ClaimId, p: Option<Principal>, mode: ReverseMode, reason: Option<string>,
                      period: nat)
    requires cid in db.claims
    ensures Step(db, Reverse(cid, p, mode, reason, period)) == ReverseClaim(db, cid, p, mode, reason, period)
  {
  }

  lemma {:induction false} NetAfterReversal(db: Db, cid: ClaimId, end: Db, l: Line, f: Figure)
    requires cid in db.claims && Left(db.claims[cid].status) && Reversed(db, cid) && l in db.claims[cid].lines
    requires Sealed(db, cid, end) && Inv(end)
    ensures Total(end.handoffs, l.id, f) == 0.0
  {
    if Relevant(db.claims[cid].lines) != [] {
      ReversedRowsStay(db, cid, end);
    } else {
      assert l !in Relevant(db.claims[cid].lines);
    }
    RowsNetOut(end, cid, l, f);
  }

  lemma {:induction false} NetAfterRun(db: Db, cid: ClaimId, p: Option<Principal>, mode: ReverseMode,
                                       reason: Option<string>, period: nat,
                    later: seq<Op>, l: Line, f: Figure)
    requires Inv(db) && cid in db.claims && MayReverseClaim(db.claims[cid], p, mode, reason)
    requires l in db.claims[cid].lines
    ensures Total(Run(Step(db, Reverse(cid, p, mode, reason, period)).0, later).handoffs, l.id, f) == 0.0
  {
    var after := Step(db, Reverse(cid, p, mode, reason, period)).0;
    StepKeepsInv(db, Reverse(cid, p, mode, reason, period));
    StepSeals(db, cid, Reverse(cid, p, mode, reason, period));
    ReverseStepReverses(db, cid, p, mode, reason, period);
    RunSeals(after, cid, later);
    RunKeepsInv(after, later);
    NetAfterReversal(after, cid, Run(after, later), l, f);
  }

  /** After a reversal, in any reachable state and whatever follows, every figure of every
      line of the claim nets to zero. */
  lemma {:induction false} ReversedForGood(db: Db, cid: ClaimId, p: Option<Principal>, mode: ReverseMode,
                                           reason: Option<string>,
                        period: nat, later: seq<Op>, l: Line, f: Figure)
    requires Reachable(db)
    requires cid in db.claims && MayReverseClaim(db.claims[cid], p, mode, reason) && l in db.claims[cid].lines
    ensures Total(Run(Step(db, Reverse(cid, p, mode, reason, period)).0, later).handoffs, l.id, f) == 0.0
  {
    ReachableInv(db);
    NetAfterRun(db, cid, p, mode, reason, period, later, l, f);
  }
}
