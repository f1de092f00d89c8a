/** Whole runs of the claim service: capture, every change, release to CarbonNext and
    reversal, over the claims, the handoff log and the release batches
    (src/eclaim/services/claims.py). */
module ClaimLifecycle {
  import opened Prelude
  import opened ApprovalMatrix
  import opened ClaimModel
  import opened ClaimChanges

  /** A claim as the capture path hands it over: header, lines, the declaration if the
      claimant made one, and whether it parks for the uploader to verify. */
  datatype Capture = Capture(client: nat, createdBy: Option<nat>, department: Option<string>,
                             lines: seq<Captured>, attested: Option<string>, park: bool)

  /** The client's posting policy and where codes default from. */
  datatype Posting = Posting(required: bool, glCategories: set<nat>, defaultCostCentre: bool)

  datatype ReverseMode = Allow | ApproverReason | Off

  datatype Op =
    | Start(cid: ClaimId, capture: Capture)
    | Change(cid: ClaimId, change: ClaimChanges.Change)
    | Release(cid: ClaimId, p: Option<Principal>, posting: Posting, period: nat)
    | Reverse(cid: ClaimId, p: Option<Principal>, mode: ReverseMode, reason: Option<string>, period: nat)

  datatype Outcome = Done | Batched(batch: nat) | Failed(error: Error)

  const EMPTY := Db(map[], [], [])

  // -- capture -----------------------------------------------------------------------

  function FillLines(cid: ClaimId, c: Claim, lines: seq<Captured>): Claim {
    if lines == [] then c else AppendLine(cid, FillLines(cid, c, lines[..|lines| - 1]), lines[|lines| - 1])
  }

  /** `start_claim`: a header without lines. */
  function Header(x: Capture): Claim {
    Claim(x.client, InReview, x.createdBy, None, None, None, x.department, None, None, None, [], 0)
  }

  /** `submit`. */
  function Submit(c: Claim, x: Capture): Claim {
    c.(status := if x.park then Submitted else InReview,
       attestedBy := if exists l :: l in c.lines && l.payment.OutOfPocket? then x.attested else None)
  }

  function CapturedClaim(cid: ClaimId, x: Capture): Claim {
    Submit(FillLines(cid, Header(x), x.lines), x)
  }

  // -- release and reversal ------------------------------------------------------------

  /** `first_for_lines`: the earliest forward row of any of the lines. */
  function FirstForward(handoffs: seq<Handoff>, ids: set<LineId>): Option<Handoff> {
    if handoffs == [] then None
    else if handoffs[0].forward && handoffs[0].line in ids then Some(handoffs[0])
    else FirstForward(handoffs[1..], ids)
  }

  function LineIds(lines: seq<Line>): set<LineId> {
    set l | l in lines :: l.id
  }

  /** `batch_by_hash`. */
  function BatchByHash(batches: seq<Batch>, client: nat, digest: Digest): (r: Option<nat>)
    ensures r.Some? ==> r.value < |batches| && batches[r.value].client == client && batches[r.value].digest == digest
    ensures r.None? ==> forall b :: b in batches ==> b.client != client || b.digest != digest
  {
    if batches == [] then None
    else if batches[|batches| - 1].client == client && batches[|batches| - 1].digest == digest then Some(|batches| - 1)
    else BatchByHash(batches[..|batches| - 1], client, digest)
  }

  predicate NeedsAttest(c: Claim) {
    c.attestedBy.None? && exists l :: l in c.lines && ApprovedOutOfPocket(l)
  }

  predicate Named(code: Option<string>) {
    code.Some? && code.value != ""
  }

  predicate PostingReady(line: Line, posting: Posting) {
    && (Named(line.gl) || (line.category.Some? && line.category.value in posting.glCategories))
    && (Named(line.costCentre) || posting.defaultCostCentre)
  }

  predicate Uncoded(c: Claim, posting: Posting) {
    posting.required && exists l :: l in c.lines && l.status.LineApproved? && !PostingReady(l, posting)
  }

  predicate KeyTaken(handoffs: seq<Handoff>, ids: set<LineId>, forward: bool) {
    exists h :: h in handoffs && h.line in ids && h.forward == forward
  }

  /** The savepoint of a release or a reversal. A UNIQUE violation rolls it back and the
      batch with the same content, if there is one, is the answer. */
  function Publish(db: Db, cid: ClaimId, c: Claim, after: ClaimStatus, digest: Digest, period: nat,
                   forward: bool): (Db, Outcome) {
    var prior := BatchByHash(db.batches, c.client, digest);
    if prior.Some? || KeyTaken(db.handoffs, LineIds(Relevant(c.lines)), forward) then
      (db, if prior.Some? then Batched(prior.value) else Failed(Conflict))
    else
      var batch := |db.batches|;
      var rows := Rows(cid, c.lines, batch, period, forward);
      (Db(db.claims[cid := c.(status := after)], db.handoffs + rows, db.batches + [Batch(c.client, digest, |rows|)]),
       Batched(batch))
  }

  function ReleaseClaim(db: Db, cid: ClaimId, p: Option<Principal>, posting: Posting, period: nat): (Db, Outcome)
    requires cid in db.claims
  {
    var c := db.claims[cid];
    if !MayWrite(p, c.client) then (db, Failed(Forbidden))
    else
      var existing := FirstForward(db.handoffs, LineIds(c.lines));
      var empty := BatchByHash(db.batches, c.client, multiset{EmptyRelease(cid)});
      if existing.Some? then (db, Batched(existing.value.batch))
      else if Left(c.status) && empty.Some? then (db, Batched(empty.value))
      else if !c.status.Approved? && !c.status.PartiallyApproved? then (db, Failed(Illegal))
      else if NeedsAttest(c) then (db, Failed(NeedsAttestation))
      else if Uncoded(c, posting) then (db, Failed(Illegal))
      else Publish(db, cid, c, Released, ReleaseDigest(cid, c.lines), period, true)
  }

  predicate MayReverse(p: Option<Principal>) {
    p.None? || p.value.role == Manager || p.value.role == Partner
  }

  function ReverseClaim(db: Db, cid: ClaimId, p: Option<Principal>, mode: ReverseMode, reason: Option<string>,
                        period: nat): (Db, Outcome)
    requires cid in db.claims
  {
    var c := db.claims[cid];
    var relevant := Relevant(c.lines);
    if !MayWrite(p, c.client) then (db, Failed(Forbidden))
    else if mode.Off? then (db, Failed(Illegal))
    else if mode.ApproverReason? && !MayReverse(p) then (db, Failed(Forbidden))
    else if mode.ApproverReason? && (reason.None? || IsBlank(reason.value)) then (db, Failed(Invalid))
    else if !c.status.Released? then (db, Failed(Illegal))
    else if relevant != [] && KeyTaken(db.handoffs, {relevant[0].id}, false) then (db, Failed(Illegal))
    else Publish(db, cid, c, Released, ReversalDigest(cid, c.lines), period, false)
  }

  function Step(db: Db, op: Op): (Db, Outcome) {
    match op
    case Start(cid, capture) =>
      if cid in db.claims then (db, Failed(Conflict))
      else (db.(claims := db.claims[cid := CapturedClaim(cid, capture)]), Done)
    case Change(cid, change) =>
      if cid !in db.claims then (db, Failed(NotFound))
      else
        var r := Apply(cid, db.claims[cid], change);
        if r.Err? then (db, Failed(r.error)) else (db.(claims := db.claims[cid := r.value]), Done)
    case Release(cid, p, posting, period) =>
      if cid !in db.claims then (db, Failed(NotFound)) else ReleaseClaim(db, cid, p, posting, period)
    case Reverse(cid, p, mode, reason, period) =>
      if cid !in db.claims then (db, Failed(NotFound)) else ReverseClaim(db, cid, p, mode, reason, period)
  }

  function Run(db: Db, ops: seq<Op>): Db
    decreases |ops|
  {
    if ops == [] then db else Run(Step(db, ops[0]).0, ops[1..])
  }

  // -- the invariant ---------------------------------------------------------------------

  /** A claim's rows: none until it leaves; then one forward row for each relevant line,
      in line order and from one release, and after them either nothing or the mirror
      image of all of them from one reversal. */
  predicate LedgerOk(cid: ClaimId, c: Claim, rows: seq<Handoff>) {
    var n := |Relevant(c.lines)|;
    if !Left(c.status) || n == 0 then rows == []
    else
      && (|rows| == n || |rows| == n + n)
      && rows[..n] == Rows(cid, c.lines, rows[0].batch, rows[0].period, true)
      && (|rows| == n + n ==> rows[n..] == Rows(cid, c.lines, rows[n].batch, rows[n].period, false))
  }

  /** The batch a claim left in. */
  predicate OriginOk(cid: ClaimId, c: Claim, rows: seq<Handoff>, batches: seq<Batch>) {
    Left(c.status) ==>
      if rows == [] then exists b :: b in batches && b.client == c.client && b.digest == multiset{EmptyRelease(cid)}
      else
        && rows[0].batch < |batches|
        && batches[rows[0].batch] == Batch(c.client, ReleaseDigest(cid, c.lines), |Relevant(c.lines)|)
  }

  predicate ClaimInv(cid: ClaimId, c: Claim, rows: seq<Handoff>, batches: seq<Batch>) {
    ClaimOk(cid, c) && LedgerOk(cid, c, rows) && OriginOk(cid, c, rows, batches)
  }

  function OwnerOf(item: Item): ClaimId {
    match item
    case ForwardOf(line, _, _, _, _) => line.claim
    case ReversalOf(line, _, _, _, _) => line.claim
    case EmptyRelease(cid) => cid
    case EmptyReversal(cid) => cid
  }

  /** What a batch digest mentions has left; what it reverses has been reversed. */
  predicate ItemOk(db: Db, item: Item) {
    var cid := OwnerOf(item);
    && cid in db.claims && Left(db.claims[cid].status)
    && (item.ReversalOf? ==> |RowsOf(db.handoffs, cid)| > |Relevant(db.claims[cid].lines)|)
  }

  predicate ClaimsInv(db: Db) {
    forall cid {:trigger ClaimInv(cid, db.claims[cid], RowsOf(db.handoffs, cid), db.batches)} :: cid in db.claims ==>
      ClaimInv(cid, db.claims[cid], RowsOf(db.handoffs, cid), db.batches)
  }

  predicate RowsInv(db: Db) {
    forall h :: h in db.handoffs ==> h.claim in db.claims && h.line.claim == h.claim
  }

  predicate BatchesInv(db: Db) {
    forall b :: b in db.batches ==> forall item :: item in b.digest ==> ItemOk(db, item)
  }

  predicate Inv(db: Db) {
    ClaimsInv(db) && RowsInv(db) && BatchesInv(db)
  }

  lemma {:induction false} RowsOfMembers(handoffs: seq<Handoff>, cid: ClaimId)
    ensures forall h :: h in RowsOf(handoffs, cid) <==> h in handoffs && h.claim == cid
  {
    if handoffs != [] {
      var init := handoffs[..|handoffs| - 1];
      RowsOfMembers(init, cid);
      assert handoffs == init + [handoffs[|handoffs| - 1]];
    }
  }

  lemma {:induction false} RelevantIds(cid: ClaimId, lines: seq<Line>, serials: nat)
    requires LinesOk(cid, lines, serials)
    ensures forall l :: l in Relevant(lines) ==> l.id.claim == cid
  {
    forall l | l in Relevant(lines) ensures l.id.claim == cid {
      var i :| 0 <= i < |lines| && lines[i] == l;
      assert LineOk(cid, lines[i], serials);
    }
  }

  // -- capture and changes ------------------------------------------------------------------

  lemma {:induction false} FillLinesKeeps(cid: ClaimId, c: Claim, lines: seq<Captured>)
    requires ClaimOk(cid, c) && Open(c.status)
    ensures ClaimOk(cid, FillLines(cid, c, lines)) && Open(FillLines(cid, c, lines).status)
  {
    if lines != [] {
      FillLinesKeeps(cid, c, lines[..|lines| - 1]);
      AppendLineKeeps(cid, FillLines(cid, c, lines[..|lines| - 1]), lines[|lines| - 1]);
    }
  }

  lemma SubmitKeeps(cid: ClaimId, c: Claim, x: Capture)
    requires ClaimOk(cid, c) && Open(c.status)
    ensures ClaimOk(cid, Submit(c, x)) && Open(Submit(c, x).status)
  {
    HeaderKeeps(cid, c, Submit(c, x));
  }

  lemma CaptureIsOk(cid: ClaimId, x: Capture)
    ensures ClaimOk(cid, CapturedClaim(cid, x)) && Open(CapturedClaim(cid, x).status)
  {
    FillLinesKeeps(cid, Header(x), x.lines);
    SubmitKeeps(cid, FillLines(cid, Header(x), x.lines), x);
  }

  function Replaced(db: Db, cid: ClaimId, c: Claim): Db {
    db.(claims := db.claims[cid := c])
  }

  lemma ReplacedBatches(db: Db, cid: ClaimId, c: Claim)
    requires BatchesInv(db)
    requires cid in db.claims && Left(db.claims[cid].status) ==> Left(c.status) && c.lines == db.claims[cid].lines
    ensures BatchesInv(Replaced(db, cid, c))
  {
    forall b, item | b in db.batches && item in b.digest ensures ItemOk(Replaced(db, cid, c), item) {
      assert ItemOk(db, item);
    }
  }

  /** Replacing one claim by one with the same place in the ledger keeps the invariant. */
  lemma {:induction false} ClaimReplaced(db: Db, cid: ClaimId, c: Claim)
    requires Inv(db) && ClaimInv(cid, c, RowsOf(db.handoffs, cid), db.batches)
    requires cid in db.claims && Left(db.claims[cid].status) ==> Left(c.status) && c.lines == db.claims[cid].lines
    ensures Inv(Replaced(db, cid, c))
  {
    ReplacedBatches(db, cid, c);
  }

  lemma {:induction false} RowsOfNone(handoffs: seq<Handoff>, cid: ClaimId)
    requires forall h :: h in handoffs ==> h.claim != cid
    ensures RowsOf(handoffs, cid) == []
  {
    if handoffs != [] {
      RowsOfNone(handoffs[..|handoffs| - 1], cid);
    }
  }

  lemma StartKeepsInv(db: Db, cid: ClaimId, capture: Capture)
    requires Inv(db) && cid !in db.claims
    ensures Inv(Replaced(db, cid, CapturedClaim(cid, capture)))
  {
    CaptureIsOk(cid, capture);
    RowsOfNone(db.handoffs, cid);
    ClaimReplaced(db, cid, CapturedClaim(cid, capture));
  }

  lemma KeptKeepsClaimInv(cid: ClaimId, c: Claim, after: Claim, rows: seq<Handoff>, batches: seq<Batch>)
    requires ClaimInv(cid, c, rows, batches) && Kept(cid, c, after)
    ensures ClaimInv(cid, after, rows, batches)
  {
  }

  lemma ChangeKeepsInv(db: Db, cid: ClaimId, after: Claim)
    requires Inv(db) && cid in db.claims && Kept(cid, db.claims[cid], after)
    ensures Inv(Replaced(db, cid, after))
  {
    KeptKeepsClaimInv(cid, db.claims[cid], after, RowsOf(db.handoffs, cid), db.batches);
    ClaimReplaced(db, cid, after);
  }

  // -- publishing -----------------------------------------------------------------------------

  lemma PayloadsName(cid: ClaimId, relevant: seq<Line>, reversal: bool)
    requires relevant != [] && forall l :: l in relevant ==> l.id.claim == cid
    ensures exists item :: item in multiset(Payloads(relevant, reversal))
    ensures forall item :: item in multiset(Payloads(relevant, reversal)) ==>
      OwnerOf(item) == cid && item.ReversalOf? == reversal
  {
    var payloads := Payloads(relevant, reversal);
    assert payloads[0] in multiset(payloads);
    forall item | item in multiset(payloads) ensures OwnerOf(item) == cid && item.ReversalOf? == reversal {
      var i :| 0 <= i < |payloads| && payloads[i] == item;
      assert relevant[i] in relevant;
    }
  }

  lemma {:induction false} DigestNames(cid: ClaimId, lines: seq<Line>, serials: nat, reversal: bool)
    requires LinesOk(cid, lines, serials)
    ensures
      var digest := if reversal then ReversalDigest(cid, lines) else ReleaseDigest(cid, lines);
      && (exists item :: item in digest)
      && (forall item :: item in digest ==>
           OwnerOf(item) == cid && item.ReversalOf? == (reversal && Relevant(lines) != []))
  {
    RelevantIds(cid, lines, serials);
    if Relevant(lines) != [] {
      PayloadsName(cid, Relevant(lines), reversal);
    } else {
      assert (if reversal then EmptyReversal(cid) else EmptyRelease(cid)) in
             (if reversal then ReversalDigest(cid, lines) else ReleaseDigest(cid, lines));
    }
  }

  lemma {:induction false} FreshDigest(db: Db, digest: Digest, client: nat, item: Item)
    requires BatchesInv(db) && item in digest && !ItemOk(db, item)
    ensures BatchByHash(db.batches, client, digest).None?
  {
    forall b | b in db.batches ensures b.digest != digest {
      assert item !in b.digest;
    }
  }

  lemma {:induction false} FreeKeys(db: Db, cid: ClaimId, forward: bool)
    requires RowsInv(db) && cid in db.claims && LinesOk(cid, db.claims[cid].lines, db.claims[cid].serials)
    requires forall h :: h in RowsOf(db.handoffs, cid) ==> h.forward != forward
    ensures !KeyTaken(db.handoffs, LineIds(Relevant(db.claims[cid].lines)), forward)
  {
    RelevantIds(cid, db.claims[cid].lines, db.claims[cid].serials);
    RowsOfMembers(db.handoffs, cid);
  }

  /** Publishing adds the claim's rows after the ones it has and touches no other claim. */
  lemma {:induction false} PublishedRows(handoffs: seq<Handoff>, cid: ClaimId, lines: seq<Line>, batch: nat,
                                         period: nat, forward: bool, other: ClaimId)
    ensures
      var rows := Rows(cid, lines, batch, period, forward);
      RowsOf(handoffs + rows, other) == RowsOf(handoffs, other) + if other == cid then rows else []
  {
    var rows := Rows(cid, lines, batch, period, forward);
    RowsOfAppend(handoffs, rows, other);
    RowsOfOne(rows, cid, other);
  }

  /** The parts of the invariant about one claim survive new batches. */
  lemma MoreBatches(cid: ClaimId, c: Claim, rows: seq<Handoff>, batches: seq<Batch>, more: Batch)
    requires ClaimInv(cid, c, rows, batches)
    ensures ClaimInv(cid, c, rows, batches + [more])
  {
    if Left(c.status) && rows == [] {
      var b :| b in batches && b.client == c.client && b.digest == multiset{EmptyRelease(cid)};
      assert b in batches + [more];
    }
  }

  /** The state a savepoint that commits leaves behind. */
  function Published(db: Db, cid: ClaimId, c: Claim, digest: Digest, period: nat, forward: bool): Db {
    var rows := Rows(cid, c.lines, |db.batches|, period, forward);
    Db(db.claims[cid := c.(status := Released)], db.handoffs + rows, db.batches + [Batch(c.client, digest, |rows|)])
  }

  lemma {:induction false} PublishedElsewhere(db: Db, cid: ClaimId, c: Claim, digest: Digest, period: nat,
                                              forward: bool, other: ClaimId, after: Db)
    requires other in db.claims && other != cid && after == Published(db, cid, c, digest, period, forward)
    ensures after.claims[other] == db.claims[other] && RowsOf(after.handoffs, other) == RowsOf(db.handoffs, other)
    ensures after.batches == db.batches + [Batch(c.client, digest, |Relevant(c.lines)|)]
  {
    PublishedRows(db.handoffs, cid, c.lines, |db.batches|, period, forward, other);
  }

  lemma {:induction false} PublishKeepsOther(db: Db, cid: ClaimId, c: Claim, digest: Digest, period: nat, forward: bool,
                                             other: ClaimId, after: Db)
    requires other in db.claims && other != cid && after == Published(db, cid, c, digest, period, forward)
    requires ClaimInv(other, db.claims[other], RowsOf(db.handoffs, other), db.batches)
    ensures ClaimInv(other, after.claims[other], RowsOf(after.handoffs, other), after.batches)
  {
    PublishedElsewhere(db, cid, c, digest, period, forward, other, after);
    MoreBatches(other, db.claims[other], RowsOf(db.handoffs, other), db.batches,
                Batch(c.client, digest, |Relevant(c.lines)|));
  }

  lemma {:induction false} PublishKeepsClaims(db: Db, cid: ClaimId, c: Claim, digest: Digest, period: nat,
                                              forward: bool, after: Db)
    requires ClaimsInv(db) && cid in db.claims && after == Published(db, cid, c, digest, period, forward)
    requires ClaimInv(cid, after.claims[cid], RowsOf(after.handoffs, cid), after.batches)
    ensures ClaimsInv(after)
  {
    forall other | other in after.claims
      ensures ClaimInv(other, after.claims[other], RowsOf(after.handoffs, other), after.batches)
    {
      if other != cid {
        PublishKeepsOther(db, cid, c, digest, period, forward, other, after);
      }
    }
  }

  lemma PublishKeepsRows(db: Db, cid: ClaimId, c: Claim, digest: Digest, period: nat, forward: bool)
    requires RowsInv(db) && LinesOk(cid, c.lines, c.serials)
    ensures RowsInv(Published(db, cid, c, digest, period, forward))
  {
    var rows := Rows(cid, c.lines, |db.batches|, period, forward);
    RelevantIds(cid, c.lines, c.serials);
    forall i | 0 <= i < |rows| ensures rows[i].claim == cid && rows[i].line.claim == cid {
      assert Relevant(c.lines)[i] in Relevant(c.lines);
    }
  }

  lemma {:induction false} PublishKeepsBatches(db: Db, cid: ClaimId, c: Claim, digest: Digest, period: nat,
                                               forward: bool)
    requires BatchesInv(db) && cid in db.claims && db.claims[cid] == c
    requires forall item :: item in digest ==>
      OwnerOf(item) == cid && item.ReversalOf? == (!forward && Relevant(c.lines) != [])
    requires RowsOf(db.handoffs, cid) == [] || |RowsOf(db.handoffs, cid)| >= |Relevant(c.lines)|
    requires !forward ==> |RowsOf(db.handoffs, cid)| == |Relevant(c.lines)|
    ensures BatchesInv(Published(db, cid, c, digest, period, forward))
  {
    var after := Published(db, cid, c, digest, period, forward);
    PublishedRows(db.handoffs, cid, c.lines, |db.batches|, period, forward, cid);
    forall b, item | b in after.batches && item in b.digest ensures ItemOk(after, item) {
      PublishedRows(db.handoffs, cid, c.lines, |db.batches|, period, forward, OwnerOf(item));
      if b in db.batches {
        assert ItemOk(db, item);
      } else {
        assert b.digest == digest;
      }
    }
  }

  // -- release ---------------------------------------------------------------------------------

  lemma {:induction false} FirstForwardFound(handoffs: seq<Handoff>, ids: set<LineId>)
    ensures
      match FirstForward(handoffs, ids)
      case None => forall h :: h in handoffs && h.line in ids ==> !h.forward
      case Some(h) => h in handoffs && h.forward && h.line in ids
  {
    if handoffs != [] {
      FirstForwardFound(handoffs[1..], ids);
    }
  }

  lemma LineIdsOwned(cid: ClaimId, lines: seq<Line>, serials: nat)
    requires LinesOk(cid, lines, serials)
    ensures forall id :: id in LineIds(lines) ==> id.claim == cid
  {
    forall id | id in LineIds(lines) ensures id.claim == cid {
      var i :| 0 <= i < |lines| && lines[i].id == id;
      assert LineOk(cid, lines[i], serials);
    }
  }

  /** What `first_for_lines` finds is a row of the claim. */
  lemma {:induction false} FirstForwardOfClaim(handoffs: seq<Handoff>, cid: ClaimId, lines: seq<Line>, serials: nat)
    requires LinesOk(cid, lines, serials)
    requires forall h :: h in handoffs ==> h.line.claim == h.claim
    ensures
      match FirstForward(handoffs, LineIds(lines))
      case None => forall h :: h in RowsOf(handoffs, cid) && h.line in LineIds(lines) ==> !h.forward
      case Some(h) => h in RowsOf(handoffs, cid) && h.forward
  {
    FirstForwardFound(handoffs, LineIds(lines));
    LineIdsOwned(cid, lines, serials);
    RowsOfMembers(handoffs, cid);
  }

  lemma ReleasedLedgerOk(cid: ClaimId, c: Claim, batch: nat, period: nat)
    requires c.status == Released
    ensures LedgerOk(cid, c, Rows(cid, c.lines, batch, period, true))
  {
    var rows := Rows(cid, c.lines, batch, period, true);
    assert rows[..|rows|] == rows;
    if rows != [] {
      assert rows[0].batch == batch && rows[0].period == period;
    }
  }

  lemma ReleasedOriginOk(cid: ClaimId, c: Claim, rows: seq<Handoff>, batches: seq<Batch>, period: nat)
    requires rows == Rows(cid, c.lines, |batches|, period, true)
    ensures OriginOk(cid, c, rows, batches + [Batch(c.client, ReleaseDigest(cid, c.lines), |Relevant(c.lines)|)])
  {
    var last := Batch(c.client, ReleaseDigest(cid, c.lines), |Relevant(c.lines)|);
    assert (batches + [last])[|batches|] == last;
    assert last in batches + [last];
  }

  lemma ReleasedClaimOk(cid: ClaimId, c: Claim)
    requires ClaimOk(cid, c) && Decided(c.status) && !NeedsAttest(c)
    ensures ClaimOk(cid, c.(status := Released))
  {
  }

  lemma ReleasedClaimInv(cid: ClaimId, c: Claim, batches: seq<Batch>, period: nat)
    requires ClaimOk(cid, c) && Decided(c.status) && !NeedsAttest(c)
    ensures ClaimInv(cid, c.(status := Released), Rows(cid, c.lines, |batches|, period, true),
                     batches + [Batch(c.client, ReleaseDigest(cid, c.lines), |Relevant(c.lines)|)])
  {
    var after := c.(status := Released);
    ReleasedClaimOk(cid, c);
    ReleasedLedgerOk(cid, after, |batches|, period);
    ReleasedOriginOk(cid, after, Rows(cid, c.lines, |batches|, period, true), batches, period);
  }

  predicate MayRelease(c: Claim, p: Option<Principal>, posting: Posting) {
    && MayWrite(p, c.client) && (c.status.Approved? || c.status.PartiallyApproved?)
    && !NeedsAttest(c) && !Uncoded(c, posting)
  }

  lemma ReleaseCommits(db: Db, cid: ClaimId, p: Option<Principal>, posting: Posting, period: nat)
    requires Inv(db) && cid in db.claims && !Left(db.claims[cid].status)
    ensures
      var c := db.claims[cid];
      ReleaseClaim(db, cid, p, posting, period) ==
        if MayRelease(c, p, posting)
        then (Published(db, cid, c, ReleaseDigest(cid, c.lines), period, true), Batched(|db.batches|))
        else (db, ReleaseClaim(db, cid, p, posting, period).1)
    ensures ReleaseClaim(db, cid, p, posting, period).1.Failed? <==> !MayRelease(db.claims[cid], p, posting)
  {
    var c := db.claims[cid];
    assert ClaimInv(cid, c, RowsOf(db.handoffs, cid), db.batches);
    FirstForwardOfClaim(db.handoffs, cid, c.lines, c.serials);
    DigestNames(cid, c.lines, c.serials, false);
    var item :| item in ReleaseDigest(cid, c.lines);
    assert !ItemOk(db, item);
    FreshDigest(db, ReleaseDigest(cid, c.lines), c.client, item);
    FreeKeys(db, cid, true);
  }

  lemma {:induction false} ReleasedAt(db: Db, cid: ClaimId, c: Claim, period: nat, after: Db)
    requires ClaimOk(cid, c) && Decided(c.status) && !NeedsAttest(c) && RowsOf(db.handoffs, cid) == []
    requires after == Published(db, cid, c, ReleaseDigest(cid, c.lines), period, true)
    ensures ClaimInv(cid, after.claims[cid], RowsOf(after.handoffs, cid), after.batches)
  {
    PublishedRows(db.handoffs, cid, c.lines, |db.batches|, period, true, cid);
    ReleasedClaimInv(cid, c, db.batches, period);
    assert RowsOf(after.handoffs, cid) == Rows(cid, c.lines, |db.batches|, period, true);
  }

  lemma {:induction false} ReleaseKeepsInv(db: Db, cid: ClaimId, c: Claim, period: nat, after: Db)
    requires ClaimsInv(db) && RowsInv(db) && BatchesInv(db) && cid in db.claims && c == db.claims[cid]
    requires ClaimOk(cid, c) && (c.status.Approved? || c.status.PartiallyApproved?) && !NeedsAttest(c)
    requires RowsOf(db.handoffs, cid) == []
    requires after == Published(db, cid, c, ReleaseDigest(cid, c.lines), period, true)
    ensures ClaimsInv(after) && RowsInv(after) && BatchesInv(after)
  {
    var digest := ReleaseDigest(cid, c.lines);
    ReleasedAt(db, cid, c, period, after);
    PublishKeepsClaims(db, cid, c, digest, period, true, after);
    PublishKeepsRows(db, cid, c, digest, period, true);
    DigestNames(cid, c.lines, c.serials, false);
    PublishKeepsBatches(db, cid, c, digest, period, true);
  }

  /** The batch a claim that has left was released in. */
  function OriginalBatch(db: Db, cid: ClaimId): Option<nat>
    requires cid in db.claims
  {
    var rows := RowsOf(db.handoffs, cid);
    if rows == [] then BatchByHash(db.batches, db.claims[cid].client, multiset{EmptyRelease(cid)})
    else Some(rows[0].batch)
  }

  lemma ForwardRowsShareBatch(cid: ClaimId, c: Claim, rows: seq<Handoff>, h: Handoff)
    requires LedgerOk(cid, c, rows) && h in rows && h.forward
    ensures rows != [] && h.batch == rows[0].batch
  {
    var n := |Relevant(c.lines)|;
    forall i | n <= i < |rows| ensures !rows[i].forward {
      assert rows[n..][i - n] == rows[i];
    }
    var i :| 0 <= i < |rows| && rows[i] == h;
    assert rows[..n][i] == h;
  }

  lemma FirstRowIsForward(cid: ClaimId, c: Claim, rows: seq<Handoff>)
    requires LedgerOk(cid, c, rows) && rows != []
    ensures rows[0].forward && rows[0].line in LineIds(c.lines)
  {
    var n := |Relevant(c.lines)|;
    assert rows[..n][0] == rows[0];
    assert Relevant(c.lines)[0] in Relevant(c.lines);
  }

  /** Releasing a claim that has left, also one with nothing to forward, changes nothing
      and answers with the batch it left in. */
  lemma ReleaseAgainIsNoOp(db: Db, cid: ClaimId, p: Option<Principal>, posting: Posting, period: nat)
    requires Inv(db) && cid in db.claims && Left(db.claims[cid].status)
    ensures OriginalBatch(db, cid).Some?
    ensures ReleaseClaim(db, cid, p, posting, period) ==
      (db, if MayWrite(p, db.claims[cid].client) then Batched(OriginalBatch(db, cid).value) else Failed(Forbidden))
  {
    var c := db.claims[cid];
    var rows := RowsOf(db.handoffs, cid);
    assert ClaimInv(cid, c, rows, db.batches);
    FirstForwardOfClaim(db.handoffs, cid, c.lines, c.serials);
    var existing := FirstForward(db.handoffs, LineIds(c.lines));
    if rows != [] {
      FirstRowIsForward(cid, c, rows);
      assert rows[0] in rows;
      ForwardRowsShareBatch(cid, c, rows, existing.value);
    }
  }

  // -- reversal ----------------------------------------------------------------------------------

  predicate MayReverseClaim(c: Claim, p: Option<Principal>, mode: ReverseMode, reason: Option<string>) {
    && MayWrite(p, c.client) && !mode.Off? && c.status.Released?
    && (mode.ApproverReason? ==> MayReverse(p) && reason.Some? && !IsBlank(reason.value))
  }

  /** Whether the claim has been reversed already. */
  predicate Reversed(db: Db, cid: ClaimId)
    requires cid in db.claims
  {
    var c := db.claims[cid];
    if Relevant(c.lines) == [] then BatchByHash(db.batches, c.client, multiset{EmptyReversal(cid)}).Some?
    else |RowsOf(db.handoffs, cid)| > |Relevant(c.lines)|
  }

  lemma ReversedRows(cid: ClaimId, c: Claim, rows: seq<Handoff>, id: LineId)
    requires LedgerOk(cid, c, rows) && Left(c.status) && Relevant(c.lines) != [] && id == Relevant(c.lines)[0].id
    ensures (exists h :: h in rows && h.line == id && !h.forward) <==> |rows| > |Relevant(c.lines)|
    ensures |rows| <= |Relevant(c.lines)| ==> forall h :: h in rows ==> h.forward
  {
    var n := |Relevant(c.lines)|;
    if |rows| > n {
      assert rows[n..][0] == rows[n];
      assert rows[n] in rows;
    } else {
      assert rows[..n] == rows;
    }
  }

  lemma {:induction false} ReversedIffFirstKeyTaken(db: Db, cid: ClaimId, c: Claim, rows: seq<Handoff>)
    requires RowsInv(db) && cid in db.claims && c == db.claims[cid] && rows == RowsOf(db.handoffs, cid)
    requires LinesOk(cid, c.lines, c.serials) && LedgerOk(cid, c, rows) && Left(c.status) && Relevant(c.lines) != []
    ensures KeyTaken(db.handoffs, {Relevant(c.lines)[0].id}, false) <==> Reversed(db, cid)
    ensures !Reversed(db, cid) ==> forall h :: h in rows ==> h.forward
  {
    RelevantIds(cid, c.lines, c.serials);
    RowsOfMembers(db.handoffs, cid);
    assert Relevant(c.lines)[0] in Relevant(c.lines);
    ReversedRows(cid, c, rows, Relevant(c.lines)[0].id);
  }

  /** Neither the digest nor a key of a first reversal is taken. */
  lemma {:induction false} ReversalIsFresh(db: Db, cid: ClaimId, c: Claim, rows: seq<Handoff>)
    requires RowsInv(db) && BatchesInv(db) && cid in db.claims && c == db.claims[cid]
    requires rows == RowsOf(db.handoffs, cid)
    requires LinesOk(cid, c.lines, c.serials) && LedgerOk(cid, c, rows) && Left(c.status) && !Reversed(db, cid)
    ensures BatchByHash(db.batches, c.client, ReversalDigest(cid, c.lines)).None?
    ensures !KeyTaken(db.handoffs, LineIds(Relevant(c.lines)), false)
  {
    if Relevant(c.lines) != [] {
      ReversedIffFirstKeyTaken(db, cid, c, rows);
      DigestNames(cid, c.lines, c.serials, true);
      var item :| item in ReversalDigest(cid, c.lines);
      assert !ItemOk(db, item);
      FreshDigest(db, ReversalDigest(cid, c.lines), c.client, item);
      FreeKeys(db, cid, false);
    }
  }

  lemma ReverseGoes(db: Db, cid: ClaimId, c: Claim, p: Option<Principal>, mode: ReverseMode, reason: Option<string>,
                    period: nat)
    requires cid in db.claims && c == db.claims[cid] && MayReverseClaim(c, p, mode, reason)
    requires Relevant(c.lines) != [] ==> !KeyTaken(db.handoffs, {Relevant(c.lines)[0].id}, false)
    requires BatchByHash(db.batches, c.client, ReversalDigest(cid, c.lines)).None?
    requires !KeyTaken(db.handoffs, LineIds(Relevant(c.lines)), false)
    ensures ReverseClaim(db, cid, p, mode, reason, period) ==
      (Published(db, cid, c, ReversalDigest(cid, c.lines), period, false), Batched(|db.batches|))
  {
  }

  lemma ReverseCommits(db: Db, cid: ClaimId, c: Claim, p: Option<Principal>, mode: ReverseMode, reason: Option<string>,
                       period: nat)
    requires Inv(db) && cid in db.claims && c == db.claims[cid] && MayReverseClaim(c, p, mode, reason)
    requires !Reversed(db, cid)
    ensures ReverseClaim(db, cid, p, mode, reason, period) ==
      (Published(db, cid, c, ReversalDigest(cid, c.lines), period, false), Batched(|db.batches|))
  {
    var rows := RowsOf(db.handoffs, cid);
    assert LinesOk(cid, c.lines, c.serials) && LedgerOk(cid, c, rows) by { assert ClaimInv(cid, c, rows, db.batches); }
    ReversalIsFresh(db, cid, c, rows);
    if Relevant(c.lines) != [] {
      ReversedIffFirstKeyTaken(db, cid, c, rows);
    }
    ReverseGoes(db, cid, c, p, mode, reason, period);
  }

  lemma ReverseForbidden(db: Db, cid: ClaimId, p: Option<Principal>, mode: ReverseMode, reason: Option<string>,
                         period: nat)
    requires cid in db.claims && !MayReverseClaim(db.claims[cid], p, mode, reason)
    ensures ReverseClaim(db, cid, p, mode, reason, period).0 == db
    ensures ReverseClaim(db, cid, p, mode, reason, period).1.Failed?
  {
  }

  lemma ReversedTakesKey(db: Db, cid: ClaimId, c: Claim)
    requires Inv(db) && cid in db.claims && c == db.claims[cid] && Left(c.status) && Reversed(db, cid)
    requires Relevant(c.lines) != []
    ensures KeyTaken(db.handoffs, {Relevant(c.lines)[0].id}, false)
  {
    var rows := RowsOf(db.handoffs, cid);
    assert ClaimInv(cid, c, rows, db.batches);
    ReversedIffFirstKeyTaken(db, cid, c, rows);
  }

  lemma ReverseTaken(db: Db, cid: ClaimId, c: Claim, p: Option<Principal>, mode: ReverseMode, reason: Option<string>,
                     period: nat)
    requires cid in db.claims && c == db.claims[cid] && MayReverseClaim(c, p, mode, reason)
    requires if Relevant(c.lines) != [] then KeyTaken(db.handoffs, {Relevant(c.lines)[0].id}, false)
             else BatchByHash(db.batches, c.client, multiset{EmptyReversal(cid)}).Some?
    ensures ReverseClaim(db, cid, p, mode, reason, period) ==
      (db, if Relevant(c.lines) != [] then Failed(Illegal)
           else Batched(BatchByHash(db.batches, c.client, multiset{EmptyReversal(cid)}).value))
  {
  }

  /** A second reversal adds nothing: refused when the first had rows, answered with its
      batch when it had none. */
  lemma ReverseAgainIsNoOp(db: Db, cid: ClaimId, c: Claim, p: Option<Principal>, mode: ReverseMode,
                           reason: Option<string>, period: nat)
    requires Inv(db) && cid in db.claims && c == db.claims[cid] && MayReverseClaim(c, p, mode, reason)
    requires Reversed(db, cid)
    ensures Relevant(c.lines) != [] ==> ReverseClaim(db, cid, p, mode, reason, period) == (db, Failed(Illegal))
    ensures Relevant(c.lines) == [] ==>
      exists batch :: ReverseClaim(db, cid, p, mode, reason, period) == (db, Batched(batch))
  {
    if Relevant(c.lines) != [] { ReversedTakesKey(db, cid, c); }
    ReverseTaken(db, cid, c, p, mode, reason, period);
  }

  lemma ReversedClaimInv(cid: ClaimId, c: Claim, rows: seq<Handoff>, batches: seq<Batch>, batch: nat, period: nat,
                         more: Batch)
    requires ClaimInv(cid, c, rows, batches) && c.status.Released? && |rows| == |Relevant(c.lines)|
    ensures ClaimInv(cid, c, rows + Rows(cid, c.lines, batch, period, false), batches + [more])
  {
    var n := |rows|;
    var both := rows + Rows(cid, c.lines, batch, period, false);
    MoreBatches(cid, c, rows, batches, more);
    assert both[..n] == rows == rows[..n];
    assert both[n..] == Rows(cid, c.lines, batch, period, false);
  }

  lemma {:induction false} ReverseKeepsInv(db: Db, cid: ClaimId, c: Claim, rows: seq<Handoff>, period: nat, after: Db)
    requires ClaimsInv(db) && RowsInv(db) && BatchesInv(db) && cid in db.claims && c == db.claims[cid]
    requires rows == RowsOf(db.handoffs, cid) && ClaimInv(cid, c, rows, db.batches) && c.status.Released?
    requires |rows| == |Relevant(c.lines)|
    requires after == Published(db, cid, c, ReversalDigest(cid, c.lines), period, false)
    ensures ClaimsInv(after) && RowsInv(after) && BatchesInv(after)
  {
    var digest := ReversalDigest(cid, c.lines);
    PublishedRows(db.handoffs, cid, c.lines, |db.batches|, period, false, cid);
    ReversedClaimInv(cid, c, rows, db.batches, |db.batches|, period, after.batches[|db.batches|]);
    PublishKeepsClaims(db, cid, c, digest, period, false, after);
    PublishKeepsRows(db, cid, c, digest, period, false);
    DigestNames(cid, c.lines, c.serials, true);
    PublishKeepsBatches(db, cid, c, digest, period, false);
  }

  lemma ReleaseStepKeepsInv(db: Db, cid: ClaimId, p: Option<Principal>, posting: Posting, period: nat)
    requires Inv(db) && cid in db.claims
    ensures Inv(ReleaseClaim(db, cid, p, posting, period).0)
  {
    var c := db.claims[cid];
    if Left(c.status) {
      ReleaseAgainIsNoOp(db, cid, p, posting, period);
    } else {
      ReleaseCommits(db, cid, p, posting, period);
      if MayRelease(c, p, posting) {
        assert ClaimInv(cid, c, RowsOf(db.handoffs, cid), db.batches);
        ReleaseKeepsInv(db, cid, c, period, ReleaseClaim(db, cid, p, posting, period).0);
      }
    }
  }

  lemma ReverseStepKeepsInv(db: Db, cid: ClaimId, p: Option<Principal>, mode: ReverseMode, reason: Option<string>,
                            period: nat)
    requires Inv(db) && cid in db.claims
    ensures Inv(ReverseClaim(db, cid, p, mode, reason, period).0)
  {
    var c := db.claims[cid];
    var rows := RowsOf(db.handoffs, cid);
    if MayReverseClaim(c, p, mode, reason) && !Reversed(db, cid) {
      ReverseCommits(db, cid, c, p, mode, reason, period);
      assert ClaimInv(cid, c, rows, db.batches);
      ReverseKeepsInv(db, cid, c, rows, period, ReverseClaim(db, cid, p, mode, reason, period).0);
    } else if MayReverseClaim(c, p, mode, reason) {
      ReverseAgainIsNoOp(db, cid, c, p, mode, reason, period);
    } else {
      ReverseForbidden(db, cid, p, mode, reason, period);
    }
  }

  // -- every run ------------------------------------------------------------------------------------

  lemma StepKeepsInv(db: Db, op: Op)
    requires Inv(db)
    ensures Inv(Step(db, op).0)
  {
    match op
    case Start(cid, capture) =>
      if cid !in db.claims { StartKeepsInv(db, cid, capture); }
    case Change(cid, change) =>
      if cid in db.claims && Apply(cid, db.claims[cid], change).Ok? {
        assert ClaimInv(cid, db.claims[cid], RowsOf(db.handoffs, cid), db.batches);
        ChangeKeeps(cid, db.claims[cid], change, Apply(cid, db.claims[cid], change).value);
        ChangeKeepsInv(db, cid, Apply(cid, db.claims[cid], change).value);
      }
    case Release(cid, p, posting, period) =>
      if cid in db.claims { ReleaseStepKeepsInv(db, cid, p, posting, period); }
    case Reverse(cid, p, mode, reason, period) =>
      if cid in db.claims { ReverseStepKeepsInv(db, cid, p, mode, reason, period); }
  }

  lemma {:induction false} RunKeepsInv(db: Db, ops: seq<Op>)
    requires Inv(db)
    ensures Inv(Run(db, ops))
    decreases |ops|
  {
    if ops != [] {
      StepKeepsInv(db, ops[0]);
      RunKeepsInv(Step(db, ops[0]).0, ops[1..]);
    }
  }

  lemma EmptyInv()
    ensures Inv(EMPTY)
  {
  }

  /** The states the system can be in. */
  ghost predicate Reachable(db: Db) {
    exists ops :: db == Run(EMPTY, ops)
  }

  lemma ReachableInv(db: Db)
    requires Reachable(db)
    ensures Inv(db)
  {
    var ops :| db == Run(EMPTY, ops);
    EmptyInv();
    RunKeepsInv(EMPTY, ops);
  }
}
