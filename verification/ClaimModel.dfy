/** The e-Claim tables: claims with their lines, the CarbonNext handoff log and the release
    batches, and the arithmetic that rolls lines up onto the claim
    (src/eclaim/services/claims.py, src/eclaim/db/models.py).

    Identifiers are fresh and never reused; a line's identifier names its claim. Digests
    and idempotency keys are ideal hashes of what they are computed from. */
module ClaimModel {
  import opened Prelude
  import opened ApprovalMatrix

  datatype ClaimStatus =
    | Submitted | InReview | SentBack | Approved | PartiallyApproved | Rejected | Released | Exported | Paid

  datatype LineStatus = Pending | LineApproved | Queried | LineRejected

  datatype Payment = OutOfPocket | CorporateCard | CompanyPaid

  datatype Page = Page(sha: string, path: string)

  type ClaimId = nat

  datatype LineId = LineId(claim: ClaimId, serial: nat)

  datatype Line = Line(
    id: LineId, lineNo: int,
    docNo: Option<string>, currency: Option<string>,
    total: Option<real>, tax: Option<real>, taxInclusive: Option<bool>, fx: Option<real>,
    net: Option<real>, base: Option<real>, quantity: Option<real>,
    category: Option<nat>, carbonRelevant: bool, payment: Payment,
    status: LineStatus, reason: Option<string>,
    image: Option<Page>, pages: seq<Page>, mileage: bool,
    gl: Option<string>, costCentre: Option<string>)

  datatype Claim = Claim(
    client: nat, status: ClaimStatus,
    createdBy: Option<nat>, approvedBy: Option<nat>, attestedBy: Option<string>, note: Option<string>,
    department: Option<string>,
    claimed: Option<real>, approved: Option<real>, reimbursable: Option<real>,
    lines: seq<Line>, serials: nat)

  /** One row of the handoff log. UNIQUE(idempotency key) is UNIQUE(client, line, direction). */
  datatype Handoff = Handoff(
    claim: ClaimId, line: LineId, batch: nat, forward: bool, period: nat,
    category: Option<nat>, currency: Option<string>,
    amount: Option<real>, net: Option<real>, tax: Option<real>, base: Option<real>, quantity: Option<real>,
    docNo: Option<string>, docGross: Option<real>)

  /** One element of the list a batch digest hashes. */
  datatype Item =
    | ForwardOf(line: LineId, category: Option<nat>, amount: Option<real>, currency: Option<string>,
                quantity: Option<real>)
    | ReversalOf(line: LineId, category: Option<nat>, amount: Option<real>, currency: Option<string>,
                 quantity: Option<real>)
    | EmptyRelease(claim: ClaimId)
    | EmptyReversal(claim: ClaimId)

  /** An order-independent content hash: the multiset of what was hashed. */
  type Digest = multiset<Item>

  datatype Batch = Batch(client: nat, digest: Digest, count: nat)

  datatype Db = Db(claims: map<ClaimId, Claim>, handoffs: seq<Handoff>, batches: seq<Batch>)

  /** The claim has left for another system. */
  predicate Left(status: ClaimStatus) {
    status.Released? || status.Exported? || status.Paid?
  }

  /** The claim may still be worked on by its submitter. */
  predicate Open(status: ClaimStatus) {
    status.InReview? || status.Submitted? || status.SentBack?
  }

  /** Statuses in which the approved totals are kept exact. */
  predicate Decided(status: ClaimStatus) {
    status.Approved? || status.PartiallyApproved? || Left(status)
  }

  // -- money -----------------------------------------------------------------------

  function UpperChar(c: char): char {
    if 'a' <= c <= 'z' then (c as int - 32) as char else c
  }

  predicate IsForeign(currency: Option<string>) {
    currency.Some? && currency.value != "" &&
    var upper := Map(currency.value, UpperChar);
    upper != "MYR" && upper != "RM"
  }

  /** Decimal's default rounding: to the nearest, a half to the even neighbour. */
  function RoundHalfEven(x: real): int {
    var low := x.Floor;
    if x - low as real < 0.5 then low
    else if x - low as real > 0.5 then low + 1
    else if low % 2 == 0 then low else low + 1
  }

  function Cents(x: real): real {
    RoundHalfEven(x * 100.0) as real / 100.0
  }

  /** A printed total includes its tax unless said otherwise. */
  function NetOf(total: Option<real>, tax: Option<real>, taxInclusive: Option<bool>): Option<real> {
    if total.None? then None
    else if taxInclusive == Some(false) then total
    else Some(total.value - (if tax.Some? then tax.value else 0.0))
  }

  /** The home-currency value; none for a foreign amount without a rate. */
  function BaseOf(total: Option<real>, fx: Option<real>, currency: Option<string>): Option<real> {
    if total.None? then None
    else if fx.Some? && fx.value != 0.0 then Some(Cents(total.value * fx.value))
    else if IsForeign(currency) then None
    else total
  }

  /** `_recompute_line_money`: both derived from what was keyed. */
  function RecomputeMoney(line: Line): Line {
    line.(net := NetOf(line.total, line.tax, line.taxInclusive), base := BaseOf(line.total, line.fx, line.currency))
  }

  /** `_apply_fx_default`, with the rate the settings and the rate table offer, if any. */
  function ApplyFxDefault(line: Line, tableRate: Option<real>): Line {
    if line.fx.Some? || !IsForeign(line.currency) || tableRate.None? then line else line.(fx := tableRate)
  }

  /** Sum of the home-currency amounts that are known; None when there are none. */
  function SumBase(lines: seq<Line>): Option<real> {
    if lines == [] then None
    else
      var rest, last := SumBase(lines[..|lines| - 1]), lines[|lines| - 1].base;
      if last.None? then rest else if rest.None? then last else Some(rest.value + last.value)
  }

  function ApprovedLines(lines: seq<Line>): seq<Line> {
    if lines == [] then []
    else
      var last := lines[|lines| - 1];
      ApprovedLines(lines[..|lines| - 1]) + (if last.status.LineApproved? then [last] else [])
  }

  function OutOfPocketLines(lines: seq<Line>): seq<Line> {
    if lines == [] then []
    else
      var last := lines[|lines| - 1];
      OutOfPocketLines(lines[..|lines| - 1]) + (if last.payment.OutOfPocket? then [last] else [])
  }

  /** `_recompute_totals`. */
  function WithTotals(c: Claim): Claim {
    var approved := ApprovedLines(c.lines);
    c.(claimed := SumBase(c.lines),
       approved := SumBase(approved),
       reimbursable := SumBase(OutOfPocketLines(approved)))
  }

  predicate FxResolved(lines: seq<Line>) {
    forall i :: 0 <= i < |lines| ==> lines[i].total.Some? ==> lines[i].base.Some?
  }

  function BaseOrZero(line: Line): real {
    if line.base.Some? then line.base.value else 0.0
  }

  function SumAll(lines: seq<Line>): real {
    if lines == [] then 0.0 else SumAll(lines[..|lines| - 1]) + BaseOrZero(lines[|lines| - 1])
  }

  lemma SumAllAppend(lines: seq<Line>, last: Line)
    ensures SumAll(lines + [last]) == SumAll(lines) + BaseOrZero(last)
  {
    assert (lines + [last])[..|lines|] == lines;
  }

  lemma OutOfPocketAppend(lines: seq<Line>, last: Line)
    ensures OutOfPocketLines(lines + [last]) ==
      OutOfPocketLines(lines) + (if last.payment.OutOfPocket? then [last] else [])
  {
    assert (lines + [last])[..|lines|] == lines;
  }

  lemma ApprovedAppend(lines: seq<Line>, last: Line)
    ensures ApprovedLines(lines + [last]) == ApprovedLines(lines) + (if last.status.LineApproved? then [last] else [])
  {
    assert (lines + [last])[..|lines|] == lines;
  }

  lemma {:induction false} SumBaseIsSum(lines: seq<Line>)
    ensures SumBase(lines).Some? <==> exists i :: 0 <= i < |lines| && lines[i].base.Some?
    ensures SumBase(lines).Some? ==> SumBase(lines).value == SumAll(lines)
    ensures SumBase(lines).None? ==> SumAll(lines) == 0.0
  {
    if lines != [] {
      var init := lines[..|lines| - 1];
      SumBaseIsSum(init);
      if exists i :: 0 <= i < |init| && init[i].base.Some? {
        var i :| 0 <= i < |init| && init[i].base.Some?;
        assert lines[i].base.Some?;
      }
    }
  }

  // -- documents, payloads and rows --------------------------------------------------

  /** The identity of the source document a line came from: lines without a document
      number never share one. */
  datatype DocKey = Named(docNo: string) | OwnLine(line: LineId)

  function DocOf(docNo: Option<string>, line: LineId): DocKey {
    if docNo.Some? && docNo.value != "" then Named(docNo.value) else OwnLine(line)
  }

  function AmountOrZero(amount: Option<real>): real {
    if amount.Some? then amount.value else 0.0
  }

  /** Gross of one document over all lines of the claim, carbon-relevant or not. */
  function DocGross(lines: seq<Line>, key: DocKey): real {
    if lines == [] then 0.0
    else
      var last := lines[|lines| - 1];
      DocGross(lines[..|lines| - 1], key)
      + if DocOf(last.docNo, last.id) == key then AmountOrZero(last.total) else 0.0
  }

  predicate IsRelevant(line: Line) {
    line.status.LineApproved? && line.carbonRelevant
  }

  function Relevant(lines: seq<Line>): (r: seq<Line>)
    ensures forall x :: x in r <==> x in lines && IsRelevant(x)
  {
    if lines == [] then []
    else
      var last := lines[|lines| - 1];
      assert lines == lines[..|lines| - 1] + [last];
      Relevant(lines[..|lines| - 1]) + (if IsRelevant(last) then [last] else [])
  }

  function Payload(line: Line, reversal: bool): Item {
    if reversal then ReversalOf(line.id, line.category, line.total, line.currency, line.quantity)
    else ForwardOf(line.id, line.category, line.total, line.currency, line.quantity)
  }

  function Payloads(lines: seq<Line>, reversal: bool): seq<Item> {
    Map(lines, (line: Line) => Payload(line, reversal))
  }

  function ReleaseDigest(cid: ClaimId, lines: seq<Line>): Digest {
    var relevant := Relevant(lines);
    if relevant == [] then multiset{EmptyRelease(cid)} else multiset(Payloads(relevant, false))
  }

  function ReversalDigest(cid: ClaimId, lines: seq<Line>): Digest {
    var relevant := Relevant(lines);
    if relevant == [] then multiset{EmptyReversal(cid)} else multiset(Payloads(relevant, true))
  }

  function Negated(amount: Option<real>): Option<real> {
    if amount.Some? then Some(-amount.value) else None
  }

  function ForwardRow(cid: ClaimId, lines: seq<Line>, line: Line, batch: nat, period: nat): Handoff {
    Handoff(cid, line.id, batch, true, period, line.category, line.currency,
            line.total, line.net, line.tax, line.base, line.quantity,
            line.docNo, Some(DocGross(lines, DocOf(line.docNo, line.id))))
  }

  /** The opposite of a forward row: the document's gross is context and keeps its sign. */
  function ReversalRow(cid: ClaimId, lines: seq<Line>, line: Line, batch: nat, period: nat): Handoff {
    Handoff(cid, line.id, batch, false, period, line.category, line.currency,
            Negated(line.total), Negated(line.net), Negated(line.tax), Negated(line.base), Negated(line.quantity),
            line.docNo, Some(DocGross(lines, DocOf(line.docNo, line.id))))
  }

  function Row(cid: ClaimId, lines: seq<Line>, line: Line, batch: nat, period: nat, forward: bool): Handoff {
    if forward then ForwardRow(cid, lines, line, batch, period) else ReversalRow(cid, lines, line, batch, period)
  }

  function Rows(cid: ClaimId, lines: seq<Line>, batch: nat, period: nat, forward: bool): (r: seq<Handoff>)
    ensures |r| == |Relevant(lines)|
    ensures forall i :: 0 <= i < |r| ==> r[i] == Row(cid, lines, Relevant(lines)[i], batch, period, forward)
  {
    var relevant := Relevant(lines);
    seq(|relevant|, i requires 0 <= i < |relevant| => Row(cid, lines, relevant[i], batch, period, forward))
  }

  /** The rows of one claim, oldest first. */
  function RowsOf(handoffs: seq<Handoff>, cid: ClaimId): seq<Handoff> {
    if handoffs == [] then []
    else
      var last := handoffs[|handoffs| - 1];
      RowsOf(handoffs[..|handoffs| - 1], cid) + (if last.claim == cid then [last] else [])
  }

  lemma {:induction false} RowsOfAppend(handoffs: seq<Handoff>, more: seq<Handoff>, cid: ClaimId)
    ensures RowsOf(handoffs + more, cid) == RowsOf(handoffs, cid) + RowsOf(more, cid)
    decreases |more|
  {
    if more == [] {
      assert handoffs + more == handoffs;
    } else {
      var init := more[..|more| - 1];
      RowsOfAppend(handoffs, init, cid);
      assert (handoffs + more)[..|handoffs + more| - 1] == handoffs + init;
    }
  }

  lemma {:induction false} RowsOfOne(rows: seq<Handoff>, owner: ClaimId, cid: ClaimId)
    requires forall i :: 0 <= i < |rows| ==> rows[i].claim == owner
    ensures RowsOf(rows, cid) == if cid == owner then rows else []
  {
    if rows != [] {
      RowsOfOne(rows[..|rows| - 1], owner, cid);
    }
  }
}
