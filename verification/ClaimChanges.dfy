/** Every operation that touches one claim's header and lines
    (src/eclaim/services/claims.py), as a function of the claim. An error leaves the claim
    as it was: the caller rolls its transaction back. */
module ClaimChanges {
  import opened Prelude
  import opened ApprovalMatrix
  import opened ClaimModel

  datatype Error = NotFound | Illegal | NeedsAttestation | Invalid | Forbidden | Conflict

  /** What capture knows about a new line. */
  datatype Captured = Captured(
    docNo: Option<string>, currency: Option<string>, total: Option<real>, tax: Option<real>,
    quantity: Option<real>, category: Option<nat>, carbonRelevant: bool, payment: Payment,
    image: Option<Page>, pages: seq<Page>, mileage: bool, tableRate: Option<real>)

  datatype Field<+T> = Keep | Set(value: T)

  /** The fields an edit names. `vendorMatch` is the category the merchant map gives when
      the edit touches vendor or expense type; `setsOther` stands for any other expense
      field or unknown name. `carbonCategories` are the client's carbon-relevant ones. */
  datatype Patch = Patch(
    docNo: Field<Option<string>>, currency: Field<Option<string>>, total: Field<Option<real>>,
    quantity: Field<Option<real>>, payment: Field<Payment>, setsOther: bool,
    vendorMatch: Field<Option<nat>>, category: Option<nat>, categoryExists: bool, carbonCategories: set<nat>,
    tax: Field<Option<real>>, taxInclusive: Field<Option<bool>>, fx: Field<Option<real>>,
    gl: Field<Option<string>>, costCentre: Field<Option<string>>, tableRate: Option<real>)

  datatype Decision = Decision(status: LineStatus, reason: Option<string>)

  datatype Change =
    | AddMileage(p: Option<Principal>, actor: string, trip: Captured, tripOk: bool, attested: bool)
    | AttachIntake(p: Option<Principal>, page: Captured, sameClient: bool, intakeOpen: bool)
    | ConfirmContent(p: Option<Principal>)
    | SwitchToBill(p: Option<Principal>, line: LineId)
    | Edit(p: Option<Principal>, target: Option<LineId>, patch: Patch)
    | EditHeader(p: Option<Principal>, department: Field<Option<string>>)
    | MergeLines(p: Option<Principal>, ids: set<LineId>, composite: Page, allowed: bool)
    | SplitLine(p: Option<Principal>, line: LineId, allowed: bool)
    | Approve(p: Option<Principal>, rules: seq<Rule>)
    | Decide(reviewer: Principal, decisions: map<LineId, Decision>, remark: Option<string>, rules: seq<Rule>)
    | SendBack(reviewer: Principal, rules: seq<Rule>)
    | Reject(reviewer: Principal, rules: seq<Rule>)
    | Unapprove(reviewer: Principal)
    | MarkPaid(p: Option<Principal>)
    | Resubmit(p: Option<Principal>)
    | Attest(p: Option<Principal>, actor: string)

  // -- gates -------------------------------------------------------------------------

  /** `_require_writer`: no viewers, and a grant to the client; a service call skips it. */
  predicate MayWrite(p: Option<Principal>, client: nat) {
    p.None? || (p.value.role != Viewer && p.value.CanAccess(client))
  }

  function Categories(lines: seq<Line>): set<nat> {
    set l | l in lines && l.category.Some? :: l.category.value
  }

  function SubjectOf(c: Claim): Subject {
    Subject(EClaim, c.department, Categories(c.lines), if c.claimed.Some? then c.claimed.value else 0.0)
  }

  predicate MayApprove(c: Claim, approver: Principal, rules: seq<Rule>) {
    && (c.createdBy.None? || c.createdBy.value != approver.user)
    && WithinAuthority(approver, c.client, c.claimed, Resolve(rules, SubjectOf(c)))
  }

  // -- lines ---------------------------------------------------------------------------

  /** `next_line_no`: one past the greatest in use. */
  function NextLineNo(lines: seq<Line>): int {
    NextAfter(lines, (l: Line) => l.lineNo)
  }

  function MakeLine(id: LineId, lineNo: int, x: Captured): Line {
    RecomputeMoney(ApplyFxDefault(
      Line(id, lineNo, x.docNo, x.currency, x.total, x.tax, None, None, None, None, x.quantity,
           x.category, x.carbonRelevant, x.payment, Pending, None, x.image, x.pages, x.mileage, None, None),
      x.tableRate))
  }

  function AppendLine(cid: ClaimId, c: Claim, x: Captured): Claim {
    AddLine(c, MakeLine(LineId(cid, c.serials), NextLineNo(c.lines), x))
  }

  function AddLine(c: Claim, line: Line): Claim {
    WithTotals(c.(lines := c.lines + [line], serials := c.serials + 1))
  }

  function IndexOf(lines: seq<Line>, id: LineId): (r: Option<nat>)
    ensures r.Some? ==> r.value < |lines| && lines[r.value].id == id
    ensures r.None? ==> forall i :: 0 <= i < |lines| ==> lines[i].id != id
  {
    if lines == [] then None
    else if lines[0].id == id then Some(0)
    else
      var r := IndexOf(lines[1..], id);
      assert forall i :: 0 < i < |lines| ==> lines[i] == lines[1..][i - 1];
      if r.Some? then Some(r.value + 1) else None
  }

  function SetStatus(lines: seq<Line>, status: LineStatus): (r: seq<Line>)
    ensures |r| == |lines| && forall i :: 0 <= i < |lines| ==> r[i] == lines[i].(status := status)
  {
    seq(|lines|, i requires 0 <= i < |lines| => lines[i].(status := status))
  }

  function ClearDecisions(lines: seq<Line>): (r: seq<Line>)
    ensures |r| == |lines| && forall i :: 0 <= i < |lines| ==> r[i] == lines[i].(status := Pending, reason := None)
  {
    seq(|lines|, i requires 0 <= i < |lines| => lines[i].(status := Pending, reason := None))
  }

  // -- editing one line ------------------------------------------------------------------

  function Updated<T>(field: Field<T>, current: T): T {
    if field.Set? then field.value else current
  }

  /** Only accounting coding, never the expense itself. */
  predicate OnlyCoding(x: Patch) {
    && x.docNo.Keep? && x.currency.Keep? && x.total.Keep? && x.quantity.Keep? && x.payment.Keep?
    && x.vendorMatch.Keep? && !x.setsOther && x.category.None?
  }

  predicate TouchesMoney(x: Patch) {
    x.total.Set? || x.tax.Set? || x.taxInclusive.Set? || x.fx.Set? || x.currency.Set?
  }

  function EditLine(line: Line, x: Patch): Line {
    var keyed := line.(
      docNo := Updated(x.docNo, line.docNo), currency := Updated(x.currency, line.currency),
      total := Updated(x.total, line.total), quantity := Updated(x.quantity, line.quantity),
      payment := Updated(x.payment, line.payment), tax := Updated(x.tax, line.tax),
      taxInclusive := Updated(x.taxInclusive, line.taxInclusive), fx := Updated(x.fx, line.fx),
      gl := Updated(x.gl, line.gl), costCentre := Updated(x.costCentre, line.costCentre));
    var rated := if x.currency.Set? && Updated(x.fx, None) == None
                 then ApplyFxDefault(keyed.(fx := None), x.tableRate) else keyed;
    var priced := if TouchesMoney(x) then RecomputeMoney(rated) else keyed;
    var category := if x.category.Some? then x.category
                    else if x.vendorMatch.Set? && x.vendorMatch.value.Some? then x.vendorMatch.value
                    else line.category;
    priced.(category := category,
            carbonRelevant := category.None? || category.value in x.carbonCategories)
  }

  // -- merging and splitting ---------------------------------------------------------------

  /** The constituent pages of a line, in order. */
  function LinePages(line: Line): seq<Page> {
    if line.pages != [] then line.pages
    else if line.image.Some? then [line.image.value]
    else []
  }

  function PagesOf(lines: seq<Line>): seq<Page> {
    if lines == [] then [] else LinePages(lines[0]) + PagesOf(lines[1..])
  }

  function Numbered(line: Line, no: int): Line {
    line.(lineNo := no)
  }

  function Renumber(lines: seq<Line>): (r: seq<Line>)
    ensures |r| == |lines| && forall i :: 0 <= i < |lines| ==> r[i] == Numbered(lines[i], i + 1)
  {
    seq(|lines|, i requires 0 <= i < |lines| => Numbered(lines[i], i + 1))
  }

  function Selected(lines: seq<Line>, ids: set<LineId>): (r: seq<Line>)
    ensures forall l :: l in r <==> l in lines && l.id in ids
    ensures |r| <= |lines|
  {
    if lines == [] then []
    else (if lines[0].id in ids then [lines[0]] else []) + Selected(lines[1..], ids)
  }

  /** The lines after a merge, before renumbering: the first selected one survives with
      all the pages, the others are gone. */
  function MergedLines(lines: seq<Line>, ids: set<LineId>, composite: Page, pages: seq<Page>,
                       survived: bool): seq<Line> {
    if lines == [] then []
    else if lines[0].id !in ids then [lines[0]] + MergedLines(lines[1..], ids, composite, pages, survived)
    else if survived then MergedLines(lines[1..], ids, composite, pages, true)
    else [lines[0].(image := Some(composite), pages := pages)] + MergedLines(lines[1..], ids, composite, pages, true)
  }

  /** One of the lines a split makes for the pages after the first. */
  function SplitOff(line: Line, id: LineId, page: Page): Line {
    Line(id, 0, line.docNo, line.currency, line.total, None, None, None, None, None, line.quantity,
         line.category, line.carbonRelevant, line.payment, Pending, None, Some(page), [], false, None, None)
  }

  function SplitParts(line: Line, serials: nat): (r: seq<Line>)
    requires LinePages(line) != []
    ensures |r| == |LinePages(line)|
    ensures r[0] == line.(image := Some(LinePages(line)[0]), pages := [])
    ensures forall i :: 0 < i < |r| ==>
      r[i] == SplitOff(line, LineId(line.id.claim, serials + i - 1), LinePages(line)[i])
  {
    var pages := LinePages(line);
    [line.(image := Some(pages[0]), pages := [])]
      + seq(|pages| - 1,
            i requires 0 <= i < |pages| - 1 => SplitOff(line, LineId(line.id.claim, serials + i), pages[i + 1]))
  }

  // -- deciding -------------------------------------------------------------------------------

  predicate IsBlank(s: string) {
    forall i :: 0 <= i < |s| ==> s[i] in {' ', '\t', '\n', '\r'}
  }

  predicate DecisionOk(d: Decision) {
    && !d.status.Pending?
    && (d.status.LineApproved? || (d.reason.Some? && !IsBlank(d.reason.value)))
  }

  function DecideLine(line: Line, decisions: map<LineId, Decision>): Line {
    if line.id !in decisions then line
    else
      var d := decisions[line.id];
      line.(status := d.status, reason := if d.reason == Some("") then None else d.reason)
  }

  function DecideLines(lines: seq<Line>, decisions: map<LineId, Decision>): (r: seq<Line>)
    ensures |r| == |lines| && forall i :: 0 <= i < |lines| ==> r[i] == DecideLine(lines[i], decisions)
  {
    seq(|lines|, i requires 0 <= i < |lines| => DecideLine(lines[i], decisions))
  }

  /** The header status the line outcomes add up to. */
  function RollUp(lines: seq<Line>): ClaimStatus {
    var statuses := set l | l in lines :: l.status;
    if Queried in statuses || Pending in statuses then SentBack
    else if statuses == {LineRejected} then Rejected
    else if LineRejected in statuses then PartiallyApproved
    else Approved
  }

  // -- the operations --------------------------------------------------------------------------

  function SwitchToVendorBill(c: Claim, id: LineId): Result<Claim, Error> {
    var i := IndexOf(c.lines, id);
    if i.None? || c.lines[i.value].image.None? then Err(Invalid)
    else
      var left := WithTotals(c.(lines := c.lines[..i.value] + c.lines[i.value + 1..]));
      Ok(if left.lines == [] then left.(status := Rejected, note := Some("voided")) else left)
  }

  function EditTarget(lines: seq<Line>, target: Option<LineId>): (r: Option<nat>)
    ensures r.Some? ==> r.value < |lines|
  {
    if target.Some? then IndexOf(lines, target.value) else if lines == [] then None else Some(0)
  }

  function EditExpense(c: Claim, target: Option<LineId>, patch: Patch): Result<Claim, Error> {
    var i := EditTarget(c.lines, target);
    if i.None? || (patch.category.Some? && !patch.categoryExists) then Err(Invalid)
    else Ok(WithTotals(c.(lines := c.lines[i.value := EditLine(c.lines[i.value], patch)])))
  }

  function Merge(c: Claim, ids: set<LineId>, composite: Page): Result<Claim, Error> {
    var selected := Selected(c.lines, ids);
    var pages := PagesOf(selected);
    if |ids| < 2 || |selected| != |ids| || (exists l :: l in selected && l.mileage) || |pages| < 2 then Err(Invalid)
    else Ok(WithTotals(c.(lines := Renumber(MergedLines(c.lines, ids, composite, pages, false)))))
  }

  /** `parts` in place of line i. */
  function Spliced(lines: seq<Line>, i: nat, parts: seq<Line>): (r: seq<Line>)
    requires i < |lines|
    ensures |r| == |lines| + |parts| - 1
  {
    lines[..i] + parts + lines[i + 1..]
  }

  function SplitClaim(c: Claim, i: nat): Claim
    requires i < |c.lines| && LinePages(c.lines[i]) != []
  {
    c.(lines := Renumber(Spliced(c.lines, i, SplitParts(c.lines[i], c.serials))),
       serials := c.serials + |LinePages(c.lines[i])| - 1)
  }

  function Split(c: Claim, id: LineId): Result<Claim, Error> {
    var i := IndexOf(c.lines, id);
    if i.None? || |LinePages(c.lines[i.value])| < 2 then Err(Invalid)
    else Ok(WithTotals(SplitClaim(c, i.value)))
  }

  function ApproveAll(c: Claim, p: Option<Principal>, rules: seq<Rule>): Result<Claim, Error> {
    if !c.status.InReview? then Err(Illegal)
    else if !FxResolved(c.lines) then Err(Invalid)
    else if p.Some? && !MayApprove(c, p.value, rules) then Err(Forbidden)
    else Ok(WithTotals(c.(lines := SetStatus(c.lines, LineApproved), status := Approved,
                          approvedBy := if p.Some? then Some(p.value.user) else c.approvedBy)))
  }

  predicate DecisionsOk(lines: seq<Line>, decisions: map<LineId, Decision>) {
    forall id :: id in decisions ==> IndexOf(lines, id).Some? && DecisionOk(decisions[id])
  }

  function DecideEach(c: Claim, reviewer: Principal, decisions: map<LineId, Decision>, remark: Option<string>,
                      rules: seq<Rule>): Result<Claim, Error> {
    if !c.status.InReview? then Err(Illegal)
    else if !FxResolved(c.lines) then Err(Invalid)
    else if !MayApprove(c, reviewer, rules) then Err(Forbidden)
    else if !DecisionsOk(c.lines, decisions) then Err(Invalid)
    else
      var lines := DecideLines(c.lines, decisions);
      var status := RollUp(lines);
      Ok(WithTotals(c.(lines := lines, status := status, note := remark,
                       approvedBy := if status.Approved? || status.PartiallyApproved? then Some(reviewer.user)
                                     else c.approvedBy)))
  }

  function Turn(c: Claim, reviewer: Principal, rules: seq<Rule>, line: LineStatus,
                status: ClaimStatus): Result<Claim, Error> {
    if !c.status.InReview? then Err(Illegal)
    else if !MayApprove(c, reviewer, rules) then Err(Forbidden)
    else Ok(c.(lines := SetStatus(c.lines, line), status := status))
  }

  function Reopen(c: Claim, reviewer: Principal): Result<Claim, Error> {
    if !c.status.Approved? && !c.status.PartiallyApproved? then Err(Illegal)
    else if !MayWrite(Some(reviewer), c.client) then Err(Forbidden)
    else Ok(WithTotals(c.(lines := ClearDecisions(c.lines), status := InReview, approvedBy := None, note := None)))
  }

  /** The principal of a change gated by `_require_writer` first; the approval-side
      operations have gates of their own. */
  predicate PassesWriter(c: Claim, change: Change) {
    || change.Approve? || change.Decide? || change.SendBack? || change.Reject? || change.Unapprove?
    || MayWrite(change.p, c.client)
  }

  function Apply(cid: ClaimId, c: Claim, change: Change): Result<Claim, Error> {
    if !PassesWriter(c, change) then Err(Forbidden)
    else match change
      case AddMileage(_, actor, trip, tripOk, attested) =>
        if !Open(c.status) then Err(Illegal)
        else if !attested then Err(NeedsAttestation)
        else if !tripOk then Err(Invalid)
        else Ok(AppendLine(cid, c, trip).(attestedBy := Some(actor)))
      case AttachIntake(_, page, sameClient, intakeOpen) =>
        if !Open(c.status) then Err(Illegal)
        else if !sameClient || !intakeOpen then Err(Invalid)
        else Ok(AppendLine(cid, c, page))
      case ConfirmContent(_) =>
        if !c.status.Submitted? then Err(Illegal) else Ok(c.(status := InReview))
      case SwitchToBill(_, id) =>
        if !Open(c.status) then Err(Illegal) else SwitchToVendorBill(c, id)
      case Edit(_, target, patch) =>
        if (c.status.Approved? || c.status.PartiallyApproved?) && !OnlyCoding(patch) then Err(Illegal)
        else if !Open(c.status) && !c.status.Approved? && !c.status.PartiallyApproved? then Err(Illegal)
        else EditExpense(c, target, patch)
      case EditHeader(_, department) =>
        if !Open(c.status) then Err(Illegal) else Ok(c.(department := Updated(department, c.department)))
      case MergeLines(_, ids, composite, allowed) =>
        if !Open(c.status) || !allowed then Err(Illegal) else Merge(c, ids, composite)
      case SplitLine(_, id, allowed) =>
        if !Open(c.status) || !allowed then Err(Illegal) else Split(c, id)
      case Approve(p, rules) => ApproveAll(c, p, rules)
      case Decide(reviewer, decisions, remark, rules) => DecideEach(c, reviewer, decisions, remark, rules)
      case SendBack(reviewer, rules) => Turn(c, reviewer, rules, Pending, Submitted)
      case Reject(reviewer, rules) => Turn(c, reviewer, rules, LineRejected, Rejected)
      case Unapprove(reviewer) => Reopen(c, reviewer)
      case MarkPaid(p) =>
        if p.Some? && c.createdBy == Some(p.value.user) then Err(Forbidden)
        else if !c.status.Released? && !c.status.Exported? then Err(Illegal)
        else Ok(c.(status := Paid))
      case Resubmit(_) =>
        if !c.status.Submitted? && !c.status.SentBack? then Err(Illegal) else Ok(c.(status := InReview))
      case Attest(_, actor) =>
        if Left(c.status) || c.status.Rejected? then Err(Illegal)
        else if !(exists l :: l in c.lines && l.payment.OutOfPocket?) then Err(Invalid)
        else if c.attestedBy.Some? then Err(Illegal)
        else Ok(c.(attestedBy := Some(actor)))
  }

  // -- what every operation keeps ---------------------------------------------------------------

  predicate LineOk(cid: ClaimId, line: Line, serials: nat) {
    && line.id.claim == cid && line.id.serial < serials
    && line.lineNo >= 1
    && (line.base.Some? ==> line.total.Some?)
  }

  predicate Before(a: Line, b: Line) {
    a.lineNo < b.lineNo && a.id != b.id
  }

  /** Lines in line-number order, each number and identifier used once. */
  predicate LinesOk(cid: ClaimId, lines: seq<Line>, serials: nat) {
    && (forall i {:trigger LineOk(cid, lines[i], serials)} :: 0 <= i < |lines| ==> LineOk(cid, lines[i], serials))
    && (forall i, j {:trigger Before(lines[i], lines[j])} :: 0 <= i < j < |lines| ==> Before(lines[i], lines[j]))
  }

  lemma IdsDistinct(cid: ClaimId, lines: seq<Line>, serials: nat)
    requires LinesOk(cid, lines, serials)
    ensures forall i, j :: 0 <= i < j < |lines| ==> lines[i].id != lines[j].id
  {
    forall i, j | 0 <= i < j < |lines| ensures lines[i].id != lines[j].id {
      assert Before(lines[i], lines[j]);
    }
  }

  /** The roll-up is exact for what was claimed in every state, and for what was approved
      in the decided ones. */
  predicate TotalsOk(c: Claim) {
    && c.claimed == SumBase(c.lines)
    && (Decided(c.status) ==>
         && c.approved == SumBase(ApprovedLines(c.lines))
         && c.reimbursable == SumBase(OutOfPocketLines(ApprovedLines(c.lines))))
  }

  predicate ApprovedOutOfPocket(line: Line) {
    line.status.LineApproved? && line.payment.OutOfPocket?
  }

  predicate AttestedOk(c: Claim) {
    Left(c.status) ==> c.attestedBy.Some? || forall l :: l in c.lines ==> !ApprovedOutOfPocket(l)
  }

  predicate MakerIsNotChecker(c: Claim) {
    c.approvedBy.Some? && c.createdBy.Some? ==> c.approvedBy != c.createdBy
  }

  predicate ClaimOk(cid: ClaimId, c: Claim) {
    LinesOk(cid, c.lines, c.serials) && TotalsOk(c) && AttestedOk(c) && MakerIsNotChecker(c)
  }

  /** Same lines, in the same order, with the same amounts; statuses may differ. */
  predicate SameAmounts(a: seq<Line>, b: seq<Line>) {
    |a| == |b| && forall i :: 0 <= i < |a| ==>
      a[i].id == b[i].id && a[i].lineNo == b[i].lineNo && a[i].base == b[i].base && a[i].total == b[i].total
  }

  lemma {:induction false} SameAmountsSameSum(a: seq<Line>, b: seq<Line>)
    requires SameAmounts(a, b)
    ensures SumBase(a) == SumBase(b)
  {
    if a != [] {
      SameAmountsSameSum(a[..|a| - 1], b[..|b| - 1]);
    }
  }

  lemma NextLineNoIsFree(lines: seq<Line>)
    ensures NextLineNo(lines) >= 1 && forall k :: 0 <= k < |lines| ==> lines[k].lineNo < NextLineNo(lines)
  {
    var number := (l: Line) => l.lineNo;
    NextAfterIsFree(lines, number);
    forall k | 0 <= k < |lines| ensures lines[k].lineNo < NextLineNo(lines) {
      assert number(lines[k]) < NextAfter(lines, number);
    }
  }

  /** A new line list and exact totals, in a status that has not left. */
  lemma Rebuilt(cid: ClaimId, c: Claim)
    requires LinesOk(cid, c.lines, c.serials) && !Left(c.status) && MakerIsNotChecker(c)
    ensures ClaimOk(cid, WithTotals(c))
  {
  }

  lemma AppendKeepsLines(cid: ClaimId, lines: seq<Line>, line: Line, serials: nat)
    requires LinesOk(cid, lines, serials)
    requires line.id == LineId(cid, serials) && line.lineNo == NextLineNo(lines)
    requires line.base.Some? ==> line.total.Some?
    ensures LinesOk(cid, lines + [line], serials + 1)
  {
    NextLineNoIsFree(lines);
    forall i | 0 <= i < |lines| ensures LineOk(cid, lines[i], serials + 1) && lines[i].id != line.id {
      assert LineOk(cid, lines[i], serials);
    }
  }

  lemma AddLineKeeps(cid: ClaimId, c: Claim, line: Line)
    requires ClaimOk(cid, c) && Open(c.status)
    requires line.id == LineId(cid, c.serials) && line.lineNo == NextLineNo(c.lines)
    requires line.base.Some? ==> line.total.Some?
    ensures ClaimOk(cid, AddLine(c, line)) && Open(AddLine(c, line).status)
  {
    AppendKeepsLines(cid, c.lines, line, c.serials);
    Rebuilt(cid, c.(lines := c.lines + [line], serials := c.serials + 1));
  }

  lemma MakeLineShape(id: LineId, lineNo: int, x: Captured)
    ensures
      var line := MakeLine(id, lineNo, x);
      line.id == id && line.lineNo == lineNo && (line.base.Some? ==> line.total.Some?)
  {
  }

  lemma AppendLineKeeps(cid: ClaimId, c: Claim, x: Captured)
    requires ClaimOk(cid, c) && Open(c.status)
    ensures ClaimOk(cid, AppendLine(cid, c, x)) && Open(AppendLine(cid, c, x).status)
  {
    MakeLineShape(LineId(cid, c.serials), NextLineNo(c.lines), x);
    AddLineKeeps(cid, c, MakeLine(LineId(cid, c.serials), NextLineNo(c.lines), x));
  }

  lemma EditLineShape(line: Line, x: Patch)
    requires line.base.Some? ==> line.total.Some?
    ensures
      var after := EditLine(line, x);
      after.id == line.id && after.lineNo == line.lineNo && (after.base.Some? ==> after.total.Some?)
  {
  }

  /** The same line, apart from its pages. */
  predicate SameButPages(a: Line, b: Line) {
    a == b.(image := a.image, pages := a.pages)
  }

  /** Where in `lines` the k-th line of a merge comes from. */
  function Origin(lines: seq<Line>, ids: set<LineId>, survived: bool, k: nat): nat {
    if lines == [] then 0
    else if lines[0].id in ids && survived then 1 + Origin(lines[1..], ids, true, k)
    else if k == 0 then 0
    else 1 + Origin(lines[1..], ids, survived || lines[0].id in ids, k - 1)
  }

  lemma {:induction false} MergedFromOrigin(lines: seq<Line>, ids: set<LineId>, composite: Page, pages: seq<Page>,
                                            survived: bool, k: nat)
    requires k < |MergedLines(lines, ids, composite, pages, survived)|
    ensures Origin(lines, ids, survived, k) < |lines|
    ensures SameButPages(MergedLines(lines, ids, composite, pages, survived)[k], lines[Origin(lines, ids, survived, k)])
    ensures k > 0 ==> Origin(lines, ids, survived, k - 1) < Origin(lines, ids, survived, k)
  {
    var tail := lines[1..];
    if lines[0].id in ids && survived {
      MergedFromOrigin(tail, ids, composite, pages, true, k);
    } else if k > 0 {
      MergedFromOrigin(tail, ids, composite, pages, survived || lines[0].id in ids, k - 1);
    }
  }

  lemma {:induction false} OriginIncreases(lines: seq<Line>, ids: set<LineId>, composite: Page, pages: seq<Page>,
                                           j: nat, k: nat)
    requires j < k < |MergedLines(lines, ids, composite, pages, false)|
    ensures Origin(lines, ids, false, j) < Origin(lines, ids, false, k) < |lines|
  {
    MergedFromOrigin(lines, ids, composite, pages, false, k);
    if j < k - 1 { OriginIncreases(lines, ids, composite, pages, j, k - 1); }
  }

  lemma {:induction false} MergeKeepsLines(cid: ClaimId, lines: seq<Line>, ids: set<LineId>, composite: Page,
                                           pages: seq<Page>, serials: nat)
    requires LinesOk(cid, lines, serials)
    ensures LinesOk(cid, Renumber(MergedLines(lines, ids, composite, pages, false)), serials)
  {
    var merged := MergedLines(lines, ids, composite, pages, false);
    var after := Renumber(merged);
    forall k | 0 <= k < |after| ensures LineOk(cid, after[k], serials) {
      MergedFromOrigin(lines, ids, composite, pages, false, k);
      assert LineOk(cid, lines[Origin(lines, ids, false, k)], serials);
    }
    forall j, k | 0 <= j < k < |after| ensures Before(after[j], after[k]) {
      MergedFromOrigin(lines, ids, composite, pages, false, j);
      MergedFromOrigin(lines, ids, composite, pages, false, k);
      OriginIncreases(lines, ids, composite, pages, j, k);
      assert Before(lines[Origin(lines, ids, false, j)], lines[Origin(lines, ids, false, k)]);
    }
  }

  lemma SplicedAt(lines: seq<Line>, i: nat, parts: seq<Line>, k: nat)
    requires i < |lines| && k < |Spliced(lines, i, parts)|
    ensures Spliced(lines, i, parts)[k] ==
            if k < i then lines[k] else if k < i + |parts| then parts[k - i] else lines[k - |parts| + 1]
  {
  }

  /** Where the k-th line after a split comes from: an old line, or a new one by its serial. */
  lemma SplitOrigin(cid: ClaimId, lines: seq<Line>, i: nat, serials: nat, k: nat)
    requires LinesOk(cid, lines, serials) && i < |lines| && LinePages(lines[i]) != []
    requires k < |Spliced(lines, i, SplitParts(lines[i], serials))|
    ensures
      var n := |LinePages(lines[i])|;
      var line := Spliced(lines, i, SplitParts(lines[i], serials))[k];
      && (line.base.Some? ==> line.total.Some?) && line.id.claim == cid
      && line.id == (if i < k < i + n then LineId(cid, serials + k - i - 1)
                     else lines[if k <= i then k else k - n + 1].id)
      && (i < k < i + n || line.id.serial < serials)
  {
    var parts := SplitParts(lines[i], serials);
    SplicedAt(lines, i, parts, k);
    assert LineOk(cid, lines[i], serials);
    assert LineOk(cid, lines[if k <= i then k else if k < i + |parts| then i else k - |parts| + 1], serials);
  }

  lemma SplitKeepsLines(cid: ClaimId, lines: seq<Line>, i: nat, serials: nat)
    requires LinesOk(cid, lines, serials) && i < |lines| && LinePages(lines[i]) != []
    ensures LinesOk(cid, Renumber(Spliced(lines, i, SplitParts(lines[i], serials))),
                    serials + |LinePages(lines[i])| - 1)
  {
    var n := |LinePages(lines[i])|;
    var all := Spliced(lines, i, SplitParts(lines[i], serials));
    var after := Renumber(all);
    forall k | 0 <= k < |after| ensures LineOk(cid, after[k], serials + n - 1) {
      SplitOrigin(cid, lines, i, serials, k);
    }
    forall j, k | 0 <= j < k < |after| ensures Before(after[j], after[k]) {
      SplitOrigin(cid, lines, i, serials, j);
      SplitOrigin(cid, lines, i, serials, k);
      assert Before(lines[if j <= i then j else if j < i + n then i else j - n + 1],
                    lines[if k <= i then k else if k < i + n then |lines| - 1 else k - n + 1])
        || (i < j < i + n) || (i < k < i + n);
    }
  }

  lemma RemoveKeepsLines(cid: ClaimId, lines: seq<Line>, i: nat, serials: nat)
    requires LinesOk(cid, lines, serials) && i < |lines|
    ensures LinesOk(cid, lines[..i] + lines[i + 1..], serials)
  {
    var left := lines[..i] + lines[i + 1..];
    forall j | 0 <= j < |left| ensures LineOk(cid, left[j], serials) {
      assert LineOk(cid, lines[if j < i then j else j + 1], serials);
    }
    forall j, k | 0 <= j < k < |left| ensures Before(left[j], left[k]) {
      assert Before(lines[if j < i then j else j + 1], lines[if k < i then k else k + 1]);
    }
  }

  lemma EditKeepsLines(cid: ClaimId, lines: seq<Line>, i: nat, line: Line, serials: nat)
    requires LinesOk(cid, lines, serials) && i < |lines|
    requires line.id == lines[i].id && line.lineNo == lines[i].lineNo && (line.base.Some? ==> line.total.Some?)
    ensures LinesOk(cid, lines[i := line], serials)
  {
    var after := lines[i := line];
    forall j | 0 <= j < |after| ensures LineOk(cid, after[j], serials) {
      assert LineOk(cid, lines[j], serials);
    }
    forall j, k | 0 <= j < k < |after| ensures Before(after[j], after[k]) {
      assert Before(lines[j], lines[k]);
    }
  }

  lemma {:induction false} SameAmountsKeep(cid: ClaimId, a: seq<Line>, b: seq<Line>, serials: nat)
    requires LinesOk(cid, a, serials) && SameAmounts(a, b)
    ensures LinesOk(cid, b, serials) && SumBase(a) == SumBase(b)
  {
    forall i | 0 <= i < |b| ensures LineOk(cid, b[i], serials) {
      assert LineOk(cid, a[i], serials);
    }
    forall j, k | 0 <= j < k < |b| ensures Before(b[j], b[k]) {
      assert Before(a[j], a[k]);
    }
    SameAmountsSameSum(a, b);
  }

  lemma SwitchKeeps(cid: ClaimId, c: Claim, id: LineId)
    requires ClaimOk(cid, c) && Open(c.status) && SwitchToVendorBill(c, id).Ok?
    ensures ClaimOk(cid, SwitchToVendorBill(c, id).value) && !Left(SwitchToVendorBill(c, id).value.status)
  {
    var i := IndexOf(c.lines, id).value;
    RemoveKeepsLines(cid, c.lines, i, c.serials);
    Rebuilt(cid, c.(lines := c.lines[..i] + c.lines[i + 1..]));
  }

  lemma EditKeeps(cid: ClaimId, c: Claim, target: Option<LineId>, patch: Patch)
    requires ClaimOk(cid, c) && !Left(c.status) && EditExpense(c, target, patch).Ok?
    ensures ClaimOk(cid, EditExpense(c, target, patch).value) && EditExpense(c, target, patch).value.status == c.status
  {
    var i := EditTarget(c.lines, target).value;
    assert LineOk(cid, c.lines[i], c.serials);
    EditLineShape(c.lines[i], patch);
    var line := EditLine(c.lines[i], patch);
    EditKeepsLines(cid, c.lines, i, line, c.serials);
    Rebuilt(cid, c.(lines := c.lines[i := line]));
  }

  lemma MergeKeeps(cid: ClaimId, c: Claim, ids: set<LineId>, composite: Page)
    requires ClaimOk(cid, c) && Open(c.status) && Merge(c, ids, composite).Ok?
    ensures ClaimOk(cid, Merge(c, ids, composite).value) && Open(Merge(c, ids, composite).value.status)
  {
    var pages := PagesOf(Selected(c.lines, ids));
    MergeKeepsLines(cid, c.lines, ids, composite, pages, c.serials);
    Rebuilt(cid, c.(lines := Renumber(MergedLines(c.lines, ids, composite, pages, false))));
  }

  lemma SplitClaimOk(cid: ClaimId, c: Claim, i: nat)
    requires LinesOk(cid, c.lines, c.serials) && i < |c.lines| && LinePages(c.lines[i]) != []
    ensures
      var after := SplitClaim(c, i);
      LinesOk(cid, after.lines, after.serials) && after == c.(lines := after.lines, serials := after.serials)
  {
    SplitKeepsLines(cid, c.lines, i, c.serials);
  }

  lemma SplitKeeps(cid: ClaimId, c: Claim, id: LineId)
    requires ClaimOk(cid, c) && Open(c.status) && Split(c, id).Ok?
    ensures ClaimOk(cid, Split(c, id).value) && Open(Split(c, id).value.status)
  {
    var i := IndexOf(c.lines, id).value;
    SplitClaimOk(cid, c, i);
    Rebuilt(cid, SplitClaim(c, i));
  }

  lemma ApproveKeeps(cid: ClaimId, c: Claim, p: Option<Principal>, rules: seq<Rule>)
    requires ClaimOk(cid, c) && ApproveAll(c, p, rules).Ok?
    ensures ClaimOk(cid, ApproveAll(c, p, rules).value) && !Left(ApproveAll(c, p, rules).value.status)
  {
    var lines := SetStatus(c.lines, LineApproved);
    SameAmountsKeep(cid, c.lines, lines, c.serials);
    Rebuilt(cid,
            c.(lines := lines, status := Approved, approvedBy := if p.Some? then Some(p.value.user) else c.approvedBy));
  }

  lemma RollUpStays(lines: seq<Line>)
    ensures !Left(RollUp(lines))
  {
  }

  lemma DecideKeeps(cid: ClaimId, c: Claim, reviewer: Principal, decisions: map<LineId, Decision>,
                    remark: Option<string>, rules: seq<Rule>)
    requires ClaimOk(cid, c) && DecideEach(c, reviewer, decisions, remark, rules).Ok?
    ensures ClaimOk(cid, DecideEach(c, reviewer, decisions, remark, rules).value)
    ensures !Left(DecideEach(c, reviewer, decisions, remark, rules).value.status)
  {
    var lines := DecideLines(c.lines, decisions);
    var status := RollUp(lines);
    RollUpStays(lines);
    SameAmountsKeep(cid, c.lines, lines, c.serials);
    Rebuilt(cid, c.(lines := lines, status := status, note := remark,
                    approvedBy :=
                      if status.Approved? || status.PartiallyApproved? then Some(reviewer.user) else c.approvedBy));
  }

  lemma TurnKeeps(cid: ClaimId, c: Claim, reviewer: Principal, rules: seq<Rule>, line: LineStatus, status: ClaimStatus)
    requires ClaimOk(cid, c) && Turn(c, reviewer, rules, line, status).Ok? && !Decided(status)
    ensures ClaimOk(cid, Turn(c, reviewer, rules, line, status).value)
  {
    SameAmountsKeep(cid, c.lines, SetStatus(c.lines, line), c.serials);
  }

  lemma ReopenKeeps(cid: ClaimId, c: Claim, reviewer: Principal)
    requires ClaimOk(cid, c) && Reopen(c, reviewer).Ok?
    ensures ClaimOk(cid, Reopen(c, reviewer).value)
  {
    SameAmountsKeep(cid, c.lines, ClearDecisions(c.lines), c.serials);
    Rebuilt(cid, c.(lines := ClearDecisions(c.lines), status := InReview, approvedBy := None, note := None));
  }

  /** What one operation may do to a claim. */
  predicate Kept(cid: ClaimId, c: Claim, after: Claim) {
    && ClaimOk(cid, after) && after.client == c.client
    && (Left(after.status) <==> Left(c.status))
    && (Left(c.status) ==> after == c.(status := Paid))
  }

  /** Header fields the invariant does not depend on, moved without leaving. */
  lemma HeaderKeeps(cid: ClaimId, c: Claim, after: Claim)
    requires ClaimOk(cid, c) && !Decided(c.status) && !Decided(after.status)
    requires after == c.(status := after.status, department := after.department, attestedBy := after.attestedBy)
    ensures Kept(cid, c, after)
  {
  }

  lemma AttestKeeps(cid: ClaimId, c: Claim, actor: string)
    requires ClaimOk(cid, c) && !Left(c.status)
    ensures Kept(cid, c, c.(attestedBy := Some(actor)))
  {
  }

  lemma PaidKeeps(cid: ClaimId, c: Claim)
    requires ClaimOk(cid, c) && Left(c.status)
    ensures Kept(cid, c, c.(status := Paid))
  {
  }

  lemma MileageKeeps(cid: ClaimId, c: Claim, change: Change)
    requires ClaimOk(cid, c) && Apply(cid, c, change).Ok? && change.AddMileage?
    ensures Kept(cid, c, Apply(cid, c, change).value)
  {
    AppendLineKeeps(cid, c, change.trip);
    AttestKeeps(cid, AppendLine(cid, c, change.trip), change.actor);
  }

  lemma IntakeKeeps(cid: ClaimId, c: Claim, change: Change)
    requires ClaimOk(cid, c) && Apply(cid, c, change).Ok? && change.AttachIntake?
    ensures Kept(cid, c, Apply(cid, c, change).value)
  {
    AppendLineKeeps(cid, c, change.page);
  }

  lemma OldLineKeeps(cid: ClaimId, c: Claim, change: Change)
    requires ClaimOk(cid, c) && Apply(cid, c, change).Ok? && (change.SwitchToBill? || change.Edit?)
    ensures Kept(cid, c, Apply(cid, c, change).value)
  {
    match change
    case SwitchToBill(_, id) => SwitchKeeps(cid, c, id);
    case Edit(_, target, patch) => EditKeeps(cid, c, target, patch);
  }

  lemma MergeChangeKeeps(cid: ClaimId, c: Claim, change: Change)
    requires ClaimOk(cid, c) && Apply(cid, c, change).Ok? && change.MergeLines?
    ensures Kept(cid, c, Apply(cid, c, change).value)
  {
    MergeKeeps(cid, c, change.ids, change.composite);
  }

  lemma SplitChangeKeeps(cid: ClaimId, c: Claim, change: Change)
    requires ClaimOk(cid, c) && Apply(cid, c, change).Ok? && change.SplitLine?
    ensures Kept(cid, c, Apply(cid, c, change).value)
  {
    SplitKeeps(cid, c, change.line);
  }

  lemma ApprovalKeeps(cid: ClaimId, c: Claim, change: Change)
    requires ClaimOk(cid, c) && Apply(cid, c, change).Ok? && (change.Approve? || change.Decide?)
    ensures Kept(cid, c, Apply(cid, c, change).value)
  {
    match change
    case Approve(p, rules) => ApproveKeeps(cid, c, p, rules);
    case Decide(reviewer, decisions, remark, rules) => DecideKeeps(cid, c, reviewer, decisions, remark, rules);
  }

  lemma ReturnKeeps(cid: ClaimId, c: Claim, change: Change)
    requires ClaimOk(cid, c) && Apply(cid, c, change).Ok? && (change.SendBack? || change.Reject?)
    ensures Kept(cid, c, Apply(cid, c, change).value)
  {
    if change.SendBack? {
      TurnKeeps(cid, c, change.reviewer, change.rules, Pending, Submitted);
    } else {
      TurnKeeps(cid, c, change.reviewer, change.rules, LineRejected, Rejected);
    }
  }

  lemma UnapproveKeeps(cid: ClaimId, c: Claim, change: Change)
    requires ClaimOk(cid, c) && Apply(cid, c, change).Ok? && change.Unapprove?
    ensures Kept(cid, c, Apply(cid, c, change).value)
  {
    ReopenKeeps(cid, c, change.reviewer);
  }

  lemma HeaderChangeKeeps(cid: ClaimId, c: Claim, change: Change)
    requires ClaimOk(cid, c) && Apply(cid, c, change).Ok?
    requires change.ConfirmContent? || change.EditHeader? || change.MarkPaid? || change.Resubmit? || change.Attest?
    ensures Kept(cid, c, Apply(cid, c, change).value)
  {
    match change
    case ConfirmContent(_) => HeaderKeeps(cid, c, c.(status := InReview));
    case EditHeader(_, department) => HeaderKeeps(cid, c, c.(department := Updated(department, c.department)));
    case MarkPaid(_) => PaidKeeps(cid, c);
    case Resubmit(_) => HeaderKeeps(cid, c, c.(status := InReview));
    case Attest(_, actor) => AttestKeeps(cid, c, actor);
  }

  /** Every operation keeps the claim in order (numbers and identifiers unique, totals
      exact, maker and checker distinct, nothing gone unattested), none of them takes a
      claim out, and a claim that has left is frozen but for being paid. */
  lemma ChangeKeeps(cid: ClaimId, c: Claim, change: Change, after: Claim)
    requires ClaimOk(cid, c) && Apply(cid, c, change) == Ok(after)
    ensures Kept(cid, c, after)
  {
    if change.AddMileage? {
      MileageKeeps(cid, c, change);
    } else if change.AttachIntake? {
      IntakeKeeps(cid, c, change);
    } else if change.SwitchToBill? || change.Edit? {
      OldLineKeeps(cid, c, change);
    } else if change.MergeLines? {
      MergeChangeKeeps(cid, c, change);
    } else if change.SplitLine? {
      SplitChangeKeeps(cid, c, change);
    } else if change.Approve? || change.Decide? {
      ApprovalKeeps(cid, c, change);
    } else if change.SendBack? || change.Reject? {
      ReturnKeeps(cid, c, change);
    } else if change.Unapprove? {
      UnapproveKeeps(cid, c, change);
    } else {
      HeaderChangeKeeps(cid, c, change);
    }
  }
}
