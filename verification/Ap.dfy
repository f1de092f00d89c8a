/** Vendor bills: the accounts-payable lifecycle with its duplicate hold, its separation of
    duties and its two settlement steps (src/eclaim/services/ap.py, src/eclaim/services/erp.py).

    An invoice is named by its position in the table, which is also its creation order. */
module Ap {
  import opened Prelude
  import opened ApprovalMatrix

  datatype Status = Captured | Coded | PendingApproval | Approved | Posted | Paid | Held | Rejected

  datatype Error = NotFound | Illegal | Invalid | Forbidden | Conflict

  datatype InvoiceLine = InvoiceLine(lineNo: int, category: Option<nat>, relevant: Option<bool>)

  datatype Invoice = Invoice(
    client: nat, vendor: nat, docNo: Option<string>, total: Option<real>, idem: string,
    status: Status, holdOf: Option<nat>,
    createdBy: Option<nat>, codedBy: Option<nat>, submittedBy: Option<nat>, approvedBy: Option<nat>,
    erpKey: Option<string>, lines: seq<InvoiceLine>)

  /** The table, and the invoices with a hold-released event in their trail. */
  datatype Book = Book(invoices: seq<Invoice>, released: set<nat>)

  datatype Op =
    | Create(client: nat, vendor: nat, docNo: Option<string>, total: Option<real>, idem: string,
             filer: Option<nat>, categories: seq<Option<nat>>)
    | CodeLine(i: nat, line: nat, editor: Principal, category: Option<nat>, relevant: Option<bool>)
    | EditHeader(i: nat, editor: Principal, newDocNo: Option<string>, newTotal: Option<real>, renamesVendor: bool)
    | AddLine(i: nat, editor: Principal, category: Option<nat>)
    | RemoveLine(i: nat, line: nat, editor: Principal)
    | Submit(i: nat, submitter: Option<nat>)
    | Approve(i: nat, approver: Principal, rules: seq<Rule>)
    | ReleaseHold(i: nat)
    | MarkPaid(i: nat, payer: Option<nat>)
    | Unapprove(i: nat, editor: Principal)
    | SwitchToExpense(i: nat, editor: Principal)
    | Reject(i: nat)
    | MarkPosted(i: nat, ok: bool, key: Option<string>)

  // -- gates -----------------------------------------------------------------------

  predicate MayWrite(p: Principal, v: Invoice) {
    p.role != Viewer && p.CanAccess(v.client)
  }

  /** Still open to coding and correction. */
  predicate Open(v: Invoice) {
    v.status.Captured? || v.status.Coded? || v.status.Held?
  }

  predicate Settled(v: Invoice) {
    v.status.Approved? || v.status.Posted? || v.status.Paid?
  }

  /** The same vendor and document number, and the same amount when one is given. */
  predicate Matches(v: Invoice, client: nat, vendor: nat, docNo: Option<string>, total: Option<real>) {
    && v.client == client && v.vendor == vendor && v.docNo == docNo && !v.status.Rejected?
    && (total.Some? ==> v.total == total)
  }

  predicate HasNumber(docNo: Option<string>) {
    docNo.Some? && docNo.value != ""
  }

  /** `find_duplicate`: the earliest live match other than `exclude`. */
  function FindDuplicate(invoices: seq<Invoice>, client: nat, vendor: nat, docNo: Option<string>, total: Option<real>,
                         exclude: Option<nat>): (r: Option<nat>)
    ensures r.Some? ==>
      && HasNumber(docNo) && r.value < |invoices| && Some(r.value) != exclude
      && Matches(invoices[r.value], client, vendor, docNo, total)
      && forall k :: 0 <= k < r.value && Some(k) != exclude ==> !Matches(invoices[k], client, vendor, docNo, total)
    ensures r.None? && HasNumber(docNo) ==>
      forall k :: 0 <= k < |invoices| && Some(k) != exclude ==> !Matches(invoices[k], client, vendor, docNo, total)
  {
    if !HasNumber(docNo) || invoices == [] then None
    else
      var before := FindDuplicate(invoices[..|invoices| - 1], client, vendor, docNo, total, exclude);
      if before.Some? then before
      else
        var last := |invoices| - 1;
        if Some(last) != exclude && Matches(invoices[last], client, vendor, docNo, total) then Some(last) else None
  }

  predicate Categorised(v: Invoice) {
    forall k :: 0 <= k < |v.lines| ==> v.lines[k].category.Some?
  }

  function SubjectOf(v: Invoice): Subject {
    Subject(Payables, None, set l | l in v.lines && l.category.Some? :: l.category.value,
            if v.total.Some? then v.total.value else 0.0)
  }

  predicate MayApprove(v: Invoice, p: Principal, rules: seq<Rule>) {
    && v.codedBy.Some? && v.codedBy != Some(p.user) && v.createdBy != Some(p.user) && v.submittedBy != Some(p.user)
    && WithinAuthority(p, v.client, v.total, Resolve(rules, SubjectOf(v)))
  }

  // -- operations ------------------------------------------------------------------------

  function NextLineNo(lines: seq<InvoiceLine>): int {
    NextAfter(lines, (l: InvoiceLine) => l.lineNo)
  }

  function NumberLines(categories: seq<Option<nat>>): (r: seq<InvoiceLine>)
    ensures |r| == |categories| && forall k :: 0 <= k < |r| ==> r[k] == InvoiceLine(k + 1, categories[k], None)
  {
    seq(|categories|, k requires 0 <= k < |categories| => InvoiceLine(k + 1, categories[k], None))
  }

  function NewInvoice(invoices: seq<Invoice>, op: Op): Invoice
    requires op.Create?
  {
    var dup := FindDuplicate(invoices, op.client, op.vendor, op.docNo, op.total, None);
    Invoice(op.client, op.vendor, op.docNo, op.total, op.idem, if dup.Some? then Held else Captured, dup,
            op.filer, None, None, None, None, NumberLines(op.categories))
  }

  predicate OtherBills(invoices: seq<Invoice>, i: nat) {
    exists k :: 0 <= k < |invoices| && k != i && i < |invoices| && invoices[k].vendor == invoices[i].vendor
  }

  function Corrected(invoices: seq<Invoice>, i: nat, newDocNo: Option<string>, newTotal: Option<real>): Invoice
    requires i < |invoices|
  {
    var v := invoices[i];
    var w := v.(docNo := if newDocNo.Some? then newDocNo else v.docNo,
                total := if newTotal.Some? then newTotal else v.total);
    if (w.docNo == v.docNo && w.total == v.total) || w.status.Held? then w
    else
      var dup := FindDuplicate(invoices, w.client, w.vendor, w.docNo, w.total, Some(i));
      if dup.Some? then w.(status := Held, holdOf := dup) else w
  }

  /** The operations on one invoice. */
  function Apply(book: Book, v: Invoice, op: Op): Result<Invoice, Error>
    requires !op.Create? && op.i < |book.invoices| && v == book.invoices[op.i]
  {
    match op
    case CodeLine(i, line, coder, category, relevant) =>
      if line >= |v.lines| then Err(NotFound)
      else if !MayWrite(coder, v) then Err(Forbidden)
      else if !Open(v) then Err(Illegal)
      else
        var l := v.lines[line];
        Ok(v.(lines := v.lines[line := if category.Some? then l.(category := category, relevant := relevant) else l],
              codedBy := Some(coder.user), status := if v.status.Captured? then Coded else v.status))
    case EditHeader(i, editor, newDocNo, newTotal, renamesVendor) =>
      if !MayWrite(editor, v) then Err(Forbidden)
      else if !Open(v) then Err(Illegal)
      else if renamesVendor && OtherBills(book.invoices, i) then Err(Invalid)
      else Ok(Corrected(book.invoices, i, newDocNo, newTotal))
    case AddLine(i, editor, category) =>
      if !MayWrite(editor, v) then Err(Forbidden)
      else if !Open(v) then Err(Illegal)
      else Ok(v.(lines := v.lines + [InvoiceLine(NextLineNo(v.lines), category, None)]))
    case RemoveLine(i, line, editor) =>
      if line >= |v.lines| then Err(NotFound)
      else if !MayWrite(editor, v) then Err(Forbidden)
      else if !Open(v) then Err(Illegal)
      else if |v.lines| <= 1 then Err(Invalid)
      else Ok(v.(lines := v.lines[..line] + v.lines[line + 1..]))
    case Submit(i, submitter) =>
      if !v.status.Coded? || !Categorised(v) then Err(Illegal)
      else Ok(v.(status := PendingApproval, submittedBy := if submitter.Some? then submitter else v.submittedBy))
    case Approve(i, approver, rules) =>
      if (!v.status.PendingApproval? && !v.status.Coded?) || !Categorised(v) then Err(Illegal)
      else if !MayApprove(v, approver, rules) then Err(Forbidden)
      else Ok(v.(status := Approved, approvedBy := Some(approver.user)))
    case ReleaseHold(i) =>
      if !v.status.Held? then Err(Illegal)
      else Ok(v.(status := if v.codedBy.Some? then Coded else Captured, holdOf := None))
    case MarkPaid(i, payer) =>
      if payer.Some? && v.createdBy == payer then Err(Forbidden)
      else if !v.status.Approved? && !v.status.Posted? then Err(Illegal)
      else Ok(v.(status := Paid))
    case Unapprove(i, editor) =>
      if !MayWrite(editor, v) then Err(Forbidden)
      else if !v.status.Approved? then Err(Illegal)
      else Ok(v.(status := Coded, approvedBy := None))
    case SwitchToExpense(i, editor) =>
      if !MayWrite(editor, v) then Err(Forbidden)
      else if !Open(v) then Err(Illegal)
      else Ok(v.(status := Rejected))
    case Reject(i) =>
      if v.status.Posted? || v.status.Paid? then Err(Illegal) else Ok(v.(status := Rejected))
    case MarkPosted(i, ok, key) =>
      if !ok then Ok(v)
      else if !v.status.Approved? && !v.status.Paid? then Err(Illegal)
      else if v.erpKey.Some? then Err(Conflict)
      else Ok(v.(erpKey := key, status := if v.status.Approved? then Posted else v.status))
  }

  function Step(book: Book, op: Op): (Book, Option<Error>) {
    if op.Create? then
      if exists v :: v in book.invoices && v.client == op.client && v.idem == op.idem then (book, Some(Conflict))
      else (book.(invoices := book.invoices + [NewInvoice(book.invoices, op)]), None)
    else if op.i >= |book.invoices| then (book, Some(NotFound))
    else
      var r := Apply(book, book.invoices[op.i], op);
      if r.Err? then (book, Some(r.error))
      else
        var released := if op.ReleaseHold? then book.released + {op.i} else book.released;
        (Book(book.invoices[op.i := r.value], released), None)
  }

  function Run(book: Book, ops: seq<Op>): Book
    decreases |ops|
  {
    if ops == [] then book else Run(Step(book, ops[0]).0, ops[1..])
  }

  const EMPTY := Book([], {})

  // -- what every invoice keeps ---------------------------------------------------------

  predicate LinesOk(lines: seq<InvoiceLine>) {
    && (forall k :: 0 <= k < |lines| ==> lines[k].lineNo >= 1)
    && (forall j, k :: 0 <= j < k < |lines| ==> lines[j].lineNo < lines[k].lineNo)
  }

  /** The filer, the coder and the submitter on record did not approve the bill; the record names
      the last to code and the last to submit (ApDuties says who that lets through). A bill
      past coding has a coder and a line to code, a settled one a category on every line, and
      only posted or paid ones an ERP key. */
  predicate InvoiceOk(v: Invoice) {
    && LinesOk(v.lines)
    && (v.codedBy.Some? ==> v.lines != [])
    && (v.status.Coded? || v.status.PendingApproval? || Settled(v) ==> v.codedBy.Some?)
    && (Settled(v) ==>
         && Categorised(v) && v.approvedBy.Some?
         && v.approvedBy != v.createdBy && v.approvedBy != v.codedBy && v.approvedBy != v.submittedBy)
    && (v.erpKey.Some? ==> v.status.Posted? || v.status.Paid?)
  }

  predicate Inv(book: Book) {
    forall k :: 0 <= k < |book.invoices| ==> InvoiceOk(book.invoices[k])
  }

  lemma NextLineNoIsFree(lines: seq<InvoiceLine>)
    ensures NextLineNo(lines) >= 1 && forall k :: 0 <= k < |lines| ==> lines[k].lineNo < NextLineNo(lines)
  {
    var number := (l: InvoiceLine) => l.lineNo;
    NextAfterIsFree(lines, number);
    forall k | 0 <= k < |lines| ensures lines[k].lineNo < NextLineNo(lines) {
      assert number(lines[k]) < NextAfter(lines, number);
    }
  }

  lemma LinesKeepInvoice(v: Invoice, lines: seq<InvoiceLine>, coder: Option<nat>, status: Status)
    requires InvoiceOk(v) && Open(v) && LinesOk(lines) && lines != []
    requires coder == v.codedBy || coder.Some?
    requires status == v.status || (status == Coded && coder.Some?)
    ensures InvoiceOk(v.(lines := lines, codedBy := coder, status := status))
  {
  }

  lemma RecodedOk(lines: seq<InvoiceLine>, k: nat, l: InvoiceLine)
    requires LinesOk(lines) && k < |lines| && l.lineNo == lines[k].lineNo
    ensures LinesOk(lines[k := l])
  {
  }

  lemma AddedOk(lines: seq<InvoiceLine>, category: Option<nat>)
    requires LinesOk(lines)
    ensures LinesOk(lines + [InvoiceLine(NextLineNo(lines), category, None)])
  {
    NextLineNoIsFree(lines);
  }

  lemma RemovedOk(lines: seq<InvoiceLine>, k: nat)
    requires LinesOk(lines) && k < |lines|
    ensures LinesOk(lines[..k] + lines[k + 1..])
  {
    var left := lines[..k] + lines[k + 1..];
    forall j | 0 <= j < |left| ensures left[j] == lines[if j < k then j else j + 1] {}
  }

  lemma LineChangeKeepsInvoice(book: Book, v: Invoice, op: Op)
    requires op.CodeLine? || op.AddLine? || op.RemoveLine?
    requires op.i < |book.invoices| && v == book.invoices[op.i] && InvoiceOk(v) && Apply(book, v, op).Ok?
    ensures InvoiceOk(Apply(book, v, op).value) && Apply(book, v, op).value.erpKey == v.erpKey
  {
    match op
    case CodeLine(_, line, coder, category, relevant) =>
      var l := v.lines[line];
      var coded := if category.Some? then l.(category := category, relevant := relevant) else l;
      RecodedOk(v.lines, line, coded);
      LinesKeepInvoice(v, v.lines[line := coded], Some(coder.user), if v.status.Captured? then Coded else v.status);
    case AddLine(_, _, category) =>
      AddedOk(v.lines, category);
      LinesKeepInvoice(v, v.lines + [InvoiceLine(NextLineNo(v.lines), category, None)], v.codedBy, v.status);
    case RemoveLine(_, line, _) =>
      RemovedOk(v.lines, line);
      LinesKeepInvoice(v, v.lines[..line] + v.lines[line + 1..], v.codedBy, v.status);
  }

  lemma CorrectedOk(invoices: seq<Invoice>, i: nat, newDocNo: Option<string>, newTotal: Option<real>)
    requires i < |invoices| && InvoiceOk(invoices[i]) && Open(invoices[i])
    ensures
      var after := Corrected(invoices, i, newDocNo, newTotal);
      && InvoiceOk(after) && after.erpKey == invoices[i].erpKey
      && (after.status == invoices[i].status || after.status == Held)
      && after.lines == invoices[i].lines
  {
  }

  lemma StatusChangeKeepsInvoice(book: Book, v: Invoice, op: Op)
    requires !op.Create? && !op.CodeLine? && !op.AddLine? && !op.RemoveLine? && !op.EditHeader?
    requires op.i < |book.invoices| && v == book.invoices[op.i] && InvoiceOk(v) && Apply(book, v, op).Ok?
    ensures InvoiceOk(Apply(book, v, op).value)
    ensures v.erpKey.Some? ==> Apply(book, v, op).value.erpKey == v.erpKey
  {
  }

  lemma ApplyKeepsInvoice(book: Book, v: Invoice, op: Op)
    requires !op.Create? && op.i < |book.invoices| && v == book.invoices[op.i] && InvoiceOk(v)
    requires Apply(book, v, op).Ok?
    ensures InvoiceOk(Apply(book, v, op).value)
    ensures v.erpKey.Some? ==> Apply(book, v, op).value.erpKey == v.erpKey
  {
    if op.CodeLine? || op.AddLine? || op.RemoveLine? {
      LineChangeKeepsInvoice(book, v, op);
    } else if op.EditHeader? {
      CorrectedOk(book.invoices, op.i, op.newDocNo, op.newTotal);
    } else {
      StatusChangeKeepsInvoice(book, v, op);
    }
  }

  lemma StepKeepsInv(book: Book, op: Op)
    requires Inv(book)
    ensures Inv(Step(book, op).0)
  {
    if !op.Create? && op.i < |book.invoices| && Apply(book, book.invoices[op.i], op).Ok? {
      ApplyKeepsInvoice(book, book.invoices[op.i], op);
    }
  }

  /** In every reachable state every bill is in order. */
  lemma {:induction false} RunKeepsInv(book: Book, ops: seq<Op>)
    requires Inv(book)
    ensures Inv(Run(book, ops))
    decreases |ops|
  {
    if ops != [] {
      StepKeepsInv(book, ops[0]);
      RunKeepsInv(Step(book, ops[0]).0, ops[1..]);
    }
  }

  /** An ERP key, once set, is there for good and never another one. */
  lemma {:induction false} KeyIsForGood(book: Book, i: nat, ops: seq<Op>)
    requires Inv(book) && i < |book.invoices| && book.invoices[i].erpKey.Some?
    ensures i < |Run(book, ops).invoices| && Run(book, ops).invoices[i].erpKey == book.invoices[i].erpKey
    decreases |ops|
  {
    if ops != [] {
      var op := ops[0];
      StepKeepsInv(book, op);
      if op.Create? {
        assert Step(book, op).0.invoices[i] == book.invoices[i];
      } else if op.i < |book.invoices| && Apply(book, book.invoices[op.i], op).Ok? {
        ApplyKeepsInvoice(book, book.invoices[op.i], op);
      }
      KeyIsForGood(Step(book, op).0, i, ops[1..]);
    }
  }

  // -- approval ---------------------------------------------------------------------------

  /** `approve` succeeds exactly on a coded or submitted bill with a category on every line,
      for somebody who neither filed, coded nor submitted it, within their own limit and
      what the payables matrix demands for the bill's total. */
  lemma ApproveIsSound(book: Book, i: nat, p: Principal, rules: seq<Rule>)
    requires i < |book.invoices|
    ensures
      var v := book.invoices[i];
      Apply(book, v, Approve(i, p, rules)).Ok? <==>
        && (v.status.PendingApproval? || v.status.Coded?) && (forall l :: l in v.lines ==> l.category.Some?)
        && v.codedBy.Some? && Some(p.user) !in {v.createdBy, v.codedBy, v.submittedBy}
        && p.role != Viewer && v.client in p.clients
        && (v.total.Some? && p.limit.Some? ==> v.total.value <= p.limit.value)
        && MatrixAllows(rules, SubjectOf(v), p)
  {
    var v := book.invoices[i];
    GateIsExact(rules, SubjectOf(v), p, v.client, v.total);
    if Categorised(v) {
      forall l | l in v.lines ensures l.category.Some? {
        var k :| 0 <= k < |v.lines| && v.lines[k] == l;
      }
    } else {
      var k :| 0 <= k < |v.lines| && v.lines[k].category.None?;
      assert v.lines[k] in v.lines;
    }
  }

  /** The record names who filed a bill and who last coded and submitted it; nothing else changes
      it, and correcting the header or adding and removing lines goes unrecorded. */
  lemma PreparersAreRecorded(book: Book, v: Invoice, op: Op)
    requires !op.Create? && op.i < |book.invoices| && v == book.invoices[op.i] && Apply(book, v, op).Ok?
    ensures
      var w := Apply(book, v, op).value;
      && w.createdBy == v.createdBy
      && w.codedBy == (if op.CodeLine? then Some(op.editor.user) else v.codedBy)
      && w.submittedBy == (if op.Submit? && op.submitter.Some? then op.submitter else v.submittedBy)
      && (w.approvedBy != v.approvedBy ==> op.Unapprove? || (op.Approve? && w.approvedBy == Some(op.approver.user)))
  {
  }

  // -- exporting and posting ------------------------------------------------------------------

  /** `exportable_invoices`: what the accountant still has to post. */
  predicate Exportable(v: Invoice) {
    (v.status.Approved? || v.status.Paid?) && v.erpKey.None?
  }

  /** No settled bill has fallen out of the pipeline. */
  predicate Accounted(v: Invoice) {
    Settled(v) ==> Exportable(v) || v.erpKey.Some?
  }

  predicate AllAccounted(book: Book) {
    forall k :: 0 <= k < |book.invoices| ==> Accounted(book.invoices[k])
  }

  /** A connector that reports success without a document key, for an approved bill. */
  predicate Strands(book: Book, op: Op) {
    op.MarkPosted? && op.ok && op.key.None? && op.i < |book.invoices| && book.invoices[op.i].status.Approved?
  }

  lemma ApplyAccounted(book: Book, v: Invoice, op: Op)
    requires !op.Create? && op.i < |book.invoices| && v == book.invoices[op.i] && InvoiceOk(v) && Accounted(v)
    requires Apply(book, v, op).Ok?
    ensures Accounted(Apply(book, v, op).value) <==> !Strands(book, op)
  {
    if op.EditHeader? { CorrectedOk(book.invoices, op.i, op.newDocNo, op.newTotal); }
  }

  /** Every approved, posted or paid bill is exportable or carries its ERP key, up to the
      first post that succeeds without one: exactly that step strands a bill. */
  lemma AccountedUnlessKeyless(book: Book, op: Op)
    requires Inv(book) && AllAccounted(book)
    ensures AllAccounted(Step(book, op).0) <==> !Strands(book, op)
  {
    var after := Step(book, op).0;
    if op.Create? {
      forall k | 0 <= k < |after.invoices| ensures Accounted(after.invoices[k]) {
        if k < |book.invoices| { assert Accounted(book.invoices[k]); }
      }
    } else if op.i < |book.invoices| {
      var v := book.invoices[op.i];
      assert InvoiceOk(v) && Accounted(v);
      if Apply(book, v, op).Ok? {
        ApplyAccounted(book, v, op);
        assert after.invoices[op.i] == Apply(book, v, op).value;
        forall k | 0 <= k < |after.invoices| && k != op.i ensures Accounted(after.invoices[k]) {
          assert after.invoices[k] == book.invoices[k];
        }
      }
    }
  }

  lemma {:induction false} RunAccounted(book: Book, ops: seq<Op>)
    requires Inv(book) && AllAccounted(book)
    requires forall op :: op in ops && op.MarkPosted? && op.ok ==> op.key.Some?
    ensures AllAccounted(Run(book, ops))
    decreases |ops|
  {
    if ops != [] {
      assert ops[0] in ops;
      AccountedUnlessKeyless(book, ops[0]);
      StepKeepsInv(book, ops[0]);
      RunAccounted(Step(book, ops[0]).0, ops[1..]);
    }
  }

  const CODER := Principal(2, Approver, {1}, None)
  const APPROVER := Principal(3, Approver, {1}, None)

  /** One bill of one coded line, filed by user 1. */
  function Bill(status: Status, codedBy: Option<nat>, approvedBy: Option<nat>): Invoice {
    Invoice(1, 1, Some("A1"), Some(10.0), "upload", status, None, Some(1), codedBy, None, approvedBy, None,
            [InvoiceLine(1, Some(7), None)])
  }

  function OneBill(v: Invoice): Book { Book([v], {}) }

  const FILE := Create(1, 1, Some("A1"), Some(10.0), "upload", Some(1), [Some(7)])
  const CODE := CodeLine(0, 0, CODER, Some(7), None)
  const APPROVE := Approve(0, APPROVER, [])
  const POST := MarkPosted(0, true, None)

  lemma FilesAndCodes()
    ensures Step(EMPTY, FILE).0 == OneBill(Bill(Captured, None, None))
    ensures Step(OneBill(Bill(Captured, None, None)), CODE).0 == OneBill(Bill(Coded, Some(2), None))
  {
    assert NumberLines([Some(7)]) == [InvoiceLine(1, Some(7), None)];
    var captured, coded := Bill(Captured, None, None), Bill(Coded, Some(2), None);
    assert captured.lines[0 := InvoiceLine(1, Some(7), None)] == captured.lines;
    assert [captured][0 := coded] == [coded];
  }

  lemma ApprovesAndPosts()
    ensures Step(OneBill(Bill(Coded, Some(2), None)), APPROVE).0 == OneBill(Bill(Approved, Some(2), Some(3)))
    ensures Step(OneBill(Bill(Approved, Some(2), Some(3))), POST).0 == OneBill(Bill(Posted, Some(2), Some(3)))
  {
    var coded, approved, posted :=
      Bill(Coded, Some(2), None), Bill(Approved, Some(2), Some(3)), Bill(Posted, Some(2), Some(3));
    GateIsExact([], SubjectOf(coded), APPROVER, 1, coded.total);
    assert MayApprove(coded, APPROVER, []);
    assert [coded][0 := approved] == [approved] && [approved][0 := posted] == [posted];
  }

  /** The lost bill is reachable: filed, coded and approved by three people, then posted without
      a key. Only recording its payment brings it back among the exportable. */
  lemma StrandingIsReachable()
    ensures
      var book := Run(EMPTY, [FILE, CODE, APPROVE, POST]);
      && book == OneBill(Bill(Posted, Some(2), Some(3))) && !Accounted(book.invoices[0])
      && Exportable(Step(book, MarkPaid(0, None)).0.invoices[0])
  {
    FilesAndCodes();
    ApprovesAndPosts();
    var ops := [FILE, CODE, APPROVE, POST];
    assert ops[1..] == [CODE, APPROVE, POST] && ops[1..][1..] == [APPROVE, POST] && ops[1..][1..][1..] == [POST];
    assert [POST][1..] == [];
    var posted := OneBill(Bill(Posted, Some(2), Some(3)));
    assert Run(posted, []) == posted;
    assert Run(OneBill(Bill(Approved, Some(2), Some(3))), [POST]) == posted;
    assert Run(OneBill(Bill(Coded, Some(2), None)), [APPROVE, POST]) == posted;
    assert Run(OneBill(Bill(Captured, None, None)), [CODE, APPROVE, POST]) == posted;
  }

  // -- the duplicate control -------------------------------------------------------------------

  /** Payable without anybody having looked: live, not on hold, and never let off one. */
  predicate Unquestioned(book: Book, k: nat)
    requires k < |book.invoices|
  {
    var v := book.invoices[k];
    !v.status.Rejected? && !v.status.Held? && k !in book.released
  }

  /** The same bill of the same vendor. */
  predicate SameBill(v: Invoice, w: Invoice) {
    && v.client == w.client && v.vendor == w.vendor && HasNumber(v.docNo) && v.docNo == w.docNo
    && v.total.Some? && v.total == w.total
  }

  /** No bill stands to be paid twice unless somebody released a hold on it. */
  predicate NoDoublePay(book: Book) {
    forall j, k :: 0 <= j < |book.invoices| && 0 <= k < |book.invoices| && j != k ==>
      !(Unquestioned(book, j) && Unquestioned(book, k) && SameBill(book.invoices[j], book.invoices[k]))
  }

  lemma IdentityKept(book: Book, v: Invoice, op: Op)
    requires !op.Create? && !op.EditHeader? && op.i < |book.invoices| && v == book.invoices[op.i]
    requires Apply(book, v, op).Ok?
    ensures
      var w := Apply(book, v, op).value;
      && w.client == v.client && w.vendor == v.vendor && w.docNo == v.docNo && w.total == v.total
      && (!w.status.Rejected? && !w.status.Held? ==> (!v.status.Rejected? && !v.status.Held?) || op.ReleaseHold?)
  {
  }

  lemma CorrectedIsChecked(invoices: seq<Invoice>, i: nat, newDocNo: Option<string>, newTotal: Option<real>)
    requires i < |invoices|
    ensures
      var v, w := invoices[i], Corrected(invoices, i, newDocNo, newTotal);
      && w.client == v.client && w.vendor == v.vendor && (w.status == v.status || w.status == Held)
      && ((w.docNo == v.docNo && w.total == v.total)
          || w.status.Held?
          || forall k :: 0 <= k < |invoices| && k != i && !invoices[k].status.Rejected? ==> !SameBill(w, invoices[k]))
  {
    var w := Corrected(invoices, i, newDocNo, newTotal);
    if !w.status.Held? && (w.docNo != invoices[i].docNo || w.total != invoices[i].total) {
      forall k | 0 <= k < |invoices| && k != i && !invoices[k].status.Rejected? ensures !SameBill(w, invoices[k]) {
        assert HasNumber(w.docNo) ==> !Matches(invoices[k], w.client, w.vendor, w.docNo, w.total);
      }
    }
  }

  lemma CreateKeepsNoDoublePay(book: Book, op: Op)
    requires NoDoublePay(book) && op.Create? && (forall k :: k in book.released ==> k < |book.invoices|)
    ensures NoDoublePay(Step(book, op).0)
  {
    var after := Step(book, op).0;
    var n := |book.invoices|;
    if |after.invoices| > n {
      var v := after.invoices[n];
      assert v == NewInvoice(book.invoices, op);
      forall k | 0 <= k < n && Unquestioned(after, k) && Unquestioned(after, n)
        ensures !SameBill(book.invoices[k], v) && !SameBill(v, book.invoices[k])
      {
        assert HasNumber(op.docNo) ==> !Matches(book.invoices[k], op.client, op.vendor, op.docNo, op.total);
      }
      forall j, k | 0 <= j < n && 0 <= k < n && j != k && Unquestioned(after, j) && Unquestioned(after, k)
        ensures !SameBill(after.invoices[j], after.invoices[k])
      {
        assert Unquestioned(book, j) && Unquestioned(book, k);
      }
    }
  }

  /** One bill changed: it is what it was, or on hold, or released, or freshly checked. */
  lemma ReplaceKeepsNoDoublePay(book: Book, i: nat, w: Invoice, released: set<nat>)
    requires NoDoublePay(book) && i < |book.invoices| && (released == book.released || released == book.released + {i})
    requires w.client == book.invoices[i].client && w.vendor == book.invoices[i].vendor
    requires
      || w.status.Rejected? || w.status.Held? || i in released
      || (w.docNo == book.invoices[i].docNo && w.total == book.invoices[i].total && Unquestioned(book, i))
      || (forall k :: 0 <= k < |book.invoices| && k != i && !book.invoices[k].status.Rejected? ==>
            !SameBill(w, book.invoices[k]))
    ensures NoDoublePay(Book(book.invoices[i := w], released))
  {
    var after := Book(book.invoices[i := w], released);
    var n := |after.invoices|;
    forall j, k | 0 <= j < n && 0 <= k < n && j != k && Unquestioned(after, j) && Unquestioned(after, k)
      ensures !SameBill(after.invoices[j], after.invoices[k])
    {
      assert j != i ==> Unquestioned(book, j);
      assert k != i ==> Unquestioned(book, k);
    }
  }

  /** Creation, header correction, unapproval, rejection and everything else keep the
      duplicate control. */
  lemma StepKeepsNoDoublePay(book: Book, op: Op)
    requires NoDoublePay(book) && forall k :: k in book.released ==> k < |book.invoices|
    ensures NoDoublePay(Step(book, op).0)
    ensures forall k :: k in Step(book, op).0.released ==> k < |Step(book, op).0.invoices|
  {
    if op.Create? {
      CreateKeepsNoDoublePay(book, op);
    } else if op.i < |book.invoices| {
      var v := book.invoices[op.i];
      var r := Apply(book, v, op);
      if r.Ok? {
        if op.EditHeader? {
          CorrectedIsChecked(book.invoices, op.i, op.newDocNo, op.newTotal);
        } else {
          IdentityKept(book, v, op);
        }
        ReplaceKeepsNoDoublePay(book, op.i, r.value, Step(book, op).0.released);
      }
    }
  }

  lemma {:induction false} RunKeepsNoDoublePay(book: Book, ops: seq<Op>)
    requires NoDoublePay(book) && forall k :: k in book.released ==> k < |book.invoices|
    ensures NoDoublePay(Run(book, ops))
    decreases |ops|
  {
    if ops != [] {
      StepKeepsNoDoublePay(book, ops[0]);
      RunKeepsNoDoublePay(Step(book, ops[0]).0, ops[1..]);
    }
  }

  /** A new bill is parked exactly when a live bill of the client carries the same vendor
      and number and, if it has one, the same amount; the hold names the earliest. */
  lemma HeldIffDuplicate(book: Book, op: Op)
    requires op.Create?
    ensures
      var v := NewInvoice(book.invoices, op);
      && (v.status.Held? <==>
           && HasNumber(op.docNo)
           && exists w :: w in book.invoices && Matches(w, op.client, op.vendor, op.docNo, op.total))
      && (v.status.Held? ==>
           && v.holdOf.Some? && v.holdOf.value < |book.invoices|
           && forall k :: 0 <= k < v.holdOf.value ==>
             !Matches(book.invoices[k], op.client, op.vendor, op.docNo, op.total))
  {
    var v := NewInvoice(book.invoices, op);
    if v.status.Held? {
      assert book.invoices[v.holdOf.value] in book.invoices;
    }
  }

  /** Nothing but bill i may differ. */
  predicate OnlyInvoice(before: seq<Invoice>, after: seq<Invoice>, i: nat) {
    |after| == |before| && forall k :: 0 <= k < |before| && k != i ==> after[k] == before[k]
  }

  lemma StepMayKeepInv(book: Book, op: Op)
    ensures Inv(book) ==> Inv(Step(book, op).0)
  {
    if Inv(book) { StepKeepsInv(book, op); }
  }

  // -- the services as they run -----------------------------------------------------------------

  class ApService {
    var invoices: seq<Invoice>
    var released: set<nat>

    function State(): Book
      reads this
    {
      Book(invoices, released)
    }

    constructor ()
      ensures State() == EMPTY
    {
      invoices, released := [], {};
    }

    method Duplicate(client: nat, vendor: nat, docNo: Option<string>, total: Option<real>, exclude: Option<nat>)
      returns (r: Option<nat>)
      ensures r == FindDuplicate(invoices, client, vendor, docNo, total, exclude)
    {
      if !HasNumber(docNo) { return None; }
      var k := 0;
      while k < |invoices|
        invariant 0 <= k <= |invoices|
        invariant forall j :: 0 <= j < k && Some(j) != exclude ==> !Matches(invoices[j], client, vendor, docNo, total)
      {
        if Some(k) != exclude && Matches(invoices[k], client, vendor, docNo, total) {
          FirstMatch(invoices, client, vendor, docNo, total, exclude, k);
          return Some(k);
        }
        k := k + 1;
      }
      NoMatch(invoices, client, vendor, docNo, total, exclude);
      r := None;
    }

    method CreateInvoice(op: Op) returns (error: Option<Error>)
      requires op.Create?
      modifies this
      ensures (State(), error) == Step(old(State()), op)
    {
      if exists v :: v in invoices && v.client == op.client && v.idem == op.idem { return Some(Conflict); }
      var dup := Duplicate(op.client, op.vendor, op.docNo, op.total, None);
      var lines: seq<InvoiceLine> := [];
      var k := 0;
      while k < |op.categories|
        invariant 0 <= k <= |op.categories| && lines == NumberLines(op.categories)[..k]
        invariant invoices == old(invoices) && released == old(released)
      {
        lines := lines + [InvoiceLine(k + 1, op.categories[k], None)];
        k := k + 1;
      }
      assert lines == NumberLines(op.categories);
      assert invoices == old(invoices);
      invoices := invoices + [Invoice(op.client, op.vendor, op.docNo, op.total, op.idem,
                                      if dup.Some? then Held else Captured, dup,
                                      op.filer, None, None, None, None, lines)];
      error := None;
    }

    method EditInvoiceHeader(i: nat, editor: Principal, newDocNo: Option<string>, newTotal: Option<real>,
                             renamesVendor: bool)
      returns (error: Option<Error>)
      modifies this
      ensures (State(), error) == Step(old(State()), EditHeader(i, editor, newDocNo, newTotal, renamesVendor))
    {
      if i >= |invoices| { return Some(NotFound); }
      var v := invoices[i];
      if !MayWrite(editor, v) { return Some(Forbidden); }
      if !Open(v) { return Some(Illegal); }
      if renamesVendor && OtherBills(invoices, i) { return Some(Invalid); }
      var w := v;
      if newDocNo.Some? { w := w.(docNo := newDocNo); }
      if newTotal.Some? { w := w.(total := newTotal); }
      if (w.docNo != v.docNo || w.total != v.total) && !w.status.Held? {
        var dup := Duplicate(w.client, w.vendor, w.docNo, w.total, Some(i));
        if dup.Some? { w := w.(status := Held, holdOf := dup); }
      }
      invoices := invoices[i := w];
      error := None;
    }

    method ApproveInvoice(i: nat, approver: Principal, rules: seq<Rule>) returns (error: Option<Error>)
      modifies this
      ensures (State(), error) == Step(old(State()), Approve(i, approver, rules))
    {
      if i >= |invoices| { return Some(NotFound); }
      var v := invoices[i];
      if !v.status.PendingApproval? && !v.status.Coded? { return Some(Illegal); }
      var k := 0;
      while k < |v.lines|
        invariant 0 <= k <= |v.lines| && forall j :: 0 <= j < k ==> v.lines[j].category.Some?
        invariant invoices == old(invoices) && released == old(released)
      {
        if v.lines[k].category.None? { return Some(Illegal); }
        k := k + 1;
      }
      if !MayApprove(v, approver, rules) { return Some(Forbidden); }
      invoices := invoices[i := v.(status := Approved, approvedBy := Some(approver.user))];
      error := None;
    }

    method ReleaseInvoiceHold(i: nat) returns (error: Option<Error>)
      modifies this
      ensures (State(), error) == Step(old(State()), ReleaseHold(i))
      ensures OnlyInvoice(old(invoices), invoices, i) && (error.Some? ==> State() == old(State()))
      ensures error.None? <==> i < |old(invoices)| && old(invoices)[i].status.Held?
      ensures error.None? ==>
        && released == old(released) + {i}
        && Open(invoices[i]) && !invoices[i].status.Held? && invoices[i].approvedBy == old(invoices)[i].approvedBy
      ensures Inv(old(State())) ==> Inv(State())
    {
      StepMayKeepInv(State(), ReleaseHold(i));
      if i >= |invoices| { return Some(NotFound); }
      var v := invoices[i];
      if !v.status.Held? { return Some(Illegal); }
      invoices := invoices[i := v.(status := if v.codedBy.Some? then Coded else Captured, holdOf := None)];
      released := released + {i};
      error := None;
    }

    method PayInvoice(i: nat, payer: Option<nat>) returns (error: Option<Error>)
      modifies this
      ensures (State(), error) == Step(old(State()), MarkPaid(i, payer))
      ensures OnlyInvoice(old(invoices), invoices, i) && released == old(released)
      ensures error.Some? ==> State() == old(State())
      ensures error.None? <==>
        && i < |old(invoices)| && (old(invoices)[i].status.Approved? || old(invoices)[i].status.Posted?)
        && (payer.Some? ==> old(invoices)[i].createdBy != payer)
      ensures error.None? ==> invoices[i].status.Paid? && invoices[i].erpKey == old(invoices)[i].erpKey
      ensures Inv(old(State())) ==> Inv(State())
    {
      StepMayKeepInv(State(), MarkPaid(i, payer));
      if i >= |invoices| { return Some(NotFound); }
      var v := invoices[i];
      if payer.Some? && v.createdBy == payer { return Some(Forbidden); }
      if !v.status.Approved? && !v.status.Posted? { return Some(Illegal); }
      invoices := invoices[i := v.(status := Paid)];
      error := None;
    }

    method PostInvoice(i: nat, ok: bool, key: Option<string>) returns (error: Option<Error>)
      modifies this
      ensures (State(), error) == Step(old(State()), MarkPosted(i, ok, key))
      ensures OnlyInvoice(old(invoices), invoices, i) && released == old(released)
      ensures !ok || error.Some? ==> State() == old(State())
      ensures ok ==> (error.None? <==>
        && i < |old(invoices)| && (old(invoices)[i].status.Approved? || old(invoices)[i].status.Paid?)
        && old(invoices)[i].erpKey.None?)
      ensures ok && error.None? ==>
        invoices[i].erpKey == key && (old(invoices)[i].status.Paid? <==> invoices[i].status.Paid?)
      ensures i < |invoices| && old(invoices)[i].erpKey.Some? ==> invoices[i].erpKey == old(invoices)[i].erpKey
      ensures i < |invoices| && old(invoices)[i].status.Paid? ==> invoices[i].status.Paid?
      ensures Inv(old(State())) ==> Inv(State())
    {
      StepMayKeepInv(State(), MarkPosted(i, ok, key));
      if i >= |invoices| { return Some(NotFound); }
      var v := invoices[i];
      if !ok {
        assert invoices[i := v] == invoices;
        return None;
      }
      if !v.status.Approved? && !v.status.Paid? { return Some(Illegal); }
      if v.erpKey.Some? { return Some(Conflict); }
      v := v.(erpKey := key);
      if v.status.Approved? { v := v.(status := Posted); }
      invoices := invoices[i := v];
      error := None;
    }

    /** `exportable_invoices`, newest first. */
    method ExportableInvoices(clients: set<nat>) returns (ids: seq<nat>)
      ensures forall i :: i in ids <==> 0 <= i < |invoices| && invoices[i].client in clients && Exportable(invoices[i])
      ensures forall j, k :: 0 <= j < k < |ids| ==> ids[j] > ids[k]
    {
      ids := [];
      var n := |invoices|;
      while n > 0
        invariant 0 <= n <= |invoices|
        invariant forall i :: i in ids <==>
          n <= i < |invoices| && invoices[i].client in clients && Exportable(invoices[i])
        invariant forall j, k :: 0 <= j < k < |ids| ==> ids[j] > ids[k]
      {
        n := n - 1;
        if invoices[n].client in clients && Exportable(invoices[n]) {
          assert forall j :: 0 <= j < |ids| ==> ids[j] in ids;
          ids := ids + [n];
        }
      }
    }
  }

  lemma {:induction false} NoMatch(invoices: seq<Invoice>, client: nat, vendor: nat, docNo: Option<string>,
                                   total: Option<real>, exclude: Option<nat>)
    requires forall j :: 0 <= j < |invoices| && Some(j) != exclude ==>
      !Matches(invoices[j], client, vendor, docNo, total)
    ensures FindDuplicate(invoices, client, vendor, docNo, total, exclude).None?
  {
    if invoices != [] { NoMatch(invoices[..|invoices| - 1], client, vendor, docNo, total, exclude); }
  }

  lemma {:induction false} FirstMatch(invoices: seq<Invoice>, client: nat, vendor: nat, docNo: Option<string>,
                                      total: Option<real>, exclude: Option<nat>, k: nat)
    requires HasNumber(docNo) && k < |invoices| && Some(k) != exclude
    requires Matches(invoices[k], client, vendor, docNo, total)
    requires forall j :: 0 <= j < k && Some(j) != exclude ==> !Matches(invoices[j], client, vendor, docNo, total)
    ensures FindDuplicate(invoices, client, vendor, docNo, total, exclude) == Some(k)
  {
    var r := FindDuplicate(invoices, client, vendor, docNo, total, exclude);
    assert r.Some?;
  }
}
