/** Who may approve a vendor bill they prepared: the bill records its filer, its last coder and
    its last submitter, while runs have more of each (src/eclaim/services/ap.py). */
module ApDuties {
  import opened Prelude
  import opened ApprovalMatrix
  import opened Ap

  /** The operation is on bill i, and goes through. */
  predicate Accepted(book: Book, op: Op, i: nat) {
    !op.Create? && op.i == i && Step(book, op).1.None?
  }

  /** Whom an accepted operation makes the coder, or the submitter, of bill i. */
  function Coder(book: Book, op: Op, i: nat): Option<nat> {
    if Accepted(book, op, i) && op.CodeLine? then Some(op.editor.user) else None
  }

  function Submitter(book: Book, op: Op, i: nat): Option<nat> {
    if Accepted(book, op, i) && op.Submit? then op.submitter else None
  }

  /** Whoever corrected the header, or added or removed a line. */
  function Corrector(book: Book, op: Op, i: nat): Option<nat> {
    if Accepted(book, op, i) && (op.EditHeader? || op.AddLine? || op.RemoveLine?) then Some(op.editor.user) else None
  }

  function AsSeq(x: Option<nat>): seq<nat> {
    if x.Some? then [x.value] else []
  }

  /** Everybody who coded bill i during the run, in order. */
  function CodersOf(book: Book, ops: seq<Op>, i: nat): seq<nat>
    decreases |ops|
  {
    if ops == [] then [] else AsSeq(Coder(book, ops[0], i)) + CodersOf(Step(book, ops[0]).0, ops[1..], i)
  }

  /** Everybody who submitted it. */
  function SubmittersOf(book: Book, ops: seq<Op>, i: nat): seq<nat>
    decreases |ops|
  {
    if ops == [] then [] else AsSeq(Submitter(book, ops[0], i)) + SubmittersOf(Step(book, ops[0]).0, ops[1..], i)
  }

  function CorrectorsOf(book: Book, ops: seq<Op>, i: nat): seq<nat>
    decreases |ops|
  {
    if ops == [] then [] else AsSeq(Corrector(book, ops[0], i)) + CorrectorsOf(Step(book, ops[0]).0, ops[1..], i)
  }

  /** Who filed it. */
  function FilerOf(book: Book, ops: seq<Op>, i: nat): Option<nat>
    decreases |ops|
  {
    if ops == [] then None
    else if ops[0].Create? && Step(book, ops[0]).1.None? && |book.invoices| == i then ops[0].filer
    else FilerOf(Step(book, ops[0]).0, ops[1..], i)
  }

  function LastOr(users: seq<nat>, earlier: Option<nat>): Option<nat> {
    if users != [] then Some(users[|users| - 1]) else earlier
  }

  lemma LastOrJoins(x: Option<nat>, rest: seq<nat>, earlier: Option<nat>)
    ensures LastOr(AsSeq(x) + rest, earlier) == LastOr(rest, if x.Some? then x else earlier)
  {
  }

  lemma BillsGrow(book: Book, op: Op)
    ensures |book.invoices| <= |Step(book, op).0.invoices| <= |book.invoices| + 1
  {
  }

  lemma StepRecords(book: Book, op: Op, i: nat)
    requires i < |book.invoices|
    ensures |book.invoices| <= |Step(book, op).0.invoices|
    ensures
      var v, w := book.invoices[i], Step(book, op).0.invoices[i];
      && w.createdBy == v.createdBy
      && w.codedBy == (if Coder(book, op, i).Some? then Coder(book, op, i) else v.codedBy)
      && w.submittedBy == (if Submitter(book, op, i).Some? then Submitter(book, op, i) else v.submittedBy)
  {
    if !op.Create? && op.i == i && Apply(book, book.invoices[i], op).Ok? {
      PreparersAreRecorded(book, book.invoices[i], op);
    }
  }

  lemma FilesNew(book: Book, op: Op)
    requires |Step(book, op).0.invoices| == |book.invoices| + 1
    ensures op.Create? && Step(book, op).1.None?
    ensures
      var w := Step(book, op).0.invoices[|book.invoices|];
      w.createdBy == op.filer && w.codedBy == None && w.submittedBy == None
  {
  }

  lemma {:induction false} RecordsOfOld(book: Book, ops: seq<Op>, i: nat)
    requires i < |book.invoices|
    ensures i < |Run(book, ops).invoices|
    ensures
      var v, w := book.invoices[i], Run(book, ops).invoices[i];
      && w.createdBy == v.createdBy
      && w.codedBy == LastOr(CodersOf(book, ops, i), v.codedBy)
      && w.submittedBy == LastOr(SubmittersOf(book, ops, i), v.submittedBy)
    decreases |ops|
  {
    if ops != [] {
      var after := Step(book, ops[0]).0;
      StepRecords(book, ops[0], i);
      RecordsOfOld(after, ops[1..], i);
      LastOrJoins(Coder(book, ops[0], i), CodersOf(after, ops[1..], i), book.invoices[i].codedBy);
      LastOrJoins(Submitter(book, ops[0], i), SubmittersOf(after, ops[1..], i), book.invoices[i].submittedBy);
    }
  }

  /** Nobody touches a bill before it is filed; afterwards the record is the filer, the last of
      the coders and the last of the submitters. */
  lemma {:induction false} RecordsAre(book: Book, ops: seq<Op>, i: nat)
    requires |book.invoices| <= i < |Run(book, ops).invoices|
    ensures
      var w := Run(book, ops).invoices[i];
      && w.createdBy == FilerOf(book, ops, i)
      && w.codedBy == LastOr(CodersOf(book, ops, i), None)
      && w.submittedBy == LastOr(SubmittersOf(book, ops, i), None)
    decreases |ops|
  {
    if ops != [] {
      var op, after := ops[0], Step(book, ops[0]).0;
      BillsGrow(book, op);
      Untouched(book, op, i);
      if i < |after.invoices| {
        FilesNew(book, op);
        RecordsOfOld(after, ops[1..], i);
      } else {
        RecordsAre(after, ops[1..], i);
      }
    }
  }

  lemma Untouched(book: Book, op: Op, i: nat)
    requires |book.invoices| <= i
    ensures Coder(book, op, i) == None && Submitter(book, op, i) == None
    ensures FilerOf(book, [op], i) == None || (op.Create? && |book.invoices| == i)
  {
  }

  /** Somebody, whatever they did to the bill during the run, can approve it exactly when they
      are not its filer, not its last coder and not its last submitter, and status, category,
      role, grant, limit and matrix allow it. So whoever coded or submitted it before somebody
      else did, or corrected its header or its lines, is not barred. */
  lemma ApproverIff(ops: seq<Op>, i: nat, p: Principal, rules: seq<Rule>)
    requires i < |Run(EMPTY, ops).invoices|
    ensures
      var book, coders, submitters := Run(EMPTY, ops), CodersOf(EMPTY, ops, i), SubmittersOf(EMPTY, ops, i);
      var v := book.invoices[i];
      Step(book, Approve(i, p, rules)).1.None? <==>
        && FilerOf(EMPTY, ops, i) != Some(p.user)
        && coders != [] && coders[|coders| - 1] != p.user
        && (submitters != [] ==> submitters[|submitters| - 1] != p.user)
        && (v.status.PendingApproval? || v.status.Coded?) && (forall l :: l in v.lines ==> l.category.Some?)
        && p.role != Viewer && v.client in p.clients
        && (v.total.Some? && p.limit.Some? ==> v.total.value <= p.limit.value)
        && MatrixAllows(rules, SubjectOf(v), p)
  {
    RecordsAre(EMPTY, ops, i);
    ApproveIsSound(Run(EMPTY, ops), i, p, rules);
  }

  // -- it happens ---------------------------------------------------------------------------------

  const OTHER := Principal(4, Approver, {1}, None)

  lemma {:induction false} RunJoins(book: Book, ops: seq<Op>, last: Op)
    ensures Run(book, ops + [last]) == Step(Run(book, ops), last).0
    decreases |ops|
  {
    if ops == [] {
      assert [last][1..] == [];
      assert Run(Step(book, last).0, []) == Step(book, last).0;
    } else {
      assert (ops + [last])[1..] == ops[1..] + [last];
      RunJoins(Step(book, ops[0]).0, ops[1..], last);
    }
  }

  function OnRecord(status: Status, codedBy: Option<nat>, submittedBy: Option<nat>, approvedBy: Option<nat>): Book {
    OneBill(Bill(status, codedBy, approvedBy).(submittedBy := submittedBy))
  }

  const RECODE := CodeLine(0, 0, OTHER, Some(7), None)

  lemma Recodes()
    ensures Step(OnRecord(Coded, Some(2), None, None), RECODE).0 == OnRecord(Coded, Some(4), None, None)
  {
    var v, w := Bill(Coded, Some(2), None), Bill(Coded, Some(4), None);
    assert v.(submittedBy := None) == v && w.(submittedBy := None) == w;
    assert v.lines[0 := InvoiceLine(1, Some(7), None)] == v.lines;
    assert [v][0 := w] == [w];
  }

  lemma Approves(book: Book, p: Principal)
    requires |book.invoices| == 1
    requires
      var v := book.invoices[0];
      && v.status.Coded? && Categorised(v) && v.client in p.clients && p.role != Viewer && p.limit.None?
      && v.codedBy.Some? && Some(p.user) !in {v.createdBy, v.codedBy, v.submittedBy}
    ensures Step(book, Approve(0, p, [])).0.invoices ==
      [book.invoices[0].(status := Approved, approvedBy := Some(p.user))]
  {
    var v := book.invoices[0];
    GateIsExact([], SubjectOf(v), p, v.client, v.total);
    assert MayApprove(v, p, []);
  }

  /** Filed by 1, coded by 2, coded again by 4, and approved by 2. */
  lemma EarlierCoderApproves()
    ensures
      var book := Run(EMPTY, [FILE, CODE, RECODE, Approve(0, CODER, [])]);
      && |book.invoices| == 1 && book.invoices[0].status.Approved? && book.invoices[0].approvedBy == Some(CODER.user)
      && CODER.user in CodersOf(EMPTY, [FILE, CODE, RECODE], 0)
  {
    FilesAndCodes();
    Recodes();
    var captured := OneBill(Bill(Captured, None, None));
    var coded, recoded := OnRecord(Coded, Some(2), None, None), OnRecord(Coded, Some(4), None, None);
    assert Bill(Coded, Some(2), None).(submittedBy := None) == Bill(Coded, Some(2), None);
    assert Run(EMPTY, []) == EMPTY;
    RunJoins(EMPTY, [], FILE);
    assert [] + [FILE] == [FILE] && [FILE] + [CODE] == [FILE, CODE] && [FILE, CODE] + [RECODE] == [FILE, CODE, RECODE];
    RunJoins(EMPTY, [FILE], CODE);
    RunJoins(EMPTY, [FILE, CODE], RECODE);
    RunJoins(EMPTY, [FILE, CODE, RECODE], Approve(0, CODER, []));
    assert [FILE, CODE, RECODE] + [Approve(0, CODER, [])] == [FILE, CODE, RECODE, Approve(0, CODER, [])];
    Approves(recoded, CODER);
    CodesByTwo(captured);
  }

  lemma CodesByTwo(captured: Book)
    requires captured == OneBill(Bill(Captured, None, None)) && Step(EMPTY, FILE).0 == captured
    ensures CODER.user in CodersOf(EMPTY, [FILE, CODE, RECODE], 0)
  {
    assert [FILE, CODE, RECODE][1..] == [CODE, RECODE] && [CODE, RECODE][1..] == [RECODE];
    assert Accepted(captured, CODE, 0);
    assert Coder(captured, CODE, 0) == Some(2);
    assert CodersOf(captured, [CODE, RECODE], 0) == [2] + CodersOf(Step(captured, CODE).0, [RECODE], 0);
  }

  /** Somebody's new total for the bill. */
  const CORRECT := EditHeader(0, OTHER, None, Some(20.0), false)

  lemma Corrects()
    ensures Step(OneBill(Bill(Coded, Some(2), None)), CORRECT) ==
      (OneBill(Bill(Coded, Some(2), None).(total := Some(20.0))), None)
  {
    var v := Bill(Coded, Some(2), None);
    var w := v.(total := Some(20.0));
    assert FindDuplicate([v], 1, 1, Some("A1"), Some(20.0), Some(0)).None?;
    assert v.(docNo := v.docNo, total := Some(20.0)) == w;
    assert [v][0 := w] == [w];
  }

  /** Filed by 1, coded by 2, its total set by 4, and approved by 4. */
  lemma CorrectorApproves()
    ensures
      var book := Run(EMPTY, [FILE, CODE, CORRECT, Approve(0, OTHER, [])]);
      && |book.invoices| == 1 && book.invoices[0].status.Approved? && book.invoices[0].approvedBy == Some(OTHER.user)
      && OTHER.user in CorrectorsOf(EMPTY, [FILE, CODE, CORRECT], 0)
  {
    FilesAndCodes();
    Corrects();
    var coded := OneBill(Bill(Coded, Some(2), None));
    assert Run(EMPTY, []) == EMPTY;
    RunJoins(EMPTY, [], FILE);
    assert [] + [FILE] == [FILE] && [FILE] + [CODE] == [FILE, CODE];
    assert [FILE, CODE] + [CORRECT] == [FILE, CODE, CORRECT];
    RunJoins(EMPTY, [FILE], CODE);
    RunJoins(EMPTY, [FILE, CODE], CORRECT);
    RunJoins(EMPTY, [FILE, CODE, CORRECT], Approve(0, OTHER, []));
    assert [FILE, CODE, CORRECT] + [Approve(0, OTHER, [])] == [FILE, CODE, CORRECT, Approve(0, OTHER, [])];
    Approves(Step(coded, CORRECT).0, OTHER);
    CorrectedByFour(Step(EMPTY, FILE).0, coded);
  }

  lemma CorrectedByFour(captured: Book, coded: Book)
    requires Step(EMPTY, FILE).0 == captured && Step(captured, CODE).0 == coded && Accepted(coded, CORRECT, 0)
    ensures OTHER.user in CorrectorsOf(EMPTY, [FILE, CODE, CORRECT], 0)
  {
    assert [FILE, CODE, CORRECT][1..] == [CODE, CORRECT] && [CODE, CORRECT][1..] == [CORRECT] && [CORRECT][1..] == [];
    assert Corrector(coded, CORRECT, 0) == Some(4);
    assert CorrectorsOf(coded, [CORRECT], 0) == [4] + CorrectorsOf(Step(coded, CORRECT).0, [], 0);
    assert 4 in CorrectorsOf(coded, [CORRECT], 0);
    assert 4 in CorrectorsOf(captured, [CODE, CORRECT], 0);
  }
}
