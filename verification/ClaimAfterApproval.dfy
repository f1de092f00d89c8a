/** What may still move between approval and release, and exactly when it does: the approved
    total with a corrected rate, and which lines forward with a category's relevance
    (src/eclaim/services/claims.py). */
module ClaimAfterApproval {
  import opened Prelude
  import opened ApprovalMatrix
  import opened ClaimModel
  import opened ClaimChanges
  import opened ClaimMoney
  import ClaimApproval
  import L = ClaimLifecycle

  predicate IsApproved(c: Claim) {
    c.status.Approved? || c.status.PartiallyApproved?
  }

  /** Of an approved claim an edit changes one line, and of that line only the accounting
      coding with what is derived from it: never the document, currency, total, quantity,
      payment, category or decision. */
  lemma ApprovedExpenseIsLocked(cid: ClaimId, c: Claim, p: Option<Principal>, target: Option<LineId>, x: Patch,
                                after: Claim)
    requires IsApproved(c) && Apply(cid, c, Edit(p, target, x)) == Ok(after)
    ensures EditTarget(c.lines, target).Some?
    ensures
      var i := EditTarget(c.lines, target).value;
      var l, m := c.lines[i], after.lines[i];
      && after.lines == c.lines[i := m] && after.status == c.status && after.approvedBy == c.approvedBy
      && m == l.(tax := m.tax, taxInclusive := m.taxInclusive, fx := m.fx, gl := m.gl, costCentre := m.costCentre,
                 net := m.net, base := m.base, carbonRelevant := m.carbonRelevant)
  {
  }

  // -- the approved total ---------------------------------------------------------------

  /** The home-currency amount of a line after a coding edit. */
  function EditedBase(l: Line, x: Patch): Option<real> {
    if TouchesMoney(x) then BaseOf(l.total, Updated(x.fx, l.fx), l.currency) else l.base
  }

  /** Only a rate can move it. */
  lemma OnlyRatesMoveBase(l: Line, x: Patch)
    requires OnlyCoding(x)
    ensures EditLine(l, x).base == EditedBase(l, x) && EditLine(l, x).status == l.status
    ensures Derived(l) ==> EditedBase(l, x) == if x.fx.Set? then BaseOf(l.total, x.fx.value, l.currency) else l.base
  {
  }

  lemma {:induction false} ApprovedSumShifts(lines: seq<Line>, i: nat, l: Line)
    requires i < |lines| && l.status == lines[i].status
    ensures SumAll(ApprovedLines(lines[i := l])) ==
      SumAll(ApprovedLines(lines)) + (if l.status.LineApproved? then BaseOrZero(l) - BaseOrZero(lines[i]) else 0.0)
  {
    var n := |lines| - 1;
    if i < n {
      ApprovedSumShifts(lines[..n], i, l);
      assert lines[i := l][..n] == lines[..n][i := l];
      SumApprovedLast(lines[i := l]);
    } else {
      assert lines[i := l][..n] == lines[..n];
      SumApprovedLast(lines[i := l]);
    }
    SumApprovedLast(lines);
  }

  lemma {:induction false} SumApprovedLast(lines: seq<Line>)
    requires lines != []
    ensures
      var last := lines[|lines| - 1];
      SumAll(ApprovedLines(lines)) ==
        SumAll(ApprovedLines(lines[..|lines| - 1])) + (if last.status.LineApproved? then BaseOrZero(last) else 0.0)
  {
    var init, last := lines[..|lines| - 1], lines[|lines| - 1];
    assert lines == init + [last];
    ApprovedAppend(init, last);
    SumAllAppend(ApprovedLines(init), last);
    assert ApprovedLines(init) + [] == ApprovedLines(init);
  }

  lemma {:induction false} SumsAsAmount(lines: seq<Line>)
    ensures AmountOrZero(SumBase(lines)) == SumAll(lines)
  {
    SumBaseIsSum(lines);
  }

  /** An accepted edit moves the approved total by exactly what it moves the line, if the line
      is approved. For a line in order that is exactly when the edit sets a rate under which
      the line is worth something else. */
  lemma ApprovedFollowsEdit(cid: ClaimId, c: Claim, p: Option<Principal>, target: Option<LineId>, x: Patch,
                            after: Claim)
    requires ClaimOk(cid, c) && IsApproved(c) && Apply(cid, c, Edit(p, target, x)) == Ok(after)
    ensures EditTarget(c.lines, target).Some?
    ensures
      var l := c.lines[EditTarget(c.lines, target).value];
      AmountOrZero(after.approved) == AmountOrZero(c.approved)
        + (if l.status.LineApproved? then AmountOrZero(EditedBase(l, x)) - AmountOrZero(l.base) else 0.0)
    ensures
      var l := c.lines[EditTarget(c.lines, target).value];
      Derived(l) ==>
        (AmountOrZero(after.approved) != AmountOrZero(c.approved) <==>
          && l.status.LineApproved? && x.fx.Set?
          && AmountOrZero(BaseOf(l.total, x.fx.value, l.currency)) != AmountOrZero(l.base))
  {
    ApprovedExpenseIsLocked(cid, c, p, target, x, after);
    EditMovesTotal(c, target, x, after);
  }

  lemma EditMovesTotal(c: Claim, target: Option<LineId>, x: Patch, after: Claim)
    requires OnlyCoding(x) && EditExpense(c, target, x) == Ok(after) && EditTarget(c.lines, target).Some?
    requires c.approved == SumBase(ApprovedLines(c.lines))
    ensures
      var l := c.lines[EditTarget(c.lines, target).value];
      && AmountOrZero(after.approved) == AmountOrZero(c.approved)
           + (if l.status.LineApproved? then AmountOrZero(EditedBase(l, x)) - AmountOrZero(l.base) else 0.0)
      && (Derived(l) ==> EditedBase(l, x) == if x.fx.Set? then BaseOf(l.total, x.fx.value, l.currency) else l.base)
  {
    var i := EditTarget(c.lines, target).value;
    var edited := EditLine(c.lines[i], x);
    OnlyRatesMoveBase(c.lines[i], x);
    ApprovedSumShifts(c.lines, i, edited);
    SumsAsAmount(ApprovedLines(c.lines));
    SumsAsAmount(ApprovedLines(c.lines[i := edited]));
    assert after.lines == c.lines[i := edited] && after.approved == SumBase(ApprovedLines(after.lines));
  }

  /** What is approved exceeds the principal's limit. */
  predicate Over(p: Principal, c: Claim) {
    p.limit.Some? && c.approved.Some? && c.approved.value > p.limit.value
  }

  /** All approved at once by a principal: within that principal's limit, each line derived. */
  lemma ApprovedWithinLimit(cid: ClaimId, c: Claim, p: Principal, rules: seq<Rule>, approved: Claim)
    requires ClaimOk(cid, c) && AllMoneyOk(c.lines) && ApproveAll(c, Some(p), rules) == Ok(approved)
    ensures approved.approved == approved.claimed && !Over(p, approved)
    ensures forall i :: 0 <= i < |approved.lines| ==>
      approved.lines[i].status.LineApproved? && Derived(approved.lines[i])
  {
    ClaimApproval.ApproveApprovesAll(c, p, rules);
    forall i | 0 <= i < |c.lines| ensures Derived(c.lines[i]) {
      assert MoneyOk(c.lines[i]);
    }
    assert MayApprove(c, p, rules);
  }

  /** The line takes part in the approved total. */
  predicate Counts(l: Line) {
    l.status.LineApproved? && l.base.Some?
  }

  lemma {:induction false} HasApproved(lines: seq<Line>)
    ensures SumBase(ApprovedLines(lines)).Some? <==> exists k :: 0 <= k < |lines| && Counts(lines[k])
  {
    if lines != [] {
      var init, last := lines[..|lines| - 1], lines[|lines| - 1];
      HasApproved(init);
      SumBaseGrows(ApprovedLines(init), last);
      assert ApprovedLines(lines) ==
        if last.status.LineApproved? then ApprovedLines(init) + [last] else ApprovedLines(init);
      assert forall k :: 0 <= k < |init| ==> init[k] == lines[k];
      if k :| 0 <= k < |init| && Counts(init[k]) {
        assert Counts(lines[k]);
      }
      if k :| 0 <= k < |lines| && Counts(lines[k]) {
        assert k < |init| ==> Counts(init[k]);
      }
      assert Counts(last) ==> Counts(lines[|init|]);
    }
  }

  lemma {:induction false} SumBaseGrows(lines: seq<Line>, last: Line)
    ensures SumBase(lines + [last]).Some? <==> SumBase(lines).Some? || last.base.Some?
  {
    assert (lines + [last])[..|lines|] == lines;
  }

  lemma CountsAfter(lines: seq<Line>, i: nat, l: Line, after: seq<Line>)
    requires i < |lines| && after == lines[i := l]
    ensures (exists k :: 0 <= k < |after| && Counts(after[k])) <==>
      Counts(l) || exists k :: 0 <= k < |lines| && k != i && Counts(lines[k])
  {
    if k :| 0 <= k < |lines| && k != i && Counts(lines[k]) {
      assert Counts(after[k]);
    }
    if Counts(l) { assert Counts(after[i]); }
  }

  /** Taking the line in at this rate makes more than the limit. */
  predicate PassesWith(c: Claim, i: nat, rate: Option<real>, limit: real)
    requires i < |c.lines|
  {
    var l := c.lines[i];
    var base := BaseOf(l.total, rate, l.currency);
    && AmountOrZero(c.approved) - AmountOrZero(l.base) + AmountOrZero(base) > limit
    && (base.Some? || exists k :: 0 <= k < |c.lines| && k != i && Counts(c.lines[k]))
  }

  /** What line i comes to when the edit is taken in. */
  function NewBase(c: Claim, i: nat, x: Patch): Option<real>
    requires i < |c.lines|
  {
    var l := c.lines[i];
    if x.fx.Set? then BaseOf(l.total, x.fx.value, l.currency) else l.base
  }

  lemma EditedTotal(c: Claim, target: Option<LineId>, x: Patch, after: Claim)
    requires c.approved == SumBase(ApprovedLines(c.lines))
    requires OnlyCoding(x) && EditExpense(c, target, x) == Ok(after) && EditTarget(c.lines, target).Some?
    requires Derived(c.lines[EditTarget(c.lines, target).value])
    ensures
      var i := EditTarget(c.lines, target).value;
      var approved := c.lines[i].status.LineApproved?;
      && AmountOrZero(after.approved) ==
           AmountOrZero(c.approved) + (if approved then AmountOrZero(NewBase(c, i, x)) - AmountOrZero(c.lines[i].base)
                                       else 0.0)
      && (after.approved.Some? <==>
           || (approved && NewBase(c, i, x).Some?)
           || exists k :: 0 <= k < |c.lines| && k != i && Counts(c.lines[k]))
  {
    var i := EditTarget(c.lines, target).value;
    var edited := EditLine(c.lines[i], x);
    OnlyRatesMoveBase(c.lines[i], x);
    EditMovesTotal(c, target, x, after);
    HasApproved(c.lines[i := edited]);
    CountsAfter(c.lines, i, edited, c.lines[i := edited]);
    assert after.lines == c.lines[i := edited] && after.approved == SumBase(ApprovedLines(after.lines));
  }

  lemma ApprovedSome(c: Claim, i: nat)
    requires i < |c.lines| && c.approved == SumBase(ApprovedLines(c.lines))
    ensures c.approved.Some? <==> Counts(c.lines[i]) || exists k :: 0 <= k < |c.lines| && k != i && Counts(c.lines[k])
  {
    HasApproved(c.lines);
    assert c.lines[i := c.lines[i]] == c.lines;
    CountsAfter(c.lines, i, c.lines[i], c.lines);
  }

  lemma EditPassesIff(p: Principal, c: Claim, target: Option<LineId>, x: Patch, after: Claim)
    requires c.approved == SumBase(ApprovedLines(c.lines)) && !Over(p, c)
    requires OnlyCoding(x) && EditExpense(c, target, x) == Ok(after) && EditTarget(c.lines, target).Some?
    requires Derived(c.lines[EditTarget(c.lines, target).value])
    ensures
      var i := EditTarget(c.lines, target).value;
      Over(p, after) <==>
        p.limit.Some? && c.lines[i].status.LineApproved? && x.fx.Set? && PassesWith(c, i, x.fx.value, p.limit.value)
  {
    EditedTotal(c, target, x, after);
    ApprovedSome(c, EditTarget(c.lines, target).value);
  }

  /** Of a claim approved in whole or in part, with its total within a principal's limit, an
      accepted edit takes the total past the limit exactly when it sets a rate on an approved
      line under which the line, put back among the others, makes more. */
  lemma LimitPassedIff(cid: ClaimId, c: Claim, p: Principal, q: Option<Principal>, target: Option<LineId>, x: Patch,
                       after: Claim)
    requires ClaimOk(cid, c) && IsApproved(c) && !Over(p, c) && Apply(cid, c, Edit(q, target, x)) == Ok(after)
    requires forall k :: 0 <= k < |c.lines| ==> Derived(c.lines[k])
    ensures EditTarget(c.lines, target).Some?
    ensures
      var i := EditTarget(c.lines, target).value;
      Over(p, after) <==>
        p.limit.Some? && c.lines[i].status.LineApproved? && x.fx.Set? && PassesWith(c, i, x.fx.value, p.limit.value)
  {
    EditIsCoding(cid, c, q, target, x, after);
    EditPassesIff(p, c, target, x, after);
  }

  /** The lines of a claim just approved or decided are all derived. */
  lemma DecisionDerives(cid: ClaimId, before: Claim, change: Change, c: Claim)
    requires AllMoneyOk(before.lines) && (change.Approve? || change.Decide?) && Apply(cid, before, change) == Ok(c)
    ensures forall k :: 0 <= k < |c.lines| ==> Derived(c.lines[k])
  {
    assert FxResolved(before.lines) && |c.lines| == |before.lines|;
    forall k | 0 <= k < |c.lines| ensures Derived(c.lines[k]) {
      assert MoneyOk(before.lines[k]) && SameKeyed(before.lines[k], c.lines[k]);
    }
  }

  /** And an edit leaves them so. */
  lemma EditDerives(cid: ClaimId, c: Claim, q: Option<Principal>, target: Option<LineId>, x: Patch, after: Claim)
    requires IsApproved(c) && Apply(cid, c, Edit(q, target, x)) == Ok(after)
    requires forall k :: 0 <= k < |c.lines| ==> Derived(c.lines[k])
    ensures forall k :: 0 <= k < |after.lines| ==> Derived(after.lines[k])
  {
    EditIsCoding(cid, c, q, target, x, after);
    var i := EditTarget(c.lines, target).value;
    if TouchesMoney(x) {
      EditedIsRecomputed(c.lines[i], x);
    } else {
      SameKeyedDerived(c.lines[i], EditLine(c.lines[i], x));
    }
    assert after.lines == c.lines[i := EditLine(c.lines[i], x)];
  }

  lemma SameKeyedDerived(a: Line, b: Line)
    requires Derived(a) && SameKeyed(a, b)
    ensures Derived(b)
  {
  }

  predicate AllDerived(lines: seq<Line>) {
    forall k :: 0 <= k < |lines| ==> Derived(lines[k])
  }

  /** All that may still happen to an approved claim before it is released. */
  lemma ApprovedAllows(cid: ClaimId, c: Claim, change: Change, after: Claim)
    requires IsApproved(c) && Apply(cid, c, change) == Ok(after)
    ensures change.Edit? || change.Attest? || change.Unapprove?
    ensures change.Attest? ==> after.lines == c.lines
    ensures !change.Unapprove? ==> after.status == c.status
  {
  }

  /** The claim after a run of changes, refused ones leaving it as it is. */
  function AfterChanges(cid: ClaimId, c: Claim, changes: seq<Change>): Claim
    decreases |changes|
  {
    if changes == [] then c
    else
      var r := Apply(cid, c, changes[0]);
      AfterChanges(cid, if r.Ok? then r.value else c, changes[1..])
  }

  /** From an approval or decision on, whatever is tried until it is reopened, every line stays
      worth what its keyed figures say. */
  lemma StaysDerived(cid: ClaimId, before: Claim, decision: Change, c: Claim, changes: seq<Change>)
    requires AllMoneyOk(before.lines) && (decision.Approve? || decision.Decide?)
    requires Apply(cid, before, decision) == Ok(c) && IsApproved(c)
    requires forall x :: x in changes ==> !x.Unapprove?
    ensures IsApproved(AfterChanges(cid, c, changes)) && AllDerived(AfterChanges(cid, c, changes).lines)
  {
    DecisionDerives(cid, before, decision, c);
    ChangesDerive(cid, c, changes);
  }

  lemma {:induction false} ChangesDerive(cid: ClaimId, c: Claim, changes: seq<Change>)
    requires IsApproved(c) && AllDerived(c.lines) && forall x :: x in changes ==> !x.Unapprove?
    ensures IsApproved(AfterChanges(cid, c, changes)) && AllDerived(AfterChanges(cid, c, changes).lines)
    decreases |changes|
  {
    if changes != [] {
      var change, r := changes[0], Apply(cid, c, changes[0]);
      assert change in changes && forall x :: x in changes[1..] ==> x in changes;
      if r.Ok? {
        OneChangeDerives(cid, c, change, r.value);
        ChangesDerive(cid, r.value, changes[1..]);
      } else {
        ChangesDerive(cid, c, changes[1..]);
      }
    }
  }

  lemma OneChangeDerives(cid: ClaimId, c: Claim, change: Change, after: Claim)
    requires IsApproved(c) && AllDerived(c.lines) && !change.Unapprove? && Apply(cid, c, change) == Ok(after)
    ensures IsApproved(after) && AllDerived(after.lines)
  {
    ApprovedAllows(cid, c, change, after);
    if change.Edit? { EditDerives(cid, c, change.p, change.target, change.patch, after); }
  }

  /** The limit holds when the claim is approved, and an edit accepted afterwards takes the
      claim past it exactly when it sets a rate under which the line, put back among the
      others, makes more than the limit. */
  lemma LimitOutlivedIff(cid: ClaimId, before: Claim, p: Principal, rules: seq<Rule>, c: Claim,
                         q: Option<Principal>, target: Option<LineId>, x: Patch, after: Claim)
    requires ClaimOk(cid, before) && AllMoneyOk(before.lines)
    requires Apply(cid, before, Approve(Some(p), rules)) == Ok(c) && Apply(cid, c, Edit(q, target, x)) == Ok(after)
    ensures !Over(p, c) && EditTarget(c.lines, target).Some?
    ensures Over(p, after) <==>
      p.limit.Some? && x.fx.Set? && PassesWith(c, EditTarget(c.lines, target).value, x.fx.value, p.limit.value)
  {
    ApprovedNow(cid, before, p, rules, c);
    EditIsCoding(cid, c, q, target, x, after);
    EditPassesIff(p, c, target, x, after);
  }

  lemma ApprovedNow(cid: ClaimId, before: Claim, p: Principal, rules: seq<Rule>, c: Claim)
    requires ClaimOk(cid, before) && AllMoneyOk(before.lines) && Apply(cid, before, Approve(Some(p), rules)) == Ok(c)
    ensures c.status.Approved? && c.approved == SumBase(ApprovedLines(c.lines)) && !Over(p, c)
    ensures forall i :: 0 <= i < |c.lines| ==> c.lines[i].status.LineApproved? && Derived(c.lines[i])
  {
    assert ApproveAll(before, Some(p), rules) == Ok(c);
    ApprovedWithinLimit(cid, before, p, rules, c);
  }

  lemma EditIsCoding(cid: ClaimId, c: Claim, q: Option<Principal>, target: Option<LineId>, x: Patch, after: Claim)
    requires IsApproved(c) && Apply(cid, c, Edit(q, target, x)) == Ok(after)
    ensures OnlyCoding(x) && EditExpense(c, target, x) == Ok(after) && EditTarget(c.lines, target).Some?
  {
  }

  // -- which lines forward -----------------------------------------------------------------

  /** An edit takes the relevance flag afresh from the line's category: it changes whether the
      line forwards exactly when the line is approved and the flag it got at capture is no
      longer what the category says. */
  lemma ForwardingFollowsEdit(cid: ClaimId, c: Claim, p: Option<Principal>, target: Option<LineId>, x: Patch,
                              after: Claim)
    requires IsApproved(c) && Apply(cid, c, Edit(p, target, x)) == Ok(after)
    ensures EditTarget(c.lines, target).Some?
    ensures
      var i := EditTarget(c.lines, target).value;
      var l := c.lines[i];
      && |after.lines| == |c.lines| && (forall k :: 0 <= k < |c.lines| && k != i ==> after.lines[k] == c.lines[k])
      && (IsRelevant(after.lines[i]) != IsRelevant(l) <==>
           l.status.LineApproved? && l.carbonRelevant != (l.category.None? || l.category.value in x.carbonCategories))
  {
    ApprovedExpenseIsLocked(cid, c, p, target, x, after);
  }

  // -- both happen ------------------------------------------------------------------------

  /** A company-card receipt of 100 Singapore dollars, with 3.0 as the rate of the month. */
  const RECEIPT :=
    Captured(None, Some("SGD"), Some(100.0), None, None, Some(7), true, CorporateCard, None, [], false, Some(3.0))

  const APPROVER := Principal(2, Partner, {1}, Some(500.0))

  /** The one line of the claim made of it. */
  function Receipt(fx: real, base: real, relevant: bool, status: LineStatus): Line {
    Line(LineId(0, 0), 1, None, Some("SGD"), Some(100.0), None, None, Some(fx), Some(100.0), Some(base), None,
         Some(7), relevant, CorporateCard, status, None, None, [], false, None, None)
  }

  function InReviewClaim(l: Line): Claim {
    Claim(1, InReview, Some(1), None, None, None, None, l.base, None, None, [l], 1)
  }

  function ApprovedClaim(l: Line): Claim {
    Claim(1, Approved, Some(1), Some(2), None, None, None, l.base, l.base, None, [l], 1)
  }

  lemma WholeCents(n: int)
    ensures Cents(n as real) == n as real
  {
    assert n as real * 100.0 == (100 * n) as real;
    assert ((100 * n) as real).Floor == 100 * n;
  }

  lemma SgdIsForeign()
    ensures IsForeign(Some("SGD"))
  {
    var upper := Map("SGD", UpperChar);
    assert upper[0] == UpperChar('S') == 'S';
  }

  lemma ReceiptMakes()
    ensures MakeLine(LineId(0, 0), 1, RECEIPT) == Receipt(3.0, 300.0, true, Pending)
  {
    SgdIsForeign();
    WholeCents(300);
    assert 100.0 * 3.0 == 300.0;
  }

  lemma OneLineTotals(l: Line)
    ensures SumBase([l]) == l.base
    ensures ApprovedLines([l]) == if l.status.LineApproved? then [l] else []
    ensures !l.payment.OutOfPocket? ==> OutOfPocketLines([l]) == []
  {
    assert [l][..0] == [];
  }

  /** The claim as captured. */
  lemma Captures()
    ensures L.CapturedClaim(0, L.Capture(1, Some(1), None, [RECEIPT], None, false)) ==
      InReviewClaim(Receipt(3.0, 300.0, true, Pending))
  {
    var x := L.Capture(1, Some(1), None, [RECEIPT], None, false);
    var l := Receipt(3.0, 300.0, true, Pending);
    ReceiptMakes();
    OneLineTotals(l);
    assert [RECEIPT][..0] == [];
    assert L.FillLines(0, L.Header(x), []) == L.Header(x);
    assert NextLineNo([]) == 1;
    var none: seq<Line> := [];
    assert none + [l] == [l];
    assert L.FillLines(0, L.Header(x), [RECEIPT]) == AppendLine(0, L.Header(x), RECEIPT);
  }

  lemma MayApproveIt()
    ensures MayApprove(InReviewClaim(Receipt(3.0, 300.0, true, Pending)), APPROVER, [])
  {
    var c := InReviewClaim(Receipt(3.0, 300.0, true, Pending));
    GateIsExact([], SubjectOf(c), APPROVER, 1, c.claimed);
  }

  lemma ApprovedTotals(l: Line)
    requires l.status.LineApproved? && !l.payment.OutOfPocket?
    ensures WithTotals(InReviewClaim(l).(status := Approved, approvedBy := Some(2))) == ApprovedClaim(l)
  {
    OneLineTotals(l);
  }

  lemma ApplyApproves(cid: ClaimId, c: Claim, p: Option<Principal>, rules: seq<Rule>)
    ensures Apply(cid, c, Approve(p, rules)) == ApproveAll(c, p, rules)
  {
  }

  lemma ApprovesClaim(c: Claim, l: Line)
    requires c.status.InReview? && |c.lines| == 1 && c.lines[0].base.Some? && l == c.lines[0].(status := LineApproved)
    requires MayApprove(c, APPROVER, [])
    ensures ApproveAll(c, Some(APPROVER), []) ==
      Ok(WithTotals(c.(lines := [l], status := Approved, approvedBy := Some(2))))
  {
    assert SetStatus(c.lines, LineApproved) == [l];
    assert FxResolved(c.lines);
  }

  lemma Approves()
    ensures Apply(0, InReviewClaim(Receipt(3.0, 300.0, true, Pending)), Approve(Some(APPROVER), [])) ==
      Ok(ApprovedClaim(Receipt(3.0, 300.0, true, LineApproved)))
  {
    var c, l := InReviewClaim(Receipt(3.0, 300.0, true, Pending)), Receipt(3.0, 300.0, true, LineApproved);
    MayApproveIt();
    ApprovedTotals(l);
    ApprovesClaim(c, l);
    ApplyApproves(0, c, Some(APPROVER), []);
    assert c.(lines := [l], status := Approved, approvedBy := Some(2)) ==
      InReviewClaim(l).(status := Approved, approvedBy := Some(2));
  }

  function NewRate(rate: Field<Option<real>>): Patch {
    Patch(Keep, Keep, Keep, Keep, Keep, false, Keep, None, false, {}, Keep, Keep, rate, Keep, Keep, None)
  }

  lemma Edits(l: Line, x: Patch, m: Line)
    requires l.status.LineApproved? && l.payment.CorporateCard? && OnlyCoding(x) && m == EditLine(l, x)
    ensures Apply(0, ApprovedClaim(l), Edit(None, None, x)) == Ok(ApprovedClaim(m))
  {
    OneLineTotals(m);
    assert ApprovedClaim(l).lines[0 := m] == [m];
  }

  /** From the empty tables: captured at 300 ringgit, approved by somebody with a limit of 500,
      then worth 900 under a corrected rate, still approved by the same person. And since the
      category stopped being carbon-relevant meanwhile, the line no longer forwards. */
  lemma RateEditCanPassLimit() returns (start: L.Op, approve: L.Op, edit: L.Op, held: Claim, passed: Claim)
    ensures start.Start? && approve.Change? && approve.change == Approve(Some(APPROVER), [])
    ensures edit.Change? && edit.change.Edit?
    ensures L.Step(L.Step(L.EMPTY, start).0, approve) == (L.EMPTY.(claims := map[0 := held]), L.Done)
    ensures L.Step(L.EMPTY.(claims := map[0 := held]), edit) == (L.EMPTY.(claims := map[0 := passed]), L.Done)
    ensures held.status.Approved? && held.approved == Some(300.0) && !Over(APPROVER, held) && Relevant(held.lines) != []
    ensures passed.status.Approved? && passed.approved == Some(900.0) && Over(APPROVER, passed)
    ensures Relevant(passed.lines) == []
  {
    start := L.Start(0, L.Capture(1, Some(1), None, [RECEIPT], None, false));
    approve := L.Op.Change(0, Approve(Some(APPROVER), []));
    edit := L.Op.Change(0, Edit(None, None, NewRate(Set(Some(9.0)))));
    var pending, approved := Receipt(3.0, 300.0, true, Pending), Receipt(3.0, 300.0, true, LineApproved);
    var rated := Receipt(9.0, 900.0, false, LineApproved);
    held, passed := ApprovedClaim(approved), ApprovedClaim(rated);
    Captures();
    Approves();
    Rerated();
    ChangeStep(InReviewClaim(pending), approve.change, held);
    ChangeStep(held, edit.change, passed);
    assert L.Step(L.EMPTY, start).0 == OneClaim(InReviewClaim(pending));
    OneRelevant(approved);
    OneRelevant(rated);
  }

  function OneClaim(c: Claim): Db { L.EMPTY.(claims := map[0 := c]) }

  lemma ChangeStep(c: Claim, change: Change, after: Claim)
    requires Apply(0, c, change) == Ok(after)
    ensures L.Step(OneClaim(c), L.Op.Change(0, change)) == (OneClaim(after), L.Done)
  {
    assert map[0 := c][0 := after] == map[0 := after];
  }

  lemma Rerated()
    ensures Apply(0, ApprovedClaim(Receipt(3.0, 300.0, true, LineApproved)),
                  Edit(None, None, NewRate(Set(Some(9.0))))) ==
      Ok(ApprovedClaim(Receipt(9.0, 900.0, false, LineApproved)))
  {
    WholeCents(900);
    assert 100.0 * 9.0 == 900.0;
    Edits(Receipt(3.0, 300.0, true, LineApproved), NewRate(Set(Some(9.0))), Receipt(9.0, 900.0, false, LineApproved));
  }

  lemma OneRelevant(l: Line)
    ensures Relevant([l]) == if IsRelevant(l) then [l] else []
  {
    assert [l][..0] == [];
  }
}
