/** What a successful approval or decision says about the claim
    (src/eclaim/services/claims.py, src/eclaim/services/sod.py). */
module ClaimApproval {
  import opened Prelude
  import opened ApprovalMatrix
  import opened ClaimModel
  import opened ClaimChanges

  /** Who may approve the claim, in terms of its lines alone: somebody else than its
      maker, with a role and a grant, within their own limit and what the matrix demands
      for the complete home-currency total of every line. */
  predicate Entitled(c: Claim, p: Principal, rules: seq<Rule>) {
    && (c.createdBy.None? || c.createdBy.value != p.user)
    && p.role != Viewer && c.client in p.clients
    && (p.limit.Some? && (exists l :: l in c.lines && l.base.Some?) ==> SumAll(c.lines) <= p.limit.value)
    && MatrixAllows(rules, Subject(EClaim, c.department, Categories(c.lines), SumAll(c.lines)), p)
  }

  lemma MayApproveIsEntitled(cid: ClaimId, c: Claim, p: Principal, rules: seq<Rule>)
    requires ClaimOk(cid, c)
    ensures MayApprove(c, p, rules) <==> Entitled(c, p, rules)
  {
    SumBaseIsSum(c.lines);
    assert SubjectOf(c) == Subject(EClaim, c.department, Categories(c.lines), SumAll(c.lines));
    GateIsExact(rules, SubjectOf(c), p, c.client, c.claimed);
    if c.claimed.Some? {
      var i :| 0 <= i < |c.lines| && c.lines[i].base.Some?;
      assert c.lines[i] in c.lines;
    }
  }

  predicate AllConverted(c: Claim) {
    forall l :: l in c.lines && l.total.Some? ==> l.base.Some?
  }

  lemma ConvertedIsResolved(c: Claim)
    ensures FxResolved(c.lines) <==> AllConverted(c)
  {
    if FxResolved(c.lines) {
      forall l | l in c.lines && l.total.Some? ensures l.base.Some? {
        var i :| 0 <= i < |c.lines| && c.lines[i] == l;
      }
    }
    if AllConverted(c) {
      forall i | 0 <= i < |c.lines| && c.lines[i].total.Some? ensures c.lines[i].base.Some? {
        assert c.lines[i] in c.lines;
      }
    }
  }

  /** `approve` by a principal succeeds exactly on an in-review claim whose every amount is
      converted, for an entitled principal. */
  lemma ApproveIsSound(cid: ClaimId, c: Claim, p: Principal, rules: seq<Rule>)
    requires ClaimOk(cid, c)
    ensures ApproveAll(c, Some(p), rules).Ok? <==> c.status.InReview? && AllConverted(c) && Entitled(c, p, rules)
  {
    MayApproveIsEntitled(cid, c, p, rules);
    ConvertedIsResolved(c);
  }

  /** Everything claimed is then approved, by that principal. */
  lemma ApproveApprovesAll(c: Claim, p: Principal, rules: seq<Rule>)
    requires c.claimed == SumBase(c.lines) && ApproveAll(c, Some(p), rules).Ok?
    ensures
      var after := ApproveAll(c, Some(p), rules).value;
      && after.status == Approved && after.approvedBy == Some(p.user)
      && after.claimed == c.claimed && after.approved == c.claimed
  {
    var lines := SetStatus(c.lines, LineApproved);
    AllApproved(lines);
    SameAmountsSameSum(c.lines, lines);
  }

  lemma {:induction false} AllApproved(lines: seq<Line>)
    requires forall i :: 0 <= i < |lines| ==> lines[i].status == LineApproved
    ensures ApprovedLines(lines) == lines
  {
    if lines != [] { AllApproved(lines[..|lines| - 1]); }
  }

  /** The same gate stands before a partial approval. */
  lemma DecideIsSound(cid: ClaimId, c: Claim, p: Principal, decisions: map<LineId, Decision>, remark: Option<string>,
                      rules: seq<Rule>)
    requires ClaimOk(cid, c)
    ensures DecideEach(c, p, decisions, remark, rules).Ok? <==>
      && c.status.InReview? && AllConverted(c) && Entitled(c, p, rules)
      && forall id :: id in decisions ==> (exists l :: l in c.lines && l.id == id) && DecisionOk(decisions[id])
  {
    MayApproveIsEntitled(cid, c, p, rules);
    ConvertedIsResolved(c);
    DecisionsKnown(c.lines, decisions);
  }

  /** Deciding lines leaves what was claimed untouched. */
  lemma DecideKeepsClaimed(c: Claim, p: Principal, decisions: map<LineId, Decision>, remark: Option<string>,
                           rules: seq<Rule>)
    requires c.claimed == SumBase(c.lines) && DecideEach(c, p, decisions, remark, rules).Ok?
    ensures DecideEach(c, p, decisions, remark, rules).value.claimed == c.claimed
  {
    SameAmountsSameSum(c.lines, DecideLines(c.lines, decisions));
  }

  lemma DecisionsKnown(lines: seq<Line>, decisions: map<LineId, Decision>)
    ensures DecisionsOk(lines, decisions) <==>
      forall id :: id in decisions ==> (exists l :: l in lines && l.id == id) && DecisionOk(decisions[id])
  {
    forall id | id in decisions ensures IndexOf(lines, id).Some? <==> exists l :: l in lines && l.id == id {
      if IndexOf(lines, id).Some? {
        assert lines[IndexOf(lines, id).value] in lines;
      }
    }
  }

  /** The header status of a decision: back for rework while a line is open, approved when
      every line is, rejected when all (and any) are, in part otherwise. */
  lemma RollUpMeans(lines: seq<Line>)
    ensures RollUp(lines) == SentBack <==> exists l :: l in lines && (l.status.Queried? || l.status.Pending?)
    ensures RollUp(lines) == Approved <==> forall l :: l in lines ==> l.status.LineApproved?
    ensures RollUp(lines) == Rejected <==> lines != [] && forall l :: l in lines ==> l.status.LineRejected?
    ensures RollUp(lines) == PartiallyApproved <==>
      && (forall l :: l in lines ==> l.status.LineApproved? || l.status.LineRejected?)
      && (exists l :: l in lines && l.status.LineApproved?) && (exists l :: l in lines && l.status.LineRejected?)
  {
    var statuses := set l | l in lines :: l.status;
    if lines != [] {
      assert lines[0] in lines;
      assert lines[0].status in statuses;
    }
    forall l | l in lines ensures l.status in statuses {}
    if statuses == {LineRejected} {
      forall l | l in lines ensures l.status == LineRejected { assert l.status in statuses; }
    }
    if lines != [] && forall l :: l in lines ==> l.status.LineRejected? {
      assert statuses == {LineRejected};
    }
  }

  /** Sum of the home-currency amounts of the approved lines, counted line by line. */
  function ApprovedSum(lines: seq<Line>, paidBackOnly: bool): real {
    if lines == [] then 0.0
    else
      var last := lines[|lines| - 1];
      ApprovedSum(lines[..|lines| - 1], paidBackOnly)
        + (if last.status.LineApproved? && (paidBackOnly ==> last.payment.OutOfPocket?) then BaseOrZero(last) else 0.0)
  }

  lemma {:induction false} ApprovedSumIs(lines: seq<Line>)
    ensures SumAll(ApprovedLines(lines)) == ApprovedSum(lines, false)
  {
    if lines != [] {
      var init, last := lines[..|lines| - 1], lines[|lines| - 1];
      ApprovedSumIs(init);
      var approved := ApprovedLines(init);
      if last.status.LineApproved? {
        SumAllAppend(approved, last);
      } else {
        assert ApprovedLines(lines) == approved;
      }
    }
  }

  lemma {:induction false} PaidBackSumIs(lines: seq<Line>)
    ensures SumAll(OutOfPocketLines(ApprovedLines(lines))) == ApprovedSum(lines, true)
  {
    if lines != [] {
      var init, last := lines[..|lines| - 1], lines[|lines| - 1];
      PaidBackSumIs(init);
      var approved := ApprovedLines(init);
      if last.status.LineApproved? {
        OutOfPocketAppend(approved, last);
        PaidBackAppend(OutOfPocketLines(approved), last);
      } else {
        assert ApprovedLines(lines) == approved;
      }
    }
  }

  lemma PaidBackAppend(paid: seq<Line>, last: Line)
    ensures SumAll(paid + (if last.payment.OutOfPocket? then [last] else [])) ==
      SumAll(paid) + (if last.payment.OutOfPocket? then BaseOrZero(last) else 0.0)
  {
    if last.payment.OutOfPocket? {
      SumAllAppend(paid, last);
    } else {
      assert paid + [] == paid;
    }
  }

  /** In every reachable state the header totals are the line sums: of everything for what
      is claimed, of the approved lines (and of those paid out of pocket) once decided. */
  lemma TotalsAreLineSums(cid: ClaimId, c: Claim)
    requires ClaimOk(cid, c)
    ensures AmountOrZero(c.claimed) == SumAll(c.lines)
    ensures Decided(c.status) ==> AmountOrZero(c.approved) == ApprovedSum(c.lines, false)
    ensures Decided(c.status) ==> AmountOrZero(c.reimbursable) == ApprovedSum(c.lines, true)
  {
    SumBaseIsSum(c.lines);
    SumBaseIsSum(ApprovedLines(c.lines));
    SumBaseIsSum(OutOfPocketLines(ApprovedLines(c.lines)));
    ApprovedSumIs(c.lines);
    PaidBackSumIs(c.lines);
  }
}
