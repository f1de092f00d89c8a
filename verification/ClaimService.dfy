/** The claim service as it runs: methods that load a claim, loop over its lines and write
    the tables back, each shown to do what the specification step says
    (src/eclaim/services/claims.py). */
module ClaimService {
  import opened Prelude
  import opened ApprovalMatrix
  import opened ClaimModel
  import opened ClaimChanges
  import opened ClaimLifecycle

  lemma Prefixes<T>(s: seq<T>, i: nat)
    requires i < |s|
    ensures s[..i + 1][..i] == s[..i] && s[..i + 1][i] == s[i]
  {
  }

  // -- roll-ups -----------------------------------------------------------------------

  /** `_sum`: None when no line has a home-currency amount. */
  method SumOf(lines: seq<Line>) returns (sum: Option<real>)
    ensures sum == SumBase(lines)
  {
    sum := None;
    var i := 0;
    while i < |lines|
      invariant 0 <= i <= |lines| && sum == SumBase(lines[..i])
    {
      Prefixes(lines, i);
      if lines[i].base.Some? {
        sum := Some(if sum.Some? then sum.value + lines[i].base.value else lines[i].base.value);
      }
      i := i + 1;
    }
    assert lines[..i] == lines;
  }

  method RecomputeTotals(c: Claim) returns (r: Claim)
    ensures r == WithTotals(c)
  {
    var approved: seq<Line>, paidBack: seq<Line> := [], [];
    var i := 0;
    while i < |c.lines|
      invariant 0 <= i <= |c.lines|
      invariant approved == ApprovedLines(c.lines[..i]) && paidBack == OutOfPocketLines(approved)
    {
      var line := c.lines[i];
      assert c.lines[..i + 1] == c.lines[..i] + [line];
      ApprovedAppend(c.lines[..i], line);
      OutOfPocketAppend(approved, line);
      if line.status.LineApproved? {
        approved := approved + [line];
        if line.payment.OutOfPocket? { paidBack := paidBack + [line]; }
      }
      i := i + 1;
    }
    assert c.lines[..i] == c.lines;
    var claimed := SumOf(c.lines);
    var total := SumOf(approved);
    var reimbursable := SumOf(paidBack);
    r := c.(claimed := claimed, approved := total, reimbursable := reimbursable);
  }

  /** `_doc_gross_totals`: one pass over the lines into a dictionary of documents. */
  method DocGrossTotals(lines: seq<Line>) returns (totals: map<DocKey, real>)
    ensures forall l :: l in lines ==> DocOf(l.docNo, l.id) in totals
    ensures forall key :: key in totals ==> totals[key] == DocGross(lines, key)
  {
    totals := map[];
    var i := 0;
    while i < |lines|
      invariant 0 <= i <= |lines|
      invariant forall k :: 0 <= k < i ==> DocOf(lines[k].docNo, lines[k].id) in totals
      invariant forall key :: key in totals ==> totals[key] == DocGross(lines[..i], key)
      invariant forall key :: key !in totals ==> DocGross(lines[..i], key) == 0.0
    {
      Prefixes(lines, i);
      var key := DocOf(lines[i].docNo, lines[i].id);
      var sofar := if key in totals then totals[key] else 0.0;
      if lines[i].total.None? {
        totals := totals[key := sofar];
      } else {
        totals := totals[key := sofar + lines[i].total.value];
      }
      i := i + 1;
    }
    assert lines[..i] == lines;
  }

  /** The loops of `approve`, `send_back` and `reject` over the lines. */
  method MarkLines(lines: seq<Line>, status: LineStatus) returns (marked: seq<Line>)
    ensures marked == SetStatus(lines, status)
  {
    marked := lines;
    var i := 0;
    while i < |lines|
      invariant 0 <= i <= |lines| == |marked|
      invariant forall k :: 0 <= k < |lines| ==> marked[k] == if k < i then lines[k].(status := status) else lines[k]
    {
      marked := marked[i := marked[i].(status := status)];
      i := i + 1;
    }
  }

  method ClearLines(lines: seq<Line>) returns (cleared: seq<Line>)
    ensures cleared == ClearDecisions(lines)
  {
    cleared := lines;
    var i := 0;
    while i < |lines|
      invariant 0 <= i <= |lines| == |cleared|
      invariant forall k :: 0 <= k < |lines| ==>
        cleared[k] == if k < i then lines[k].(status := Pending, reason := None) else lines[k]
    {
      cleared := cleared[i := cleared[i].(status := Pending, reason := None)];
      i := i + 1;
    }
  }

  /** The lines once the decisions on the lines in `done` are applied. */
  function DecidedSoFar(lines: seq<Line>, decisions: map<LineId, Decision>, done: seq<LineId>): (r: seq<Line>)
    ensures |r| == |lines|
    ensures forall k :: 0 <= k < |r| ==>
      r[k] == if lines[k].id in done then DecideLine(lines[k], decisions) else lines[k]
  {
    seq(|lines|,
        k requires 0 <= k < |lines| => if lines[k].id in done then DecideLine(lines[k], decisions) else lines[k])
  }

  lemma DecideOne(lines: seq<Line>, decisions: map<LineId, Decision>, done: seq<LineId>, id: LineId, i: nat)
    requires id !in done && i < |lines| && lines[i].id == id
    requires forall j, k :: 0 <= j < k < |lines| ==> lines[j].id != lines[k].id
    ensures DecidedSoFar(lines, decisions, done + [id]) ==
      DecidedSoFar(lines, decisions, done)[i := DecideLine(DecidedSoFar(lines, decisions, done)[i], decisions)]
  {
    var before, after := DecidedSoFar(lines, decisions, done), DecidedSoFar(lines, decisions, done + [id]);
    forall k | 0 <= k < |lines| ensures after[k] == if k == i then DecideLine(before[i], decisions) else before[k] {
      if k < i { assert lines[k].id != lines[i].id; }
      if i < k { assert lines[i].id != lines[k].id; }
    }
  }

  lemma DecideEvery(lines: seq<Line>, decisions: map<LineId, Decision>, done: seq<LineId>)
    requires forall id :: id in done <==> id in decisions
    ensures DecidedSoFar(lines, decisions, done) == DecideLines(lines, decisions)
  {
  }

  /** The loop of `decide` over the decisions, in the order the caller gave them. It stops
      at the first bad one: the caller rolls back. */
  method ApplyDecisions(lines: seq<Line>, decisions: map<LineId, Decision>, order: seq<LineId>)
    returns (ok: bool, decided: seq<Line>)
    requires forall j, k :: 0 <= j < k < |lines| ==> lines[j].id != lines[k].id
    requires forall j, k :: 0 <= j < k < |order| ==> order[j] != order[k]
    requires forall id :: id in order <==> id in decisions
    ensures ok <==> DecisionsOk(lines, decisions)
    ensures ok ==> decided == DecideLines(lines, decisions)
  {
    decided := lines;
    var n := 0;
    while n < |order|
      invariant 0 <= n <= |order|
      invariant forall j :: 0 <= j < n ==> IndexOf(lines, order[j]).Some? && DecisionOk(decisions[order[j]])
      invariant decided == DecidedSoFar(lines, decisions, order[..n])
    {
      var id := order[n];
      var i := IndexOf(lines, id);
      if i.None? || !DecisionOk(decisions[id]) {
        return false, decided;
      }
      DecideOne(lines, decisions, order[..n], id, i.value);
      assert order[..n + 1] == order[..n] + [id];
      decided := decided[i.value := DecideLine(decided[i.value], decisions)];
      n := n + 1;
    }
    ok := true;
    assert order[..n] == order;
    DecideEvery(lines, decisions, order);
  }

  // -- merging and splitting ----------------------------------------------------------------

  method GatherPages(selected: seq<Line>) returns (pages: seq<Page>)
    ensures pages == PagesOf(selected)
  {
    pages := [];
    var i := 0;
    while i < |selected|
      invariant 0 <= i <= |selected| && PagesOf(selected) == pages + PagesOf(selected[i..])
    {
      var rest := selected[i..];
      assert rest[0] == selected[i] && rest[1..] == selected[i + 1..];
      pages := pages + LinePages(selected[i]);
      i := i + 1;
    }
  }

  lemma {:induction false} FoldStep(lines: seq<Line>, i: nat, ids: set<LineId>, composite: Page, pages: seq<Page>,
                                    survived: bool)
    requires i < |lines|
    ensures MergedLines(lines[i..], ids, composite, pages, survived) ==
      (if lines[i].id !in ids then [lines[i]]
       else if survived then []
       else [lines[i].(image := Some(composite), pages := pages)])
      + MergedLines(lines[i + 1..], ids, composite, pages, survived || lines[i].id in ids)
  {
    assert lines[i..][0] == lines[i] && lines[i..][1..] == lines[i + 1..];
  }

  /** The survivor takes the pages, the other selected lines are deleted. */
  method FoldLines(lines: seq<Line>, ids: set<LineId>, composite: Page, pages: seq<Page>) returns (merged: seq<Line>)
    ensures merged == MergedLines(lines, ids, composite, pages, false)
  {
    merged := [];
    var survived, i := false, 0;
    while i < |lines|
      invariant 0 <= i <= |lines|
      invariant MergedLines(lines, ids, composite, pages, false) ==
        merged + MergedLines(lines[i..], ids, composite, pages, survived)
    {
      var line := lines[i];
      FoldStep(lines, i, ids, composite, pages, survived);
      var kept :=
        if line.id !in ids then [line]
        else if survived then []
        else [line.(image := Some(composite), pages := pages)];
      survived := survived || line.id in ids;
      ConcatAssoc(merged, kept, MergedLines(lines[i + 1..], ids, composite, pages, survived));
      merged := merged + kept;
      i := i + 1;
    }
  }

  /** `_renumber`: negatives first, then 1 to n. */
  method RenumberLines(lines: seq<Line>) returns (r: seq<Line>)
    ensures r == Renumber(lines)
  {
    r := lines;
    var i := 0;
    while i < |lines|
      invariant 0 <= i <= |lines| == |r|
      invariant forall k :: 0 <= k < |r| ==> r[k] == if k < i then Numbered(lines[k], -(k + 1)) else lines[k]
    {
      r := r[i := Numbered(r[i], -(i + 1))];
      i := i + 1;
    }
    i := 0;
    while i < |lines|
      invariant 0 <= i <= |lines| == |r|
      invariant forall k :: 0 <= k < |r| ==> r[k] == Numbered(lines[k], if k < i then k + 1 else -(k + 1))
    {
      r := r[i := Numbered(r[i], i + 1)];
      i := i + 1;
    }
  }

  /** The line keeps its first page; every further page becomes a line of its own. */
  method SplitPages(line: Line, serials: nat) returns (parts: seq<Line>)
    requires LinePages(line) != []
    ensures parts == SplitParts(line, serials)
  {
    var pages := LinePages(line);
    parts := [line.(image := Some(pages[0]), pages := [])];
    var offset := 1;
    while offset < |pages|
      invariant 1 <= offset <= |pages| && parts == SplitParts(line, serials)[..offset]
    {
      parts := parts + [SplitOff(line, LineId(line.id.claim, serials + offset - 1), pages[offset])];
      offset := offset + 1;
    }
  }

  // -- the handoff rows -----------------------------------------------------------------------

  /** The rows of a release or a reversal, each with the gross of its whole document. */
  method MakeRows(cid: ClaimId, lines: seq<Line>, batch: nat, period: nat, forward: bool) returns (rows: seq<Handoff>)
    ensures rows == Rows(cid, lines, batch, period, forward)
  {
    var relevant := Relevant(lines);
    var totals := DocGrossTotals(lines);
    rows := [];
    var i := 0;
    while i < |relevant|
      invariant 0 <= i <= |relevant| && rows == Rows(cid, lines, batch, period, forward)[..i]
    {
      var line := relevant[i];
      assert line in lines;
      var gross := totals[DocOf(line.docNo, line.id)];
      var row :=
        if forward then
          Handoff(cid, line.id, batch, true, period, line.category, line.currency,
                  line.total, line.net, line.tax, line.base, line.quantity, line.docNo, Some(gross))
        else
          Handoff(cid, line.id, batch, false, period, line.category, line.currency,
                  Negated(line.total), Negated(line.net), Negated(line.tax), Negated(line.base), Negated(line.quantity),
                  line.docNo, Some(gross));
      assert row == Row(cid, lines, line, batch, period, forward);
      rows := rows + [row];
      i := i + 1;
    }
  }

  /** `add_line` for every document of a capture. */
  method AddLines(cid: ClaimId, header: Claim, docs: seq<Captured>) returns (c: Claim)
    ensures c == FillLines(cid, header, docs)
  {
    c := header;
    var i := 0;
    while i < |docs|
      invariant 0 <= i <= |docs| && c == FillLines(cid, header, docs[..i])
    {
      Prefixes(docs, i);
      ghost var before := c;
      var line := MakeLine(LineId(cid, c.serials), NextLineNo(c.lines), docs[i]);
      c := RecomputeTotals(c.(lines := c.lines + [line], serials := c.serials + 1));
      assert c == AppendLine(cid, before, docs[i]);
      i := i + 1;
    }
    assert docs[..i] == docs;
  }

  method MergeSelected(c: Claim, ids: set<LineId>, composite: Page) returns (r: Result<Claim, Error>)
    ensures r == ClaimChanges.Merge(c, ids, composite)
  {
    var selected := Selected(c.lines, ids);
    if |ids| < 2 || |selected| != |ids| { return Err(Invalid); }
    if exists l :: l in selected && l.mileage { return Err(Invalid); }
    var pages := GatherPages(selected);
    if |pages| < 2 { return Err(Invalid); }
    var lines := FoldLines(c.lines, ids, composite, pages);
    lines := RenumberLines(lines);
    var merged := RecomputeTotals(c.(lines := lines));
    r := Ok(merged);
  }

  method SplitLineOf(c: Claim, id: LineId) returns (r: Result<Claim, Error>)
    ensures r == ClaimChanges.Split(c, id)
  {
    var i := IndexOf(c.lines, id);
    if i.None? || |LinePages(c.lines[i.value])| < 2 { return Err(Invalid); }
    var parts := SplitPages(c.lines[i.value], c.serials);
    var lines := RenumberLines(Spliced(c.lines, i.value, parts));
    var split := RecomputeTotals(c.(lines := lines, serials := c.serials + |parts| - 1));
    r := Ok(split);
  }

  lemma RowKeyOf(cid: ClaimId, lines: seq<Line>, batch: nat, period: nat, forward: bool, i: nat)
    requires i < |Relevant(lines)|
    ensures
      var row := Rows(cid, lines, batch, period, forward)[i];
      row.line == Relevant(lines)[i].id && row.line in LineIds(Relevant(lines)) && row.forward == forward
  {
    assert Relevant(lines)[i] in Relevant(lines);
  }

  lemma RowOfKey(relevant: seq<Line>, id: LineId) returns (i: nat)
    requires id in LineIds(relevant)
    ensures i < |relevant| && relevant[i].id == id
  {
    var l :| l in relevant && l.id == id;
    i :| 0 <= i < |relevant| && relevant[i] == l;
  }

  lemma RowKeysTaken(handoffs: seq<Handoff>, cid: ClaimId, lines: seq<Line>, batch: nat, period: nat, forward: bool)
    ensures
      var rows := Rows(cid, lines, batch, period, forward);
      KeyTaken(handoffs, LineIds(Relevant(lines)), forward) <==>
        exists i :: 0 <= i < |rows| && KeyTaken(handoffs, {rows[i].line}, rows[i].forward)
  {
    var rows := Rows(cid, lines, batch, period, forward);
    if h :| h in handoffs && h.line in LineIds(Relevant(lines)) && h.forward == forward {
      var i := RowOfKey(Relevant(lines), h.line);
      RowKeyOf(cid, lines, batch, period, forward, i);
      assert KeyTaken(handoffs, {rows[i].line}, rows[i].forward);
    }
    if i :| 0 <= i < |rows| && KeyTaken(handoffs, {rows[i].line}, rows[i].forward) {
      RowKeyOf(cid, lines, batch, period, forward, i);
    }
  }

  class ClaimService {
    var claims: map<ClaimId, Claim>
    var handoffs: seq<Handoff>
    var batches: seq<Batch>

    function State(): Db
      reads this
    {
      Db(claims, handoffs, batches)
    }

    constructor ()
      ensures State() == EMPTY
    {
      claims, handoffs, batches := map[], [], [];
    }

    /** `start_claim`, then `add_line` for every document, then `submit`. */
    method Capture(cid: ClaimId, x: Capture) returns (outcome: Outcome)
      modifies this
      ensures (State(), outcome) == Step(old(State()), Start(cid, x))
    {
      if cid in claims { return Failed(Conflict); }
      var c := AddLines(cid, Header(x), x.lines);
      claims := claims[cid := Submit(c, x)];
      outcome := Done;
    }

    method Approve(cid: ClaimId, p: Option<Principal>, rules: seq<Rule>) returns (outcome: Outcome)
      modifies this
      ensures (State(), outcome) == Step(old(State()), Change(cid, Change.Approve(p, rules)))
    {
      if cid !in claims { return Failed(NotFound); }
      var c := claims[cid];
      if !c.status.InReview? { return Failed(Illegal); }
      if !FxResolved(c.lines) { return Failed(Invalid); }
      if p.Some? {
        if !MayApprove(c, p.value, rules) { return Failed(Forbidden); }
        c := c.(approvedBy := Some(p.value.user));
      }
      var lines := MarkLines(c.lines, LineApproved);
      c := RecomputeTotals(c.(lines := lines, status := Approved));
      claims := claims[cid := c];
      outcome := Done;
    }

    method Decide(cid: ClaimId, reviewer: Principal, decisions: map<LineId, Decision>, order: seq<LineId>,
                  remark: Option<string>, rules: seq<Rule>)
      returns (outcome: Outcome)
      requires cid in claims ==> LinesOk(cid, claims[cid].lines, claims[cid].serials)
      requires forall j, k :: 0 <= j < k < |order| ==> order[j] != order[k]
      requires forall id :: id in order <==> id in decisions
      modifies this
      ensures (State(), outcome) == Step(old(State()), Change(cid, Change.Decide(reviewer, decisions, remark, rules)))
    {
      if cid !in claims { return Failed(NotFound); }
      var c := claims[cid];
      if !c.status.InReview? { return Failed(Illegal); }
      if !FxResolved(c.lines) { return Failed(Invalid); }
      if !MayApprove(c, reviewer, rules) { return Failed(Forbidden); }
      IdsDistinct(cid, c.lines, c.serials);
      var ok, lines := ApplyDecisions(c.lines, decisions, order);
      if !ok { return Failed(Invalid); }
      var status := RollUp(lines);
      if status.Approved? || status.PartiallyApproved? { c := c.(approvedBy := Some(reviewer.user)); }
      c := RecomputeTotals(c.(lines := lines, status := status, note := remark));
      claims := claims[cid := c];
      outcome := Done;
    }

    method SendBack(cid: ClaimId, reviewer: Principal, rules: seq<Rule>) returns (outcome: Outcome)
      modifies this
      ensures (State(), outcome) == Step(old(State()), Change(cid, Change.SendBack(reviewer, rules)))
    {
      if cid !in claims { return Failed(NotFound); }
      var c := claims[cid];
      if !c.status.InReview? { return Failed(Illegal); }
      if !MayApprove(c, reviewer, rules) { return Failed(Forbidden); }
      var lines := MarkLines(c.lines, Pending);
      claims := claims[cid := c.(lines := lines, status := Submitted)];
      outcome := Done;
    }

    method Reject(cid: ClaimId, reviewer: Principal, rules: seq<Rule>) returns (outcome: Outcome)
      modifies this
      ensures (State(), outcome) == Step(old(State()), Change(cid, Change.Reject(reviewer, rules)))
    {
      if cid !in claims { return Failed(NotFound); }
      var c := claims[cid];
      if !c.status.InReview? { return Failed(Illegal); }
      if !MayApprove(c, reviewer, rules) { return Failed(Forbidden); }
      var lines := MarkLines(c.lines, LineRejected);
      claims := claims[cid := c.(lines := lines, status := Rejected)];
      outcome := Done;
    }

    method Unapprove(cid: ClaimId, reviewer: Principal) returns (outcome: Outcome)
      modifies this
      ensures (State(), outcome) == Step(old(State()), Change(cid, Change.Unapprove(reviewer)))
    {
      if cid !in claims { return Failed(NotFound); }
      var c := claims[cid];
      if !c.status.Approved? && !c.status.PartiallyApproved? { return Failed(Illegal); }
      if reviewer.role == Viewer || !reviewer.CanAccess(c.client) { return Failed(Forbidden); }
      var lines := ClearLines(c.lines);
      c := RecomputeTotals(c.(lines := lines, status := InReview, approvedBy := None, note := None));
      claims := claims[cid := c];
      outcome := Done;
    }

    method Merge(cid: ClaimId, p: Option<Principal>, ids: set<LineId>, composite: Page, allowed: bool)
      returns (outcome: Outcome)
      modifies this
      ensures (State(), outcome) == Step(old(State()), Change(cid, MergeLines(p, ids, composite, allowed)))
    {
      if cid !in claims { return Failed(NotFound); }
      var c := claims[cid];
      if !MayWrite(p, c.client) { return Failed(Forbidden); }
      if !Open(c.status) || !allowed { return Failed(Illegal); }
      var r := MergeSelected(c, ids, composite);
      if r.Err? { return Failed(r.error); }
      claims := claims[cid := r.value];
      outcome := Done;
    }

    method Split(cid: ClaimId, p: Option<Principal>, id: LineId, allowed: bool) returns (outcome: Outcome)
      modifies this
      ensures (State(), outcome) == Step(old(State()), Change(cid, SplitLine(p, id, allowed)))
    {
      if cid !in claims { return Failed(NotFound); }
      var c := claims[cid];
      if !MayWrite(p, c.client) { return Failed(Forbidden); }
      if !Open(c.status) || !allowed { return Failed(Illegal); }
      var r := SplitLineOf(c, id);
      if r.Err? { return Failed(r.error); }
      claims := claims[cid := r.value];
      outcome := Done;
    }

    /** Rolls back to a savepoint. */
    method Restore(savepoint: Db)
      modifies this
      ensures State() == savepoint
    {
      claims, handoffs, batches := savepoint.claims, savepoint.handoffs, savepoint.batches;
    }

    /** Inserts the rows one by one until one trips over the key of a row of an earlier batch;
        rows of one batch are of different lines. */
    method AddHandoffs(rows: seq<Handoff>) returns (clash: bool)
      modifies this
      ensures clash <==> exists i :: 0 <= i < |rows| && KeyTaken(old(handoffs), {rows[i].line}, rows[i].forward)
      ensures !clash ==> State() == old(State()).(handoffs := old(handoffs) + rows)
    {
      clash := false;
      var earlier := handoffs;
      var i := 0;
      while i < |rows|
        invariant 0 <= i <= |rows| && !clash
        invariant forall k :: 0 <= k < i ==> !KeyTaken(earlier, {rows[k].line}, rows[k].forward)
        invariant State() == old(State()).(handoffs := earlier + rows[..i])
      {
        handoffs := handoffs + [rows[i]];
        assert rows[..i + 1] == rows[..i] + [rows[i]];
        if KeyTaken(earlier, {rows[i].line}, rows[i].forward) { return true; }
        i := i + 1;
      }
      assert rows[..i] == rows;
    }

    /** The savepoint shared by `release` and `reverse`. */
    method PublishRows(cid: ClaimId, digest: Digest, period: nat, forward: bool) returns (outcome: Outcome)
      requires cid in claims
      modifies this
      ensures (State(), outcome) == Publish(old(State()), cid, old(claims[cid]), Released, digest, period, forward)
    {
      var c := claims[cid];
      var savepoint := State();
      var batch := |batches|;
      var rows := MakeRows(cid, c.lines, batch, period, forward);
      var clash := BatchByHash(batches, c.client, digest).Some?;
      batches := batches + [Batch(c.client, digest, |rows|)];
      if !clash {
        RowKeysTaken(handoffs, cid, c.lines, batch, period, forward);
        clash := AddHandoffs(rows);
      }
      if !clash {
        claims := claims[cid := c.(status := Released)];
        return Batched(batch);
      }
      Restore(savepoint);
      var prior := BatchByHash(batches, c.client, digest);
      outcome := if prior.Some? then Batched(prior.value) else Failed(Conflict);
    }

    method Release(cid: ClaimId, p: Option<Principal>, posting: Posting, period: nat) returns (outcome: Outcome)
      modifies this
      ensures (State(), outcome) == Step(old(State()), Op.Release(cid, p, posting, period))
    {
      if cid !in claims { return Failed(NotFound); }
      var c := claims[cid];
      if !MayWrite(p, c.client) { return Failed(Forbidden); }
      var existing := FirstForward(handoffs, LineIds(c.lines));
      if existing.Some? { return Batched(existing.value.batch); }
      if Left(c.status) {
        var prior := BatchByHash(batches, c.client, multiset{EmptyRelease(cid)});
        if prior.Some? { return Batched(prior.value); }
      }
      if !c.status.Approved? && !c.status.PartiallyApproved? { return Failed(Illegal); }
      if NeedsAttest(c) { return Failed(NeedsAttestation); }
      if Uncoded(c, posting) { return Failed(Illegal); }
      outcome := PublishRows(cid, ReleaseDigest(cid, c.lines), period, true);
    }

    method Reverse(cid: ClaimId, p: Option<Principal>, mode: ReverseMode, reason: Option<string>, period: nat)
      returns (outcome: Outcome)
      modifies this
      ensures (State(), outcome) == Step(old(State()), Op.Reverse(cid, p, mode, reason, period))
    {
      if cid !in claims { return Failed(NotFound); }
      var c := claims[cid];
      if !MayWrite(p, c.client) { return Failed(Forbidden); }
      if mode.Off? { return Failed(Illegal); }
      if mode.ApproverReason? {
        if !MayReverse(p) { return Failed(Forbidden); }
        if reason.None? || IsBlank(reason.value) { return Failed(Invalid); }
      }
      if !c.status.Released? { return Failed(Illegal); }
      var relevant := Relevant(c.lines);
      if relevant != [] && KeyTaken(handoffs, {relevant[0].id}, false) { return Failed(Illegal); }
      outcome := PublishRows(cid, ReversalDigest(cid, c.lines), period, false);
    }
  }
}
