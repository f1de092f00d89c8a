/** The derived money of a line: net and home-currency amounts never drift from what was
    keyed (src/eclaim/services/claims.py). */
module ClaimMoney {
  import opened Prelude
  import opened ApprovalMatrix
  import opened ClaimModel
  import opened ClaimChanges
  import L = ClaimLifecycle

  // -- rounding -----------------------------------------------------------------------

  function Distance(x: real, y: real): real {
    if x >= y then x - y else y - x
  }

  /** To the nearest integer; of two equally near, the even one. */
  lemma RoundsToNearest(x: real, n: int)
    ensures Distance(RoundHalfEven(x) as real, x) <= 0.5
    ensures Distance(RoundHalfEven(x) as real, x) <= Distance(n as real, x)
    ensures n != RoundHalfEven(x) && Distance(n as real, x) == Distance(RoundHalfEven(x) as real, x) ==>
      RoundHalfEven(x) % 2 == 0
  {
    var q, low := RoundHalfEven(x), x.Floor;
    assert q == low || q == low + 1;
    if n > low + 1 {
      assert n as real >= low as real + 2.0;
    } else if n < low {
      assert n as real <= low as real - 1.0;
    }
  }

  /** The home-currency amount of a rate conversion is within half a cent of the product. */
  lemma CentsIsNear(x: real)
    ensures Distance(Cents(x), x) * 100.0 <= 0.5
  {
    RoundsToNearest(x * 100.0, 0);
  }

  // -- what a derived line says ----------------------------------------------------------

  predicate Derived(l: Line) {
    l.net == NetOf(l.total, l.tax, l.taxInclusive) && l.base == BaseOf(l.total, l.fx, l.currency)
  }

  /** Lines made by a split start without derived amounts. */
  predicate MoneyOk(l: Line) {
    Derived(l) || (l.net.None? && l.base.None?)
  }

  lemma ConvertedIsNear(total: real, fx: real, currency: Option<string>)
    requires fx != 0.0
    ensures BaseOf(Some(total), Some(fx), currency).Some?
    ensures Distance(BaseOf(Some(total), Some(fx), currency).value, total * fx) * 100.0 <= 0.5
  {
    var product := total * fx;
    CentsIsNear(product);
  }

  /** A receipt total includes its tax unless it says otherwise; a line in ringgit without a
      rate is worth its total; a foreign one is worth nothing until a rate is known, then the
      product to half a cent. */
  lemma DerivedMeans(l: Line)
    requires Derived(l)
    ensures l.total.None? ==> l.net.None? && l.base.None?
    ensures l.total.Some? ==>
      l.net == Some(if l.taxInclusive == Some(false) then l.total.value else l.total.value - AmountOrZero(l.tax))
    ensures l.total.Some? && (l.fx.None? || l.fx.value == 0.0) ==>
      l.base == if IsForeign(l.currency) then None else l.total
    ensures l.total.Some? && l.fx.Some? && l.fx.value != 0.0 ==>
      l.base.Some? && Distance(l.base.value, l.total.value * l.fx.value) * 100.0 <= 0.5
  {
    if l.total.None? || l.fx.None? || l.fx.value == 0.0 {
    } else {
      ConvertedIsNear(l.total.value, l.fx.value, l.currency);
    }
  }

  lemma RecomputedIsDerived(l: Line)
    ensures Derived(RecomputeMoney(l))
  {
  }

  /** The money of a line depends on what was keyed for it only. */
  predicate SameKeyed(a: Line, b: Line) {
    && a.total == b.total && a.tax == b.tax && a.taxInclusive == b.taxInclusive && a.fx == b.fx
    && a.currency == b.currency
    && a.net == b.net && a.base == b.base
  }

  lemma SameKeyedSameMoney(a: Line, b: Line)
    requires MoneyOk(a) && SameKeyed(a, b)
    ensures MoneyOk(b)
  {
  }

  lemma MadeIsDerived(id: LineId, lineNo: int, x: Captured)
    ensures MoneyOk(MakeLine(id, lineNo, x))
  {
    RecomputedIsDerived(ApplyFxDefault(
      Line(id, lineNo, x.docNo, x.currency, x.total, x.tax, None, None, None, None, x.quantity, x.category,
           x.carbonRelevant, x.payment, Pending, None, x.image, x.pages, x.mileage, None, None), x.tableRate));
  }

  /** The keyed fields of an edit, before money and category are derived again. */
  lemma EditedMoney(l: Line, x: Patch)
    requires MoneyOk(l)
    ensures MoneyOk(EditLine(l, x))
  {
    var after := EditLine(l, x);
    if !TouchesMoney(x) {
      SameKeyedSameMoney(l, after);
    } else {
      EditedIsRecomputed(l, x);
    }
  }

  lemma EditedIsRecomputed(l: Line, x: Patch)
    requires TouchesMoney(x)
    ensures Derived(EditLine(l, x))
  {
  }

  // -- every operation keeps it --------------------------------------------------------------

  predicate AllMoneyOk(lines: seq<Line>) {
    forall i {:trigger MoneyOk(lines[i])} :: 0 <= i < |lines| ==> MoneyOk(lines[i])
  }

  lemma SameKeyedKeeps(a: seq<Line>, b: seq<Line>)
    requires AllMoneyOk(a) && |a| == |b| && forall i :: 0 <= i < |a| ==> SameKeyed(a[i], b[i])
    ensures AllMoneyOk(b)
  {
    forall i | 0 <= i < |b| ensures MoneyOk(b[i]) {
      assert MoneyOk(a[i]);
      SameKeyedSameMoney(a[i], b[i]);
    }
  }

  lemma {:induction false} MergeKeepsMoney(lines: seq<Line>, ids: set<LineId>, composite: Page, pages: seq<Page>)
    requires AllMoneyOk(lines)
    ensures AllMoneyOk(Renumber(MergedLines(lines, ids, composite, pages, false)))
  {
    var merged := MergedLines(lines, ids, composite, pages, false);
    forall k | 0 <= k < |merged| ensures MoneyOk(Renumber(merged)[k]) {
      MergedFromOrigin(lines, ids, composite, pages, false, k);
      var from := lines[Origin(lines, ids, false, k)];
      assert MoneyOk(from);
      SameKeyedSameMoney(from, Renumber(merged)[k]);
    }
  }

  lemma SplitKeepsMoney(lines: seq<Line>, i: nat, serials: nat)
    requires AllMoneyOk(lines) && i < |lines| && LinePages(lines[i]) != []
    ensures AllMoneyOk(Renumber(Spliced(lines, i, SplitParts(lines[i], serials))))
  {
    var parts := SplitParts(lines[i], serials);
    var all := Spliced(lines, i, parts);
    forall k | 0 <= k < |all| ensures MoneyOk(Renumber(all)[k]) {
      SplicedAt(lines, i, parts, k);
      if k <= i || k >= i + |parts| {
        var from := lines[if k <= i then k else k - |parts| + 1];
        assert MoneyOk(from);
        SameKeyedSameMoney(from, Renumber(all)[k]);
      }
    }
  }

  lemma RemoveKeepsMoney(lines: seq<Line>, i: nat)
    requires AllMoneyOk(lines) && i < |lines|
    ensures AllMoneyOk(lines[..i] + lines[i + 1..])
  {
    var left := lines[..i] + lines[i + 1..];
    forall j | 0 <= j < |left| ensures MoneyOk(left[j]) {
      assert MoneyOk(lines[if j < i then j else j + 1]);
    }
  }

  lemma AppendKeepsMoney(lines: seq<Line>, l: Line)
    requires AllMoneyOk(lines) && MoneyOk(l)
    ensures AllMoneyOk(lines + [l])
  {
    forall j | 0 <= j <= |lines| ensures MoneyOk((lines + [l])[j]) {
      if j < |lines| { assert MoneyOk(lines[j]); }
    }
  }

  lemma EditKeepsMoney(lines: seq<Line>, i: nat, x: Patch)
    requires AllMoneyOk(lines) && i < |lines|
    ensures AllMoneyOk(lines[i := EditLine(lines[i], x)])
  {
    assert MoneyOk(lines[i]);
    EditedMoney(lines[i], x);
    var after := lines[i := EditLine(lines[i], x)];
    forall j | 0 <= j < |after| ensures MoneyOk(after[j]) {
      assert MoneyOk(lines[j]);
    }
  }

  lemma LineChangeKeepsMoney(cid: ClaimId, c: Claim, change: Change, after: Claim)
    requires AllMoneyOk(c.lines) && Apply(cid, c, change) == Ok(after)
    requires change.SwitchToBill? || change.Edit? || change.MergeLines? || change.SplitLine?
    ensures AllMoneyOk(after.lines)
  {
    match change
    case SwitchToBill(_, id) => RemoveKeepsMoney(c.lines, IndexOf(c.lines, id).value);
    case Edit(_, target, patch) => EditKeepsMoney(c.lines, EditTarget(c.lines, target).value, patch);
    case MergeLines(_, ids, composite, _) => MergeKeepsMoney(c.lines, ids, composite, PagesOf(Selected(c.lines, ids)));
    case SplitLine(_, id, _) => SplitKeepsMoney(c.lines, IndexOf(c.lines, id).value, c.serials);
  }

  /** No operation leaves a line whose net or home-currency amount does not follow from its
      keyed figures. */
  lemma ChangeKeepsMoney(cid: ClaimId, c: Claim, change: Change, after: Claim)
    requires AllMoneyOk(c.lines) && Apply(cid, c, change) == Ok(after)
    ensures AllMoneyOk(after.lines)
  {
    if change.AddMileage? || change.AttachIntake? {
      var x := if change.AddMileage? then change.trip else change.page;
      MadeIsDerived(LineId(cid, c.serials), NextLineNo(c.lines), x);
      AppendKeepsMoney(c.lines, MakeLine(LineId(cid, c.serials), NextLineNo(c.lines), x));
    } else if change.SwitchToBill? || change.Edit? || change.MergeLines? || change.SplitLine? {
      LineChangeKeepsMoney(cid, c, change, after);
    } else if change.Approve? || change.Decide? || change.SendBack? || change.Reject? || change.Unapprove? {
      SameKeyedKeeps(c.lines, after.lines);
    }
  }

  predicate EveryMoneyOk(db: Db) {
    forall cid :: cid in db.claims ==> AllMoneyOk(db.claims[cid].lines)
  }

  lemma {:induction false} CapturedMoneyOk(cid: ClaimId, c: Claim, docs: seq<Captured>)
    requires AllMoneyOk(c.lines)
    ensures AllMoneyOk(L.FillLines(cid, c, docs).lines)
  {
    if docs != [] {
      var init, last := docs[..|docs| - 1], docs[|docs| - 1];
      CapturedMoneyOk(cid, c, init);
      var filled := L.FillLines(cid, c, init);
      MadeIsDerived(LineId(cid, filled.serials), NextLineNo(filled.lines), last);
      AppendKeepsMoney(filled.lines, MakeLine(LineId(cid, filled.serials), NextLineNo(filled.lines), last));
    }
  }

  lemma PutKeepsMoney(db: Db, cid: ClaimId, after: Claim)
    requires EveryMoneyOk(db) && AllMoneyOk(after.lines)
    ensures EveryMoneyOk(db.(claims := db.claims[cid := after]))
  {
  }

  lemma PublishKeepsMoney(db: Db, cid: ClaimId, c: Claim, status: ClaimStatus, digest: Digest, period: nat,
                          forward: bool)
    requires EveryMoneyOk(db) && cid in db.claims && c == db.claims[cid]
    ensures EveryMoneyOk(L.Publish(db, cid, c, status, digest, period, forward).0)
  {
    PutKeepsMoney(db, cid, c.(status := status));
  }

  lemma ReleaseKeepsMoney(db: Db, cid: ClaimId, p: Option<Principal>, posting: L.Posting, period: nat)
    requires EveryMoneyOk(db) && cid in db.claims
    ensures EveryMoneyOk(L.ReleaseClaim(db, cid, p, posting, period).0)
  {
    var c := db.claims[cid];
    var digest := ReleaseDigest(cid, c.lines);
    PublishKeepsMoney(db, cid, c, Released, digest, period, true);
  }

  lemma ReverseKeepsMoney(db: Db, cid: ClaimId, p: Option<Principal>, mode: L.ReverseMode, reason: Option<string>,
                          period: nat)
    requires EveryMoneyOk(db) && cid in db.claims
    ensures EveryMoneyOk(L.ReverseClaim(db, cid, p, mode, reason, period).0)
  {
    var c := db.claims[cid];
    var digest := ReversalDigest(cid, c.lines);
    PublishKeepsMoney(db, cid, c, Released, digest, period, false);
  }

  lemma StartKeepsMoney(db: Db, cid: ClaimId, x: L.Capture)
    requires EveryMoneyOk(db)
    ensures EveryMoneyOk(db.(claims := db.claims[cid := L.CapturedClaim(cid, x)]))
  {
    CapturedMoneyOk(cid, L.Header(x), x.lines);
    PutKeepsMoney(db, cid, L.CapturedClaim(cid, x));
  }

  lemma StepKeepsMoney(db: Db, op: L.Op)
    requires EveryMoneyOk(db)
    ensures EveryMoneyOk(L.Step(db, op).0)
  {
    match op
    case Start(cid, x) => StartKeepsMoney(db, cid, x);
    case Change(cid, change) =>
      if cid in db.claims && Apply(cid, db.claims[cid], change).Ok? {
        var after := Apply(cid, db.claims[cid], change).value;
        ChangeKeepsMoney(cid, db.claims[cid], change, after);
        PutKeepsMoney(db, cid, after);
      }
    case Release(cid, p, posting, period) =>
      if cid in db.claims { ReleaseKeepsMoney(db, cid, p, posting, period); }
    case Reverse(cid, p, mode, reason, period) =>
      if cid in db.claims { ReverseKeepsMoney(db, cid, p, mode, reason, period); }
  }

  /** So in every reachable state every line of every claim is in order. */
  lemma {:induction false} RunKeepsMoney(db: Db, ops: seq<L.Op>)
    requires EveryMoneyOk(db)
    ensures EveryMoneyOk(L.Run(db, ops))
    decreases |ops|
  {
    if ops != [] {
      StepKeepsMoney(db, ops[0]);
      RunKeepsMoney(L.Step(db, ops[0]).0, ops[1..]);
    }
  }
}
