/** The carbon coverage report: the handoff log rolled up per document and per period
    (src/eclaim/services/coverage.py). */
module Coverage {
  import opened Prelude
  import opened ClaimModel

  /** A source document: a claim and a document of it. */
  datatype DocId = DocId(claim: ClaimId, key: DocKey)

  datatype Document = Document(id: DocId, period: nat, currency: Option<string>,
                               captured: real, forwarded: real, lines: seq<LineId>)

  datatype Period = Period(period: nat, captured: real, forwarded: real, docCount: nat, lineCount: nat,
                           documents: seq<Document>)

  function DocIdOf(h: Handoff): DocId {
    DocId(h.claim, DocOf(h.docNo, h.line))
  }

  /** The document's gross, or the unsigned amount of a row that carries none. */
  function CapturedOf(h: Handoff): real {
    if h.docGross.Some? then h.docGross.value
    else if AmountOrZero(h.amount) < 0.0 then -AmountOrZero(h.amount)
    else AmountOrZero(h.amount)
  }

  /** One row added to what is known of its document. */
  function Absorb(doc: Option<Document>, h: Handoff): Document {
    var known := if doc.Some? then doc.value else Document(DocIdOf(h), h.period, h.currency, CapturedOf(h), 0.0, []);
    var summed := known.(forwarded := known.forwarded + AmountOrZero(h.amount));
    if h.forward then summed.(period := h.period, captured := CapturedOf(h), lines := summed.lines + [h.line])
    else summed
  }

  /** What the log says about one document. */
  function DocumentFor(rows: seq<Handoff>, id: DocId): Option<Document> {
    if rows == [] then None
    else
      var last := rows[|rows| - 1];
      var before := DocumentFor(rows[..|rows| - 1], id);
      if DocIdOf(last) == id then Some(Absorb(before, last)) else before
  }

  /** The documents of the log in order of first appearance. */
  function Documents(rows: seq<Handoff>): (ids: seq<DocId>)
    ensures forall i, j :: 0 <= i < j < |ids| ==> ids[i] != ids[j]
    ensures forall id :: id in ids ==> DocumentFor(rows, id).Some?
    ensures forall id :: DocumentFor(rows, id).Some? ==> id in ids && DocumentFor(rows, id).value.id == id
  {
    if rows == [] then []
    else
      var before := Documents(rows[..|rows| - 1]);
      var id := DocIdOf(rows[|rows| - 1]);
      if id in before then before else before + [id]
  }

  function AllDocuments(rows: seq<Handoff>, ids: seq<DocId>): (docs: seq<Document>)
    requires forall id :: id in ids ==> DocumentFor(rows, id).Some?
    ensures |docs| == |ids| && forall i :: 0 <= i < |ids| ==> docs[i] == DocumentFor(rows, ids[i]).value
  {
    seq(|ids|, i requires 0 <= i < |ids| => DocumentFor(rows, ids[i]).value)
  }

  // -- periods -----------------------------------------------------------------------

  /** The documents of one period, in order. */
  function InPeriod(docs: seq<Document>, period: nat): seq<Document> {
    if docs == [] then []
    else
      var last := docs[|docs| - 1];
      InPeriod(docs[..|docs| - 1], period) + (if last.period == period then [last] else [])
  }

  /** What a roll-up adds up. */
  datatype Measure = Captured | Forwarded | Count | LineCount

  function Reading(d: Document, m: Measure): real {
    match m
    case Captured => d.captured
    case Forwarded => d.forwarded
    case Count => 1.0
    case LineCount => |d.lines| as real
  }

  function SumOf(docs: seq<Document>, m: Measure): real {
    if docs == [] then 0.0 else SumOf(docs[..|docs| - 1], m) + Reading(docs[|docs| - 1], m)
  }

  function PeriodReading(p: Period, m: Measure): real {
    match m
    case Captured => p.captured
    case Forwarded => p.forwarded
    case Count => p.docCount as real
    case LineCount => p.lineCount as real
  }

  /** A period adds up its documents. */
  predicate AddsUp(p: Period) {
    && (forall m :: PeriodReading(p, m) == SumOf(p.documents, m))
  }

  function AddTo(p: Period, d: Document): Period {
    p.(captured := p.captured + d.captured, forwarded := p.forwarded + d.forwarded,
       docCount := p.docCount + 1, lineCount := p.lineCount + |d.lines|, documents := p.documents + [d])
  }

  lemma AddToAddsUp(p: Period, d: Document)
    requires AddsUp(p)
    ensures AddsUp(AddTo(p, d))
  {
    forall m ensures PeriodReading(AddTo(p, d), m) == SumOf(AddTo(p, d).documents, m) {
      assert (p.documents + [d])[..|p.documents|] == p.documents;
      assert PeriodReading(p, m) == SumOf(p.documents, m);
    }
  }

  predicate Shown(d: Document, filter: Option<nat>) {
    filter.None? || d.period == filter.value
  }

  predicate Descending(report: seq<Period>) {
    forall i, j :: 0 <= i < j < |report| ==> report[i].period > report[j].period
  }

  predicate IsPeriod(docs: seq<Document>, filter: Option<nat>, p: Period) {
    && p.documents == InPeriod(docs, p.period) && p.documents != [] && AddsUp(p)
    && (filter.None? || p.period == filter.value)
  }

  /** What the report must be: newest period first, each holding exactly the shown
      documents of its period and their sums, and no empty one. */
  predicate IsReport(rows: seq<Handoff>, filter: Option<nat>, report: seq<Period>) {
    var docs := AllDocuments(rows, Documents(rows));
    && Descending(report)
    && (forall p :: p in report ==> IsPeriod(docs, filter, p))
    && (forall d :: d in docs && Shown(d, filter) ==> exists p :: p in report && p.period == d.period)
  }

  // -- the report as it is computed ------------------------------------------------------

  lemma PrefixStep<T>(s: seq<T>, i: nat)
    requires i < |s|
    ensures s[..i + 1][..i] == s[..i] && s[..i + 1][i] == s[i]
  {
  }

  /** First pass: one entry per document, created at its first row. */
  method CollectDocuments(rows: seq<Handoff>) returns (docs: seq<Document>)
    ensures docs == AllDocuments(rows, Documents(rows))
  {
    var found: map<DocId, Document> := map[];
    var order: seq<DocId> := [];
    var i := 0;
    while i < |rows|
      invariant 0 <= i <= |rows| && order == Documents(rows[..i])
      invariant forall id :: id in found <==> id in order
      invariant forall id :: id in found ==> DocumentFor(rows[..i], id) == Some(found[id])
    {
      PrefixStep(rows, i);
      var r := rows[i];
      var id := DocIdOf(r);
      assert id !in order ==> DocumentFor(rows[..i], id).None?;
      if id !in found { order := order + [id]; }
      found := found[id := Absorb(if id in found then Some(found[id]) else None, r)];
      i := i + 1;
    }
    assert rows[..i] == rows;
    docs := [];
    i := 0;
    while i < |order|
      invariant 0 <= i <= |order| && docs == AllDocuments(rows, order)[..i]
    {
      assert order[i] in order;
      docs := docs + [found[order[i]]];
      i := i + 1;
    }
  }

  /** Second pass: the shown documents into their periods. */
  method CollectPeriods(docs: seq<Document>, filter: Option<nat>) returns (periods: map<nat, Period>)
    ensures forall p :: p in periods ==> periods[p].period == p && IsPeriod(docs, filter, periods[p])
    ensures forall d :: d in docs && Shown(d, filter) ==> d.period in periods
  {
    periods := map[];
    var i := 0;
    while i < |docs|
      invariant 0 <= i <= |docs|
      invariant forall p :: p in periods ==> periods[p].period == p && IsPeriod(docs[..i], filter, periods[p])
      invariant forall p :: p !in periods && (filter.None? || p == filter.value) ==> InPeriod(docs[..i], p) == []
      invariant forall k :: 0 <= k < i && Shown(docs[k], filter) ==> docs[k].period in periods
    {
      PrefixStep(docs, i);
      var d := docs[i];
      if Shown(d, filter) {
        var p := if d.period in periods then periods[d.period] else Period(d.period, 0.0, 0.0, 0, 0, []);
        AddToAddsUp(p, d);
        periods := periods[d.period := AddTo(p, d)];
      }
      i := i + 1;
    }
    assert docs[..i] == docs;
  }

  /** `sorted`, newest first. */
  method SortPeriods(periods: map<nat, Period>) returns (report: seq<Period>)
    requires forall p :: p in periods ==> periods[p].period == p
    ensures Descending(report)
    ensures forall x :: x in report <==> x.period in periods && x == periods[x.period]
  {
    report := [];
    var todo := periods.Keys;
    while todo != {}
      invariant todo <= periods.Keys && Descending(report)
      invariant forall x :: x in report <==> x.period in periods && x.period !in todo && x == periods[x.period]
      decreases |todo|
    {
      var p :| p in todo;
      PlacedHolds(report, periods[p]);
      report := Placed(report, periods[p]);
      todo := todo - {p};
    }
  }

  method CoverageReport(rows: seq<Handoff>, filter: Option<nat>) returns (report: seq<Period>)
    ensures IsReport(rows, filter, report)
  {
    var docs := CollectDocuments(rows);
    var periods := CollectPeriods(docs, filter);
    report := SortPeriods(periods);
    forall d | d in docs && Shown(d, filter) ensures exists p :: p in report && p.period == d.period {
      assert periods[d.period] in report;
    }
  }

  function Placed(report: seq<Period>, p: Period): (r: seq<Period>)
    ensures |r| == |report| + 1
  {
    if report == [] || p.period > report[0].period then [p] + report
    else [report[0]] + Placed(report[1..], p)
  }

  lemma {:induction false} PlacedHolds(report: seq<Period>, p: Period)
    requires Descending(report) && forall x :: x in report ==> x.period != p.period
    ensures Descending(Placed(report, p))
    ensures forall x :: x in Placed(report, p) <==> x == p || x in report
  {
    if report != [] && p.period <= report[0].period {
      PlacedHolds(report[1..], p);
      var tail := Placed(report[1..], p);
      assert forall x :: x in report <==> x == report[0] || x in report[1..];
      forall j | 0 <= j < |tail| ensures tail[j].period < report[0].period {
        assert tail[j] in tail;
      }
    }
  }

  // -- what the report conserves -----------------------------------------------------------

  /** Sum of the amounts of the log, and number of forward rows, read off the rows. */
  function RowReading(h: Handoff, m: Measure): real {
    match m
    case Forwarded => AmountOrZero(h.amount)
    case LineCount => if h.forward then 1.0 else 0.0
    case Captured => 0.0
    case Count => 0.0
  }

  function SumRows(rows: seq<Handoff>, m: Measure): real {
    if rows == [] then 0.0 else SumRows(rows[..|rows| - 1], m) + RowReading(rows[|rows| - 1], m)
  }

  lemma AbsorbAdds(doc: Option<Document>, h: Handoff, m: Measure)
    requires m.Forwarded? || m.LineCount?
    ensures Reading(Absorb(doc, h), m) == (if doc.Some? then Reading(doc.value, m) else 0.0) + RowReading(h, m)
  {
  }

  function ReadingOf(rows: seq<Handoff>, id: DocId, m: Measure): real {
    if DocumentFor(rows, id).Some? then Reading(DocumentFor(rows, id).value, m) else 0.0
  }

  function SumIds(rows: seq<Handoff>, ids: seq<DocId>, m: Measure): real {
    if ids == [] then 0.0 else SumIds(rows, ids[..|ids| - 1], m) + ReadingOf(rows, ids[|ids| - 1], m)
  }

  lemma {:induction false} SumIdsStep(rows: seq<Handoff>, h: Handoff, ids: seq<DocId>, m: Measure)
    requires m.Forwarded? || m.LineCount?
    requires forall i, j :: 0 <= i < j < |ids| ==> ids[i] != ids[j]
    ensures SumIds(rows + [h], ids, m) == SumIds(rows, ids, m) + (if DocIdOf(h) in ids then RowReading(h, m) else 0.0)
  {
    assert (rows + [h])[..|rows|] == rows;
    if ids != [] {
      var init, last := ids[..|ids| - 1], ids[|ids| - 1];
      SumIdsStep(rows, h, init, m);
      AbsorbAdds(DocumentFor(rows, last), h, m);
      assert DocIdOf(h) in ids <==> DocIdOf(h) in init || DocIdOf(h) == last;
      if DocIdOf(h) == last {
        assert DocIdOf(h) !in init;
      }
    }
  }

  lemma {:induction false} SumIdsOfNew(rows: seq<Handoff>, h: Handoff, ids: seq<DocId>, m: Measure)
    requires m.Forwarded? || m.LineCount?
    requires forall i, j :: 0 <= i < j < |ids| ==> ids[i] != ids[j]
    requires DocIdOf(h) !in ids && DocumentFor(rows, DocIdOf(h)).None?
    ensures SumIds(rows + [h], ids + [DocIdOf(h)], m) == SumIds(rows, ids, m) + RowReading(h, m)
  {
    var id := DocIdOf(h);
    assert (ids + [id])[..|ids|] == ids && (rows + [h])[..|rows|] == rows;
    SumIdsStep(rows, h, ids, m);
    AbsorbAdds(None, h, m);
  }

  lemma SumIdsNext(rows: seq<Handoff>, h: Handoff, m: Measure)
    requires m.Forwarded? || m.LineCount?
    ensures SumDocuments(rows + [h], m) == SumDocuments(rows, m) + RowReading(h, m)
  {
    assert (rows + [h])[..|rows|] == rows;
    if DocIdOf(h) in Documents(rows) {
      SumIdsStep(rows, h, Documents(rows), m);
    } else {
      SumIdsOfNew(rows, h, Documents(rows), m);
    }
  }

  /** The amounts of the documents, by order of first appearance. */
  function SumDocuments(rows: seq<Handoff>, m: Measure): real {
    SumIds(rows, Documents(rows), m)
  }

  lemma {:induction false} SumRowsNext(rows: seq<Handoff>, h: Handoff, m: Measure)
    ensures SumRows(rows + [h], m) == SumRows(rows, m) + RowReading(h, m)
  {
    assert (rows + [h])[..|rows|] == rows;
  }

  lemma {:induction false} SumIdsIsSumRows(rows: seq<Handoff>, m: Measure)
    requires m.Forwarded? || m.LineCount?
    ensures SumDocuments(rows, m) == SumRows(rows, m)
  {
    if rows != [] {
      var init, last := rows[..|rows| - 1], rows[|rows| - 1];
      SumIdsIsSumRows(init, m);
      SumIdsNext(init, last, m);
      SumRowsNext(init, last, m);
      assert init + [last] == rows;
    }
  }

  lemma {:induction false} SumOfDocuments(rows: seq<Handoff>, ids: seq<DocId>, m: Measure)
    requires forall id :: id in ids ==> DocumentFor(rows, id).Some?
    ensures SumOf(AllDocuments(rows, ids), m) == SumIds(rows, ids, m)
  {
    if ids != [] {
      SumOfDocuments(rows, ids[..|ids| - 1], m);
      assert AllDocuments(rows, ids)[..|ids| - 1] == AllDocuments(rows, ids[..|ids| - 1]);
    }
  }

  function SumPeriods(report: seq<Period>, m: Measure): real {
    if report == [] then 0.0 else SumPeriods(report[..|report| - 1], m) + PeriodReading(report[|report| - 1], m)
  }

  /** Sum over the documents of the listed periods, period by period. */
  function SumByPeriod(docs: seq<Document>, periods: seq<nat>, m: Measure): real {
    if periods == [] then 0.0
    else SumByPeriod(docs, periods[..|periods| - 1], m) + SumOf(InPeriod(docs, periods[|periods| - 1]), m)
  }

  lemma {:induction false} SumByPeriodStep(docs: seq<Document>, d: Document, periods: seq<nat>, m: Measure)
    requires forall i, j :: 0 <= i < j < |periods| ==> periods[i] != periods[j]
    ensures SumByPeriod(docs + [d], periods, m) ==
      SumByPeriod(docs, periods, m) + (if d.period in periods then Reading(d, m) else 0.0)
  {
    if periods != [] {
      var init, last := periods[..|periods| - 1], periods[|periods| - 1];
      SumByPeriodStep(docs, d, init, m);
      assert (docs + [d])[..|docs|] == docs;
      var there := InPeriod(docs, last);
      assert (there + [d])[..|there|] == there;
      assert d.period in periods <==> d.period in init || d.period == last;
      if d.period == last {
        assert InPeriod(docs + [d], last) == there + [d];
        assert d.period !in init;
      } else {
        assert InPeriod(docs + [d], last) == there;
      }
    }
  }

  lemma {:induction false} SumByPeriodIsSum(docs: seq<Document>, periods: seq<nat>, m: Measure)
    requires forall i, j :: 0 <= i < j < |periods| ==> periods[i] != periods[j]
    requires forall k :: 0 <= k < |docs| ==> docs[k].period in periods
    ensures SumByPeriod(docs, periods, m) == SumOf(docs, m)
  {
    if docs == [] {
      SumOverNothing(periods, m);
    } else {
      var init, last := docs[..|docs| - 1], docs[|docs| - 1];
      SumByPeriodIsSum(init, periods, m);
      SumByPeriodStep(init, last, periods, m);
      assert init + [last] == docs;
    }
  }

  lemma {:induction false} SumOverNothing(periods: seq<nat>, m: Measure)
    ensures SumByPeriod([], periods, m) == 0.0
  {
    if periods != [] { SumOverNothing(periods[..|periods| - 1], m); }
  }

  function PeriodsOf(report: seq<Period>): (r: seq<nat>)
    ensures |r| == |report| && forall i :: 0 <= i < |r| ==> r[i] == report[i].period
  {
    seq(|report|, i requires 0 <= i < |report| => report[i].period)
  }

  lemma {:induction false} SumPeriodsIsByPeriod(docs: seq<Document>, report: seq<Period>, m: Measure)
    requires forall p :: p in report ==> p.documents == InPeriod(docs, p.period) && AddsUp(p)
    ensures SumPeriods(report, m) == SumByPeriod(docs, PeriodsOf(report), m)
  {
    if report != [] {
      var init, last := report[..|report| - 1], report[|report| - 1];
      SumPeriodsIsByPeriod(docs, init, m);
      assert PeriodsOf(report)[..|report| - 1] == PeriodsOf(init);
      assert last in report && AddsUp(last);
      assert PeriodReading(last, m) == SumOf(last.documents, m);
    }
  }

  /** The whole report accounts for every row of the log: the forwarded amounts of its
      periods add up to the amounts logged, its line counts to the forward rows. */
  lemma {:induction false} ReportConserves(rows: seq<Handoff>, report: seq<Period>, m: Measure)
    requires IsReport(rows, None, report) && (m.Forwarded? || m.LineCount?)
    ensures SumPeriods(report, m) == SumRows(rows, m)
  {
    var docs := AllDocuments(rows, Documents(rows));
    SumPeriodsIsByPeriod(docs, report, m);
    forall k | 0 <= k < |docs| ensures docs[k].period in PeriodsOf(report) {
      assert docs[k] in docs && Shown(docs[k], None);
      var p :| p in report && p.period == docs[k].period;
      var i :| 0 <= i < |report| && report[i] == p;
      assert PeriodsOf(report)[i] == docs[k].period;
    }
    SumByPeriodIsSum(docs, PeriodsOf(report), m);
    SumOfDocuments(rows, Documents(rows), m);
    SumIdsIsSumRows(rows, m);
  }

  lemma SamePeriod(docs: seq<Document>, f: Option<nat>, g: Option<nat>, p: Period, q: Period)
    requires IsPeriod(docs, f, p) && IsPeriod(docs, g, q) && p.period == q.period
    ensures p == q
  {
    assert PeriodReading(p, Captured) == SumOf(p.documents, Captured) == PeriodReading(q, Captured);
    assert PeriodReading(p, Forwarded) == SumOf(p.documents, Forwarded) == PeriodReading(q, Forwarded);
    assert PeriodReading(p, Count) == SumOf(p.documents, Count) == PeriodReading(q, Count);
    assert PeriodReading(p, LineCount) == SumOf(p.documents, LineCount) == PeriodReading(q, LineCount);
  }

  lemma {:induction false} InPeriodMembers(docs: seq<Document>, period: nat)
    ensures forall d :: d in InPeriod(docs, period) <==> d in docs && d.period == period
  {
    if docs != [] {
      InPeriodMembers(docs[..|docs| - 1], period);
      assert docs == docs[..|docs| - 1] + [docs[|docs| - 1]];
    }
  }

  /** A period filter selects from the full report. */
  lemma FilterSelects(rows: seq<Handoff>, period: nat, full: seq<Period>, one: seq<Period>)
    requires IsReport(rows, None, full) && IsReport(rows, Some(period), one)
    ensures forall p :: p in one <==> p in full && p.period == period
  {
    var docs := AllDocuments(rows, Documents(rows));
    InPeriodMembers(docs, period);
    forall p | p in one ensures p in full {
      var d := p.documents[0];
      assert d in InPeriod(docs, period);
      var q :| q in full && q.period == d.period;
      SamePeriod(docs, None, Some(period), q, p);
    }
    forall p | p in full && p.period == period ensures p in one {
      var d := p.documents[0];
      assert d in InPeriod(docs, period);
      var q :| q in one && q.period == d.period;
      SamePeriod(docs, None, Some(period), p, q);
    }
  }

  // -- a released claim in the report ----------------------------------------------------------

  /** Rows of one document of one claim and of all others mix in the log; the report only
      sees the claim's own. */
  lemma {:induction false} DocumentOfClaim(rows: seq<Handoff>, id: DocId)
    ensures DocumentFor(rows, id) == DocumentFor(RowsOf(rows, id.claim), id)
  {
    if rows != [] {
      var init, last := rows[..|rows| - 1], rows[|rows| - 1];
      DocumentOfClaim(init, id);
      var own := RowsOf(init, id.claim);
      if last.claim == id.claim {
        assert RowsOf(rows, id.claim) == own + [last] && (own + [last])[..|own|] == own;
      } else {
        assert RowsOf(rows, id.claim) == own;
      }
    }
  }

  /** The relevant lines of a document. */
  function LinesOfDoc(lines: seq<Line>, key: DocKey): seq<Line> {
    if lines == [] then []
    else
      var last := lines[|lines| - 1];
      LinesOfDoc(lines[..|lines| - 1], key) + (if DocOf(last.docNo, last.id) == key then [last] else [])
  }

  function AmountSum(lines: seq<Line>): real {
    if lines == [] then 0.0 else AmountSum(lines[..|lines| - 1]) + AmountOrZero(lines[|lines| - 1].total)
  }

  predicate Rowed(rows: seq<Handoff>, cid: ClaimId, lines: seq<Line>, sent: seq<Line>, batch: nat, period: nat,
                  forward: bool) {
    |rows| == |sent| && forall i :: 0 <= i < |rows| ==> rows[i] == Row(cid, lines, sent[i], batch, period, forward)
  }

  /** After a release: the document belongs to its month, shows the gross of all its lines
      and what its relevant lines add up to. */
  lemma {:induction false} DocumentForwarded(rows: seq<Handoff>, cid: ClaimId, lines: seq<Line>, sent: seq<Line>,
                                             batch: nat, period: nat, key: DocKey)
    requires Rowed(rows, cid, lines, sent, batch, period, true)
    ensures
      var doc, own := DocumentFor(rows, DocId(cid, key)), LinesOfDoc(sent, key);
      if own == [] then doc.None?
      else doc.Some? && doc.value.period == period && doc.value.captured == DocGross(lines, key)
           && doc.value.forwarded == AmountSum(own) && |doc.value.lines| == |own|
  {
    if sent != [] {
      var init, last := sent[..|sent| - 1], sent[|sent| - 1];
      DocumentForwarded(rows[..|rows| - 1], cid, lines, init, batch, period, key);
      AmountSumStep(LinesOfDoc(init, key), last);
      assert LinesOfDoc(init, key) + [] == LinesOfDoc(init, key);
    }
  }

  lemma {:induction false} AmountSumStep(lines: seq<Line>, last: Line)
    ensures AmountSum(lines + [last]) == AmountSum(lines) + AmountOrZero(last.total)
  {
    assert (lines + [last])[..|lines|] == lines;
  }

  lemma {:induction false} DocumentStep(rows: seq<Handoff>, h: Handoff, id: DocId)
    ensures DocumentFor(rows + [h], id) ==
            if DocIdOf(h) == id then Some(Absorb(DocumentFor(rows, id), h)) else DocumentFor(rows, id)
  {
    assert (rows + [h])[..|rows|] == rows;
  }

  lemma ReversalAbsorbed(doc: Document, cid: ClaimId, lines: seq<Line>, l: Line, batch: nat, period: nat)
    ensures
      var h := ReversalRow(cid, lines, l, batch, period);
      DocIdOf(h) == DocId(cid, DocOf(l.docNo, l.id))
      && Absorb(Some(doc), h) == doc.(forwarded := doc.forwarded - AmountOrZero(l.total))
  {
  }

  function Less(doc: Document, amount: real): Document {
    doc.(forwarded := doc.forwarded - amount)
  }

  /** After the reversal as well: nothing is forwarded, and the month, the gross and the
      lines are still those of the release. */
  lemma {:induction false} DocumentReversed(before: seq<Handoff>, rows: seq<Handoff>, cid: ClaimId, lines: seq<Line>,
                                            sent: seq<Line>, batch: nat, period: nat, key: DocKey, doc: Document)
    requires Rowed(rows, cid, lines, sent, batch, period, false)
    requires DocumentFor(before, DocId(cid, key)) == Some(doc)
    ensures DocumentFor(before + rows, DocId(cid, key)) == Some(Less(doc, AmountSum(LinesOfDoc(sent, key))))
    decreases |rows|
  {
    if sent == [] {
      assert before + rows == before;
    } else {
      var init, last := sent[..|sent| - 1], sent[|sent| - 1];
      var most, h := rows[..|rows| - 1], rows[|rows| - 1];
      DocumentReversed(before, most, cid, lines, init, batch, period, key, doc);
      assert before + rows == (before + most) + [h];
      DocumentStep(before + most, h, DocId(cid, key));
      ReversalAbsorbed(Less(doc, AmountSum(LinesOfDoc(init, key))), cid, lines, last, batch, period);
      AmountSumStep(LinesOfDoc(init, key), last);
      assert LinesOfDoc(init, key) + [] == LinesOfDoc(init, key);
    }
  }
}
