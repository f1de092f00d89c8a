/** What staged rows and released batches are worth, against the figures that were keyed for
    them: tonnes are computed from those, while the columns keep them rounded
    (src/erpsync/review/service.py, src/erpsync/release/service.py, src/eclaim/db/models.py). */
module ErpWorth {
  import opened Prelude
  import opened ErpReview
  import Carbon
  import ErpImport

  /** The figure is the units its basis counts times its factor, rounded; a factor of zero
      makes it nothing. */
  predicate Worth(m: Mapping, tco2e: real) {
    Units(m).Some? && tco2e == Carbon.Tco2e(Units(m).value, m.factor)
  }

  predicate LinesWorth(lines: seq<Line>) {
    forall k :: 0 <= k < |lines| ==> Worth(lines[k].mapping, lines[k].tco2e)
  }

  predicate StagesWorth(ops: seq<Op>) {
    forall op :: op in ops && op.Stage? ==> LinesWorth(op.lines)
  }

  // -- what was keyed -----------------------------------------------------------------------------

  /** The figures behind each row, unrounded: those its line was staged with, then those of the
      last re-mapping, which keeps the amount it does not give. */
  function KeyedStage(rows: seq<Row>, keyed: seq<Mapping>, client: nat, lines: seq<Line>): (r: seq<Mapping>)
    requires |keyed| == |rows|
    ensures |r| == |StageAll(rows, client, lines)|
  {
    if lines == [] then keyed
    else
      var init, last := lines[..|lines| - 1], lines[|lines| - 1];
      var before := KeyedStage(rows, keyed, client, init);
      if HasGrain(StageAll(rows, client, init), Landed(client, last)) then before else before + [last.mapping]
  }

  function KeyedStep(book: Book, keyed: seq<Mapping>, op: Op): (r: seq<Mapping>)
    requires |keyed| == |book.rows|
    ensures |r| == |Step(book, op).0.rows|
  {
    match op
    case Stage(client, lines) => KeyedStage(book.rows, keyed, client, lines)
    case Remap(i, _, m) =>
      if Step(book, op).1.Done? then keyed[i := m.(amount := if m.amount.Some? then m.amount else keyed[i].amount)]
      else keyed
    case _ => keyed
  }

  function KeyedRun(book: Book, keyed: seq<Mapping>, ops: seq<Op>): (r: seq<Mapping>)
    requires |keyed| == |book.rows|
    ensures |r| == |Run(book, ops).rows|
    decreases |ops|
  {
    if ops == [] then keyed else KeyedRun(Step(book, ops[0]).0, KeyedStep(book, keyed, ops[0]), ops[1..])
  }

  /** The row keeps what was keyed, rounded, and is worth it exactly: always if somebody
      re-mapped it, and with `imports` in any case. */
  predicate Keeps(r: Row, k: Mapping, imports: bool) {
    r.mapping == Stored(k) && (imports || r.editedBy.Some? ==> Worth(k, r.tco2e))
  }

  predicate AllKeep(rows: seq<Row>, keyed: seq<Mapping>, imports: bool) {
    |keyed| == |rows| && forall i {:trigger Keeps(rows[i], keyed[i], imports)} :: 0 <= i < |rows| ==>
      Keeps(rows[i], keyed[i], imports)
  }

  lemma ReplacedKeeps(rows: seq<Row>, keyed: seq<Mapping>, i: nat, r: Row, k: Mapping, imports: bool)
    requires AllKeep(rows, keyed, imports) && i < |rows| && Keeps(r, k, imports)
    ensures AllKeep(rows[i := r], keyed[i := k], imports)
  {
    var after, now := rows[i := r], keyed[i := k];
    forall j | 0 <= j < |after| ensures Keeps(after[j], now[j], imports) {
      assert Keeps(rows[j], keyed[j], imports);
    }
  }

  lemma ReviewedKeeps(rows: seq<Row>, keyed: seq<Mapping>, i: nat, r: Row, imports: bool)
    requires AllKeep(rows, keyed, imports) && i < |rows|
    requires r.mapping == rows[i].mapping && r.tco2e == rows[i].tco2e && r.editedBy == rows[i].editedBy
    ensures AllKeep(rows[i := r], keyed, imports)
  {
    assert Keeps(rows[i], keyed[i], imports);
    ReplacedKeeps(rows, keyed, i, r, keyed[i], imports);
    assert keyed[i := keyed[i]] == keyed;
  }

  lemma LandedKeeps(client: nat, line: Line, imports: bool)
    requires imports ==> Worth(line.mapping, line.tco2e)
    ensures Keeps(Landed(client, line), line.mapping, imports)
  {
    if imports {
      Carbon.QuantisedTwice(Units(line.mapping).value * line.mapping.factor / 1000.0);
    }
  }

  lemma {:induction false} StagedKeeps(rows: seq<Row>, keyed: seq<Mapping>, client: nat, lines: seq<Line>,
                                       imports: bool)
    requires AllKeep(rows, keyed, imports) && (imports ==> LinesWorth(lines))
    ensures AllKeep(StageAll(rows, client, lines), KeyedStage(rows, keyed, client, lines), imports)
  {
    if lines != [] {
      var init, last := lines[..|lines| - 1], lines[|lines| - 1];
      assert forall k :: 0 <= k < |init| ==> init[k] == lines[k];
      StagedKeeps(rows, keyed, client, init, imports);
      LandedKeeps(client, last, imports);
      AppendedKeeps(StageAll(rows, client, init), KeyedStage(rows, keyed, client, init), Landed(client, last),
                    last.mapping, imports);
    }
  }

  lemma AppendedKeeps(rows: seq<Row>, keyed: seq<Mapping>, r: Row, k: Mapping, imports: bool)
    requires AllKeep(rows, keyed, imports) && Keeps(r, k, imports)
    ensures AllKeep(rows + [r], keyed + [k], imports)
  {
    var after, now := rows + [r], keyed + [k];
    forall j | 0 <= j < |after| ensures Keeps(after[j], now[j], imports) {
      if j < |rows| { assert Keeps(rows[j], keyed[j], imports); }
    }
  }

  lemma FlippedKeeps(rows: seq<Row>, keyed: seq<Mapping>, client: nat, imports: bool)
    requires AllKeep(rows, keyed, imports)
    ensures AllKeep(Flipped(rows, client), keyed, imports)
  {
    forall k | 0 <= k < |rows| ensures Keeps(Flipped(rows, client)[k], keyed[k], imports) {
      assert Keeps(rows[k], keyed[k], imports);
    }
  }

  lemma RemappedKeeps(r: Row, k: Mapping, m: Mapping, editor: nat, imports: bool)
    requires Keeps(r, k, imports) && Units(m).Some?
    ensures Keeps(Remapped(r, m, editor), m.(amount := if m.amount.Some? then m.amount else k.amount), imports)
  {
  }

  lemma StepKeepsKeyed(book: Book, keyed: seq<Mapping>, op: Op, imports: bool)
    requires AllKeep(book.rows, keyed, imports) && (imports && op.Stage? ==> LinesWorth(op.lines))
    ensures AllKeep(Step(book, op).0.rows, KeyedStep(book, keyed, op), imports)
  {
    match op
    case Stage(client, lines) => StagedKeeps(book.rows, keyed, client, lines, imports);
    case Release(client) => FlippedKeeps(book.rows, keyed, client, imports);
    case Approve(i, p) =>
      if i < |book.rows| {
        ReviewedKeeps(book.rows, keyed, i, book.rows[i].(status := Approved, reviewedBy := Some(p.user)), imports);
      }
    case Dismiss(i, p) =>
      if i < |book.rows| {
        ReviewedKeeps(book.rows, keyed, i, book.rows[i].(status := Dismissed, reviewedBy := Some(p.user)), imports);
      }
    case Remap(i, p, m) =>
      if Step(book, op).1.Done? {
        assert Keeps(book.rows[i], keyed[i], imports);
        RemappedKeeps(book.rows[i], keyed[i], m, p.user, imports);
        ReplacedKeeps(book.rows, keyed, i, Remapped(book.rows[i], m, p.user),
                      m.(amount := if m.amount.Some? then m.amount else keyed[i].amount), imports);
      }
  }

  /** Over every run each row keeps, rounded, what was last keyed for it. A row somebody
      re-mapped is worth exactly the keyed units times the keyed factor, whatever figure was
      sent along; and if all that is staged is worth its figure, then so is every row. */
  lemma {:induction false} RunKeepsKeyed(book: Book, keyed: seq<Mapping>, ops: seq<Op>, imports: bool)
    requires AllKeep(book.rows, keyed, imports) && (imports ==> StagesWorth(ops))
    ensures AllKeep(Run(book, ops).rows, KeyedRun(book, keyed, ops), imports)
    decreases |ops|
  {
    if ops != [] {
      assert ops[0] in ops && forall op :: op in ops[1..] ==> op in ops;
      StepKeepsKeyed(book, keyed, ops[0], imports);
      RunKeepsKeyed(Step(book, ops[0]).0, KeyedStep(book, keyed, ops[0]), ops[1..], imports);
    }
  }

  // -- what the stored row says ----------------------------------------------------------------------

  /** Rounding to the columns leaves the tonnes as they are. */
  predicate Survives(k: Mapping)
    requires Units(k).Some?
  {
    Carbon.Tco2e(Units(Stored(k)).value, Stored(k).factor) == Carbon.Tco2e(Units(k).value, k.factor)
  }

  /** Figures that fit their columns do. */
  lemma FittingSurvives(k: Mapping)
    requires Units(k).Some? && Places(Units(k), if k.basis.Activity? then 10000.0 else 100.0) == Units(k)
    requires Carbon.Places(k.factor, Carbon.MICRO) == k.factor
    ensures Survives(k)
  {
  }

  /** In every state reached by staging only worth lines, the stored row recomputes to its own
      tonnes exactly when rounding the figures last keyed for it leaves their tonnes as they are. */
  lemma StoredRecomputesIff(ops: seq<Op>, i: nat)
    requires StagesWorth(ops) && i < |Run(EMPTY, ops).rows|
    ensures
      var r, k := Run(EMPTY, ops).rows[i], KeyedRun(EMPTY, [], ops)[i];
      Units(k).Some? && (Worth(r.mapping, r.tco2e) <==> Survives(k))
  {
    RunKeepsKeyed(EMPTY, [], ops, true);
    assert Keeps(Run(EMPTY, ops).rows[i], KeyedRun(EMPTY, [], ops)[i], true);
  }

  /** It need not: an amount of 1.005 at 1000 kg a unit is stored as 1.01 beside 1.005 tonnes. */
  lemma StoredRowDrifts(r: Row, m: Mapping, editor: nat)
    requires m.basis.Spend? && m.amount == Some(1.005) && m.factor == 1000.0
    ensures
      var after := Remapped(r, m, editor);
      after.mapping.amount == Some(1.01) && after.tco2e == 1.005 && !Worth(after.mapping, after.tco2e)
  {
    assert 1.005 * 100.0 == 100.5 && (100.5 + 0.5 as real).Floor == 101;
    assert 1000.0 * Carbon.MICRO == 1000000000 as real;
    Carbon.HalfUpOfWhole(1000000000);
    WholeKilos(1005000, 1.005);
    WholeKilos(1010000, 1.01);
  }

  lemma WholeKilos(micro: int, tonnes: real)
    requires tonnes * Carbon.MICRO == micro as real
    ensures Carbon.Tco2e(tonnes, 1000.0) == tonnes
  {
    assert tonnes * 1000.0 / 1000.0 == tonnes;
    Carbon.HalfUpOfWhole(micro);
  }

  // -- what imports stage --------------------------------------------------------------------------------

  /** What the staging sink is handed for an entry of an import. */
  function LineOf(e: ErpImport.Entry, stage: ErpImport.Stage): Line {
    Line(e.key.docEntry, e.key.lineNum,
         Mapping(e.category, e.scope, e.basis, e.factorRef, e.factor, e.quantity, e.uom, e.amount),
         e.quality, e.tco2e, stage)
  }

  function LinesOf(staged: seq<(ErpImport.Entry, ErpImport.Stage)>): (r: seq<Line>)
    ensures |r| == |staged| && forall k :: 0 <= k < |r| ==> r[k] == LineOf(staged[k].0, staged[k].1)
  {
    seq(|staged|, k requires 0 <= k < |staged| => LineOf(staged[k].0, staged[k].1))
  }

  lemma ZeroFactor(units: real)
    ensures Carbon.Tco2e(units, 0.0) == 0.0
  {
    assert units * 0.0 / 1000.0 == 0.0;
    assert 0.0 * Carbon.MICRO == 0.0 && (0.5 as real).Floor == 0;
  }

  /** An accepted line an import could map is worth its units times its factor; one it could
      not value has the factor zero. */
  lemma BuiltIsWorth(r: ErpImport.RawRow, config: ErpImport.Config, stage: ErpImport.Stage)
    requires !ErpImport.Malformed(r) && ErpImport.BuildEntry(r, config).Ok?
    ensures
      var e := ErpImport.BuildEntry(r, config).value.0;
      Worth(LineOf(e, stage).mapping, e.tco2e) && (e.quality.Flagged? ==> e.tco2e == 0.0)
  {
    var record := ErpImport.RecordOf(r);
    var winner := Carbon.Winner(record, config.rules);
    ZeroFactor(r.amount.value);
    if winner.Some? {
      Carbon.WinnerWins(record, config.rules);
    }
  }

  /** So whatever an import stages is in order. */
  lemma ImportIsWorth(rows: seq<ErpImport.RawRow>, config: ErpImport.Config, seen: set<ErpImport.LineKey>,
                      before: seq<ErpImport.Entry>, r: ErpImport.ImportResult, after: seq<ErpImport.Entry>)
    requires ErpImport.IsImport(rows, config, seen, before, r, after) && r.Imported?
    ensures LinesWorth(LinesOf(r.staged))
  {
    var picked := ErpImport.AcceptedRows(rows, config.client, seen, |rows|);
    forall k | 0 <= k < |r.staged| ensures Worth(LinesOf(r.staged)[k].mapping, LinesOf(r.staged)[k].tco2e) {
      assert ErpImport.VerdictOf(rows, config.client, seen, picked[k]).IsAccepted?;
      BuiltIsWorth(rows[picked[k]], config, r.staged[k].1);
    }
  }

  // -- what a batch is worth ------------------------------------------------------------------------

  /** Units and factor keyed for the row an entry came from. */
  function PairOf(keyed: seq<Mapping>, e: Entry): (real, real) {
    if e.source < |keyed| && Units(keyed[e.source]).Some?
    then (Units(keyed[e.source]).value, keyed[e.source].factor) else (0.0, 0.0)
  }

  /** Units and factor of everything a batch released. */
  function PairsIn(keyed: seq<Mapping>, ledger: seq<Entry>, b: nat): seq<(real, real)> {
    if ledger == [] then []
    else
      var last := ledger[|ledger| - 1];
      PairsIn(keyed, ledger[..|ledger| - 1], b) + (if last.batch == b then [PairOf(keyed, last)] else [])
  }

  predicate EntryWorth(keyed: seq<Mapping>, e: Entry) {
    e.tco2e == Carbon.Tco2e(PairOf(keyed, e).0, PairOf(keyed, e).1)
  }

  lemma {:induction false} BatchIsRounded(keyed: seq<Mapping>, ledger: seq<Entry>, b: nat)
    requires forall e :: e in ledger ==> EntryWorth(keyed, e)
    ensures |PairsIn(keyed, ledger, b)| == CountIn(ledger, b)
    ensures Carbon.RoundedTotal(PairsIn(keyed, ledger, b)) == SumIn(ledger, b)
  {
    if ledger != [] {
      var init, last := ledger[..|ledger| - 1], ledger[|ledger| - 1];
      BatchIsRounded(keyed, init, b);
      assert EntryWorth(keyed, last);
      var pairs, pair := PairsIn(keyed, init, b), PairOf(keyed, last);
      Carbon.RoundedAppend(pairs, pair);
      assert PairsIn(keyed, ledger, b) == if last.batch == b then pairs + [pair] else pairs;
    }
  }

  lemma EntryIsOwn(book: Book, e: Entry)
    requires Inv(book) && e in book.ledger
    ensures e.source < |book.rows| && e == EntryOf(book.rows, e.source, e.batch)
  {
    assert EntryOk(book.rows, |book.batches|, e);
    EntriesMembers(book.ledger, e.source, e);
    assert LedgerOk(book.rows, e.source, EntriesFor(book.ledger, e.source));
  }

  /** The total of a batch is within half a micro-tonne an entry of the exact worth of what was
      keyed for the rows it released. */
  lemma BatchTotalIsNear(book: Book, keyed: seq<Mapping>, b: nat)
    requires Inv(book) && AllKeep(book.rows, keyed, true) && b < |book.batches|
    ensures
      var pairs := PairsIn(keyed, book.ledger, b);
      var batch := book.batches[b];
      && |pairs| == batch.count
      && Carbon.Distance(batch.total, Carbon.ExactTotal(pairs)) * Carbon.MICRO <= Carbon.Half(batch.count)
  {
    forall e | e in book.ledger ensures EntryWorth(keyed, e) {
      EntryIsOwn(book, e);
      assert Keeps(book.rows[e.source], keyed[e.source], true);
    }
    BatchIsRounded(keyed, book.ledger, b);
    assert BatchOk(book.ledger, book.batches, b);
    Carbon.BatchErrorIsBounded(PairsIn(keyed, book.ledger, b));
  }

  /** In every state reached by staging only what imports hand over. */
  lemma ReachedTotalsAreNear(ops: seq<Op>, b: nat)
    requires StagesWorth(ops) && b < |Run(EMPTY, ops).batches|
    ensures
      var book := Run(EMPTY, ops);
      var pairs := PairsIn(KeyedRun(EMPTY, [], ops), book.ledger, b);
      var batch := book.batches[b];
      && |pairs| == batch.count
      && Carbon.Distance(batch.total, Carbon.ExactTotal(pairs)) * Carbon.MICRO <= Carbon.Half(batch.count)
  {
    EmptyInv();
    RunKeepsInv(EMPTY, ops);
    RunKeepsKeyed(EMPTY, [], ops, true);
    BatchTotalIsNear(Run(EMPTY, ops), KeyedRun(EMPTY, [], ops), b);
  }
}
