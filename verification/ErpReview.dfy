/** Staged lines under review and their release into the emissions ledger
    (src/erpsync/persistence/pg_staging.py, src/erpsync/review/service.py,
    src/erpsync/release/service.py).

    A staged row is named by its position in the table, which is its creation order. The
    batch digest is ideal: the collection of projections it hashes (the default sort of
    core/release.py is canonical for any collection, see CanonicalHash). */
module ErpReview {
  import opened Prelude
  import ApprovalMatrix
  import Carbon
  import ErpImport

  datatype Status = Clean | Held | Flagged | Approved | Dismissed | Released

  datatype Mapping = Mapping(category: string, scope: string, basis: Carbon.Basis, factorRef: string, factor: real,
                             quantity: Option<real>, uom: Option<string>, amount: Option<real>)

  /** UNIQUE(client, document, line). */
  datatype Row = Row(client: nat, docEntry: string, lineNum: int, mapping: Mapping, quality: Carbon.Quality,
                     tco2e: real, status: Status, editedBy: Option<nat>, reviewedBy: Option<nat>)

  /** An accepted line as the import hands it to the staging sink. */
  datatype Line = Line(docEntry: string, lineNum: int, mapping: Mapping, quality: Carbon.Quality, tco2e: real,
                       stage: ErpImport.Stage)

  /** UNIQUE(client, source row). */
  datatype Entry = Entry(client: nat, source: nat, scope: int, factorRef: string, quantity: Option<real>,
                         uom: Option<string>, basis: Carbon.Basis, tco2e: real, batch: nat)

  datatype Projection = Projection(source: nat, scope: string, factorRef: string, quantity: Option<real>, tco2e: real)

  type Digest = multiset<Projection>

  datatype Batch = Batch(client: nat, digest: Digest, count: nat, total: real)

  datatype Book = Book(rows: seq<Row>, ledger: seq<Entry>, batches: seq<Batch>)

  datatype Error = NotFound | Illegal | Forbidden | Invalid

  datatype Outcome = Done | Inserted(count: nat) | Nothing | InBatch(batch: nat) | Failed(error: Error)

  datatype Op =
    | Stage(client: nat, lines: seq<Line>)
    | Approve(i: nat, reviewer: ApprovalMatrix.Principal)
    | Dismiss(i: nat, reviewer: ApprovalMatrix.Principal)
    | Remap(i: nat, reviewer: ApprovalMatrix.Principal, mapping: Mapping)
    | Release(client: nat)

  // -- staging ---------------------------------------------------------------------------

  predicate SameGrain(a: Row, b: Row) {
    a.client == b.client && a.docEntry == b.docEntry && a.lineNum == b.lineNum
  }

  predicate HasGrain(rows: seq<Row>, r: Row) {
    exists x :: x in rows && SameGrain(x, r)
  }

  function StatusOf(stage: ErpImport.Stage): Status {
    match stage case StageClean => Clean case StageHeld => Held case StageFlagged => Flagged
  }

  function Places(x: Option<real>, scale: real): Option<real>
    requires scale > 0.0
  {
    if x.Some? then Some(Carbon.Places(x.value, scale)) else None
  }

  /** What the columns keep: an amount to the cent, a quantity to four places, a factor to six. */
  function Stored(m: Mapping): Mapping {
    m.(quantity := Places(m.quantity, 10000.0), amount := Places(m.amount, 100.0),
       factor := Carbon.Places(m.factor, Carbon.MICRO))
  }

  /** `_to_values`: a row of the client in its import status, nobody's yet. */
  function Landed(client: nat, line: Line): Row {
    Row(client, line.docEntry, line.lineNum, Stored(line.mapping), line.quality, Carbon.Quantise(line.tco2e),
        StatusOf(line.stage), None, None)
  }

  /** Insert or ignore, line by line. */
  function StageAll(rows: seq<Row>, client: nat, lines: seq<Line>): (r: seq<Row>)
    ensures |rows| <= |r| && r[..|rows|] == rows
  {
    if lines == [] then rows
    else
      var before := StageAll(rows, client, lines[..|lines| - 1]);
      var line := Landed(client, lines[|lines| - 1]);
      if HasGrain(before, line) then before else before + [line]
  }

  // -- review --------------------------------------------------------------------------------

  predicate MayReview(r: Row, p: ApprovalMatrix.Principal) {
    && p.role != ApprovalMatrix.Viewer && p.CanAccess(r.client)
    && (r.editedBy.None? || r.editedBy.value != p.user)
    && (r.mapping.amount.None? || p.limit.None? || r.mapping.amount.value <= p.limit.value)
  }

  predicate Reviewable(r: Row) {
    r.status.Held? || r.status.Flagged?
  }

  /** The units a re-mapping is valued by. */
  function Units(m: Mapping): Option<real> {
    if m.basis.Activity? then m.quantity else m.amount
  }

  /** Valued from the figures as keyed, which the columns then round; an amount not given is kept. */
  function Remapped(r: Row, m: Mapping, editor: nat): Row
    requires Units(m).Some?
  {
    r.(mapping := Stored(m).(amount := if m.amount.Some? then Stored(m).amount else r.mapping.amount),
       quality := if m.basis.Activity? then Carbon.Measured else Carbon.Estimated,
       tco2e := Carbon.Tco2e(Units(m).value, m.factor), editedBy := Some(editor))
  }

  // -- release ---------------------------------------------------------------------------------

  predicate IsReady(r: Row, client: nat) {
    r.client == client && (r.status.Clean? || r.status.Approved?)
  }

  /** The rows to release among the first n, in table order. */
  function Ready(rows: seq<Row>, client: nat, n: nat): (r: seq<nat>)
    requires n <= |rows|
    ensures forall k :: 0 <= k < |r| ==> r[k] < n && IsReady(rows[r[k]], client)
    ensures forall i :: 0 <= i < n && IsReady(rows[i], client) ==> i in r
    ensures forall j, k :: 0 <= j < k < |r| ==> r[j] < r[k]
  {
    if n == 0 then []
    else Ready(rows, client, n - 1) + (if IsReady(rows[n - 1], client) then [n - 1] else [])
  }

  function ProjectionOf(rows: seq<Row>, i: nat): Projection
    requires i < |rows|
  {
    Projection(i, rows[i].mapping.scope, rows[i].mapping.factorRef, rows[i].mapping.quantity, rows[i].tco2e)
  }

  function DigestOf(rows: seq<Row>, ids: seq<nat>): Digest
    requires forall k :: 0 <= k < |ids| ==> ids[k] < |rows|
  {
    if ids == [] then multiset{} else DigestOf(rows, ids[..|ids| - 1]) + multiset{ProjectionOf(rows, ids[|ids| - 1])}
  }

  function TotalOf(rows: seq<Row>, ids: seq<nat>): real
    requires forall k :: 0 <= k < |ids| ==> ids[k] < |rows|
  {
    if ids == [] then 0.0 else TotalOf(rows, ids[..|ids| - 1]) + rows[ids[|ids| - 1]].tco2e
  }

  function ScopeNumber(scope: string): int {
    if scope == "scope_1" then 1 else if scope == "scope_2" then 2 else 3
  }

  function EntryOf(rows: seq<Row>, i: nat, batch: nat): Entry
    requires i < |rows|
  {
    var r := rows[i];
    Entry(r.client, i, ScopeNumber(r.mapping.scope), r.mapping.factorRef, r.mapping.quantity, r.mapping.uom,
          r.mapping.basis, r.tco2e, batch)
  }

  predicate HasEntry(ledger: seq<Entry>, client: nat, i: nat) {
    exists e :: e in ledger && e.client == client && e.source == i
  }

  /** The ledger once the given rows are projected, each unless it has an entry. */
  function Projected(rows: seq<Row>, ledger: seq<Entry>, client: nat, ids: seq<nat>, batch: nat): seq<Entry>
    requires forall k :: 0 <= k < |ids| ==> ids[k] < |rows|
  {
    if ids == [] then ledger
    else
      var before := Projected(rows, ledger, client, ids[..|ids| - 1], batch);
      var i := ids[|ids| - 1];
      if HasEntry(before, client, i) then before else before + [EntryOf(rows, i, batch)]
  }

  function Flipped(rows: seq<Row>, client: nat): (r: seq<Row>)
    ensures |r| == |rows|
    ensures forall i :: 0 <= i < |r| ==>
      r[i] == if IsReady(rows[i], client) then rows[i].(status := Released) else rows[i]
  {
    seq(|rows|,
        i requires 0 <= i < |rows| => if IsReady(rows[i], client) then rows[i].(status := Released) else rows[i])
  }

  function BatchByHash(batches: seq<Batch>, client: nat, digest: Digest): (r: Option<nat>)
    ensures r.Some? ==> r.value < |batches| && batches[r.value].client == client && batches[r.value].digest == digest
    ensures r.None? ==> forall b :: b in batches ==> b.client != client || b.digest != digest
  {
    if batches == [] then None
    else if batches[|batches| - 1].client == client && batches[|batches| - 1].digest == digest then Some(|batches| - 1)
    else BatchByHash(batches[..|batches| - 1], client, digest)
  }

  /** `release_clean`. */
  function ReleaseClean(book: Book, client: nat): (Book, Outcome) {
    var ids := Ready(book.rows, client, |book.rows|);
    if ids == [] then (book, Nothing)
    else
      var prior := BatchByHash(book.batches, client, DigestOf(book.rows, ids));
      if prior.Some? then (book, InBatch(prior.value))
      else
        (Book(Flipped(book.rows, client), Projected(book.rows, book.ledger, client, ids, |book.batches|),
              book.batches + [Batch(client, DigestOf(book.rows, ids), |ids|, TotalOf(book.rows, ids))]),
         InBatch(|book.batches|))
  }

  function Step(book: Book, op: Op): (Book, Outcome) {
    match op
    case Stage(client, lines) =>
      var rows := StageAll(book.rows, client, lines);
      (book.(rows := rows), Inserted(|rows| - |book.rows|))
    case Approve(i, p) =>
      if i >= |book.rows| then (book, Failed(NotFound))
      else if !Reviewable(book.rows[i]) then (book, Failed(Illegal))
      else if !MayReview(book.rows[i], p) then (book, Failed(Forbidden))
      else (book.(rows := book.rows[i := book.rows[i].(status := Approved, reviewedBy := Some(p.user))]), Done)
    case Dismiss(i, p) =>
      if i >= |book.rows| then (book, Failed(NotFound))
      else if !Reviewable(book.rows[i]) then (book, Failed(Illegal))
      else if !MayReview(book.rows[i], p) then (book, Failed(Forbidden))
      else (book.(rows := book.rows[i := book.rows[i].(status := Dismissed, reviewedBy := Some(p.user))]), Done)
    case Remap(i, p, m) =>
      if i >= |book.rows| then (book, Failed(NotFound))
      else if !book.rows[i].status.Flagged? then (book, Failed(Illegal))
      else if !MayReview(book.rows[i], p) then (book, Failed(Forbidden))
      else if Units(m).None? then (book, Failed(Invalid))
      else (book.(rows := book.rows[i := Remapped(book.rows[i], m, p.user)]), Done)
    case Release(client) => ReleaseClean(book, client)
  }

  function Run(book: Book, ops: seq<Op>): Book
    decreases |ops|
  {
    if ops == [] then book else Run(Step(book, ops[0]).0, ops[1..])
  }

  const EMPTY := Book([], [], [])

  // -- the invariant ---------------------------------------------------------------------------------

  predicate GrainsUnique(rows: seq<Row>) {
    forall j, k :: 0 <= j < k < |rows| ==> !SameGrain(rows[j], rows[k])
  }

  /** Whoever reviewed a row is not the last one who edited it. */
  predicate ReviewOk(r: Row) {
    && (r.status.Approved? || r.status.Dismissed? ==> r.reviewedBy.Some?)
    && (Reviewable(r) || r.status.Clean? ==> r.reviewedBy.None?)
    && (r.reviewedBy.Some? ==> r.reviewedBy != r.editedBy)
  }

  function EntriesFor(ledger: seq<Entry>, i: nat): seq<Entry> {
    if ledger == [] then []
    else
      var last := ledger[|ledger| - 1];
      EntriesFor(ledger[..|ledger| - 1], i) + if last.source == i then [last] else []
  }

  /** Released exactly when the ledger has one entry for the row, and that entry is the
      row's own projection. */
  predicate LedgerOk(rows: seq<Row>, i: nat, own: seq<Entry>)
    requires i < |rows|
  {
    if rows[i].status.Released? then |own| == 1 && own[0] == EntryOf(rows, i, own[0].batch) else own == []
  }

  function CountIn(ledger: seq<Entry>, b: nat): nat {
    if ledger == [] then 0 else CountIn(ledger[..|ledger| - 1], b) + (if ledger[|ledger| - 1].batch == b then 1 else 0)
  }

  function SumIn(ledger: seq<Entry>, b: nat): real {
    if ledger == [] then 0.0
    else
      var last := ledger[|ledger| - 1];
      SumIn(ledger[..|ledger| - 1], b) + if last.batch == b then last.tco2e else 0.0
  }

  /** A batch counts and totals its entries. */
  predicate BatchOk(ledger: seq<Entry>, batches: seq<Batch>, b: nat)
    requires b < |batches|
  {
    batches[b].count == CountIn(ledger, b) && batches[b].total == SumIn(ledger, b)
  }

  predicate DigestOk(rows: seq<Row>, digest: Digest) {
    forall p :: p in digest ==> p.source < |rows| && rows[p.source].status.Released?
  }

  predicate EntryOk(rows: seq<Row>, batches: nat, e: Entry) {
    e.source < |rows| && e.batch < batches
  }

  predicate Inv(book: Book) {
    && GrainsUnique(book.rows)
    && (forall i :: 0 <= i < |book.rows| ==> ReviewOk(book.rows[i]))
    && (forall i :: 0 <= i < |book.rows| ==> LedgerOk(book.rows, i, EntriesFor(book.ledger, i)))
    && (forall e :: e in book.ledger ==> EntryOk(book.rows, |book.batches|, e))
    && (forall b :: 0 <= b < |book.batches| ==> BatchOk(book.ledger, book.batches, b))
    && (forall b :: b in book.batches ==> DigestOk(book.rows, b.digest))
  }

  // -- every step keeps it -----------------------------------------------------------------------------

  lemma {:induction false} EntriesNone(ledger: seq<Entry>, i: nat)
    requires forall e :: e in ledger ==> e.source != i
    ensures EntriesFor(ledger, i) == []
  {
    if ledger != [] { EntriesNone(ledger[..|ledger| - 1], i); }
  }

  lemma {:induction false} EntriesAppend(a: seq<Entry>, b: seq<Entry>, i: nat)
    ensures EntriesFor(a + b, i) == EntriesFor(a, i) + EntriesFor(b, i)
    decreases |b|
  {
    if b == [] {
      assert a + b == a;
    } else {
      EntriesAppend(a, b[..|b| - 1], i);
      assert (a + b)[..|a + b| - 1] == a + b[..|b| - 1];
    }
  }

  lemma {:induction false} CountAppend(a: seq<Entry>, b: seq<Entry>, n: nat)
    ensures CountIn(a + b, n) == CountIn(a, n) + CountIn(b, n) && SumIn(a + b, n) == SumIn(a, n) + SumIn(b, n)
    decreases |b|
  {
    if b == [] {
      assert a + b == a;
    } else {
      CountAppend(a, b[..|b| - 1], n);
      assert (a + b)[..|a + b| - 1] == a + b[..|b| - 1];
    }
  }

  lemma {:induction false} CountNone(ledger: seq<Entry>, b: nat)
    requires forall e :: e in ledger ==> e.batch != b
    ensures CountIn(ledger, b) == 0 && SumIn(ledger, b) == 0.0
  {
    if ledger != [] { CountNone(ledger[..|ledger| - 1], b); }
  }

  /** The entries one release adds. */
  function Fresh(rows: seq<Row>, ids: seq<nat>, batch: nat): (r: seq<Entry>)
    requires forall k :: 0 <= k < |ids| ==> ids[k] < |rows|
    ensures |r| == |ids| && forall k :: 0 <= k < |r| ==> r[k] == EntryOf(rows, ids[k], batch)
  {
    seq(|ids|, k requires 0 <= k < |ids| => EntryOf(rows, ids[k], batch))
  }

  predicate Rising(ids: seq<nat>) {
    forall j, k :: 0 <= j < k < |ids| ==> ids[j] < ids[k]
  }

  lemma FreshStep(rows: seq<Row>, ids: seq<nat>, batch: nat)
    requires ids != [] && forall k :: 0 <= k < |ids| ==> ids[k] < |rows|
    ensures Fresh(rows, ids, batch) == Fresh(rows, ids[..|ids| - 1], batch) + [EntryOf(rows, ids[|ids| - 1], batch)]
    ensures Fresh(rows, ids, batch)[..|ids| - 1] == Fresh(rows, ids[..|ids| - 1], batch)
  {
  }

  lemma {:induction false} FreshFor(rows: seq<Row>, ids: seq<nat>, batch: nat, i: nat)
    requires Rising(ids) && forall k :: 0 <= k < |ids| ==> ids[k] < |rows|
    ensures EntriesFor(Fresh(rows, ids, batch), i) == if i in ids then [EntryOf(rows, i, batch)] else []
  {
    if ids != [] {
      var init, last := ids[..|ids| - 1], ids[|ids| - 1];
      FreshStep(rows, ids, batch);
      FreshFor(rows, init, batch, i);
      assert i in ids <==> i in init || i == last;
    }
  }

  lemma {:induction false} FreshCount(rows: seq<Row>, ids: seq<nat>, batch: nat, b: nat)
    requires forall k :: 0 <= k < |ids| ==> ids[k] < |rows|
    ensures CountIn(Fresh(rows, ids, batch), b) == if b == batch then |ids| else 0
    ensures SumIn(Fresh(rows, ids, batch), b) == if b == batch then TotalOf(rows, ids) else 0.0
  {
    if ids != [] {
      FreshStep(rows, ids, batch);
      FreshCount(rows, ids[..|ids| - 1], batch, b);
    }
  }

  lemma {:induction false} EntriesMembers(ledger: seq<Entry>, i: nat, e: Entry)
    requires e in ledger && e.source == i
    ensures e in EntriesFor(ledger, i)
  {
    var last := ledger[|ledger| - 1];
    if e != last {
      assert ledger == ledger[..|ledger| - 1] + [last];
      assert e in ledger[..|ledger| - 1];
      EntriesMembers(ledger[..|ledger| - 1], i, e);
    }
  }

  lemma {:induction false} NoEntryYet(rows: seq<Row>, ledger: seq<Entry>, client: nat, ids: seq<nat>, batch: nat,
                                      i: nat)
    requires Rising(ids) && i !in ids && (forall k :: 0 <= k < |ids| ==> ids[k] < |rows|) && EntriesFor(ledger, i) == []
    ensures !HasEntry(ledger + Fresh(rows, ids, batch), client, i)
  {
    var all := ledger + Fresh(rows, ids, batch);
    EntriesAppend(ledger, Fresh(rows, ids, batch), i);
    FreshFor(rows, ids, batch, i);
    forall e | e in all ensures e.source != i {
      if e.source == i { EntriesMembers(all, i, e); }
    }
  }

  lemma {:induction false} ProjectedIsFresh(rows: seq<Row>, ledger: seq<Entry>, client: nat, ids: seq<nat>, batch: nat)
    requires Rising(ids) && forall k :: 0 <= k < |ids| ==> ids[k] < |rows| && EntriesFor(ledger, ids[k]) == []
    ensures Projected(rows, ledger, client, ids, batch) == ledger + Fresh(rows, ids, batch)
  {
    if ids == [] {
      assert ledger + Fresh(rows, ids, batch) == ledger;
    } else {
      var init, last := ids[..|ids| - 1], ids[|ids| - 1];
      ProjectedIsFresh(rows, ledger, client, init, batch);
      NoEntryYet(rows, ledger, client, init, batch, last);
      FreshStep(rows, ids, batch);
    }
  }

  lemma {:induction false} StagedRows(rows: seq<Row>, client: nat, lines: seq<Line>)
    requires GrainsUnique(rows) && forall i :: 0 <= i < |rows| ==> ReviewOk(rows[i])
    ensures
      var after := StageAll(rows, client, lines);
      && GrainsUnique(after)
      && (forall i :: 0 <= i < |after| ==> ReviewOk(after[i]))
      && (forall i :: |rows| <= i < |after| ==> !after[i].status.Released?)
  {
    if lines != [] {
      StagedRows(rows, client, lines[..|lines| - 1]);
      var before := StageAll(rows, client, lines[..|lines| - 1]);
      var line := Landed(client, lines[|lines| - 1]);
      if !HasGrain(before, line) {
        forall j | 0 <= j < |before| ensures !SameGrain(before[j], line) {
          assert before[j] in before;
        }
      }
    }
  }

  lemma {:induction false} StageKeepsInv(book: Book, client: nat, lines: seq<Line>)
    requires Inv(book)
    ensures Inv(book.(rows := StageAll(book.rows, client, lines)))
  {
    var rows := StageAll(book.rows, client, lines);
    StagedRows(book.rows, client, lines);
    forall i | 0 <= i < |book.rows| ensures rows[i] == book.rows[i] {
      assert rows[..|book.rows|][i] == book.rows[i];
    }
    forall i | 0 <= i < |rows| ensures LedgerOk(rows, i, EntriesFor(book.ledger, i)) {
      if i < |book.rows| {
        assert LedgerOk(book.rows, i, EntriesFor(book.ledger, i));
      } else {
        EntriesNone(book.ledger, i);
      }
    }
    forall e | e in book.ledger ensures EntryOk(rows, |book.batches|, e) {
      assert EntryOk(book.rows, |book.batches|, e);
    }
    forall b | b in book.batches ensures DigestOk(rows, b.digest) {
      assert DigestOk(book.rows, b.digest);
    }
  }

  /** One unreleased row changed into another unreleased one of the same line. */
  lemma ReviewKeepsInv(book: Book, i: nat, r: Row)
    requires Inv(book) && i < |book.rows| && !book.rows[i].status.Released? && !r.status.Released?
    requires SameGrain(r, book.rows[i]) && ReviewOk(r)
    ensures Inv(book.(rows := book.rows[i := r]))
  {
    var rows := book.rows[i := r];
    forall k | 0 <= k < |rows| ensures LedgerOk(rows, k, EntriesFor(book.ledger, k)) {
      assert LedgerOk(book.rows, k, EntriesFor(book.ledger, k));
    }
    forall e | e in book.ledger ensures EntryOk(rows, |book.batches|, e) {
      assert EntryOk(book.rows, |book.batches|, e);
    }
    forall b | b in book.batches ensures DigestOk(rows, b.digest) {
      assert DigestOk(book.rows, b.digest);
    }
    forall j, k | 0 <= j < k < |rows| ensures !SameGrain(rows[j], rows[k]) {
      assert !SameGrain(book.rows[j], book.rows[k]);
    }
  }

  lemma {:induction false} DigestMembers(rows: seq<Row>, ids: seq<nat>, p: Projection)
    requires forall k :: 0 <= k < |ids| ==> ids[k] < |rows|
    ensures p in DigestOf(rows, ids) ==> p.source in ids
    ensures forall k :: 0 <= k < |ids| && p == ProjectionOf(rows, ids[k]) ==> p in DigestOf(rows, ids)
  {
    if ids != [] {
      var init := ids[..|ids| - 1];
      DigestMembers(rows, init, p);
      assert ids == init + [ids[|ids| - 1]];
      forall k | 0 <= k < |ids| && p == ProjectionOf(rows, ids[k]) ensures p in DigestOf(rows, ids) {
        if k < |init| { assert init[k] == ids[k]; }
      }
    }
  }

  /** The digest of rows about to be released was never anchored before. */
  lemma {:induction false} DigestIsFresh(book: Book, client: nat, ids: seq<nat>)
    requires (forall b :: b in book.batches ==> DigestOk(book.rows, b.digest)) && ids != []
    requires forall k :: 0 <= k < |ids| ==> ids[k] < |book.rows| && !book.rows[ids[k]].status.Released?
    ensures BatchByHash(book.batches, client, DigestOf(book.rows, ids)).None?
  {
    var p := ProjectionOf(book.rows, ids[0]);
    DigestMembers(book.rows, ids, p);
    forall b | b in book.batches ensures b.digest != DigestOf(book.rows, ids) {
      assert p !in b.digest;
    }
  }

  /** What a release with something ready leaves behind. */
  function AfterRelease(book: Book, client: nat, ids: seq<nat>): Book
    requires forall k :: 0 <= k < |ids| ==> ids[k] < |book.rows|
  {
    Book(Flipped(book.rows, client), book.ledger + Fresh(book.rows, ids, |book.batches|),
         book.batches + [Batch(client, DigestOf(book.rows, ids), |ids|, TotalOf(book.rows, ids))])
  }

  lemma {:induction false} ReleaseCommits(book: Book, client: nat)
    requires Inv(book)
    ensures
      var ids := Ready(book.rows, client, |book.rows|);
      ReleaseClean(book, client) == if ids == [] then (book, Nothing)
                                    else (AfterRelease(book, client, ids), InBatch(|book.batches|))
  {
    var ids := Ready(book.rows, client, |book.rows|);
    if ids != [] {
      forall k | 0 <= k < |ids| ensures EntriesFor(book.ledger, ids[k]) == [] {
        assert LedgerOk(book.rows, ids[k], EntriesFor(book.ledger, ids[k]));
      }
      DigestIsFresh(book, client, ids);
      ProjectedIsFresh(book.rows, book.ledger, client, ids, |book.batches|);
    }
  }

  lemma {:induction false} ReadyIff(rows: seq<Row>, client: nat, i: nat)
    requires i < |rows|
    ensures i in Ready(rows, client, |rows|) <==> IsReady(rows[i], client)
  {
    var ids := Ready(rows, client, |rows|);
    if i in ids {
      var k :| 0 <= k < |ids| && ids[k] == i;
    }
  }

  lemma {:induction false} EntriesAfterRelease(book: Book, client: nat, ids: seq<nat>, i: nat)
    requires ids == Ready(book.rows, client, |book.rows|) && i < |book.rows|
    ensures EntriesFor(AfterRelease(book, client, ids).ledger, i) ==
      EntriesFor(book.ledger, i)
      + if IsReady(book.rows[i], client) then [EntryOf(book.rows, i, |book.batches|)] else []
  {
    EntriesAppend(book.ledger, Fresh(book.rows, ids, |book.batches|), i);
    FreshFor(book.rows, ids, |book.batches|, i);
    ReadyIff(book.rows, client, i);
  }

  lemma FlippedEntry(rows: seq<Row>, client: nat, i: nat, batch: nat)
    requires i < |rows|
    ensures EntryOf(Flipped(rows, client), i, batch) == EntryOf(rows, i, batch)
  {
  }

  lemma {:induction false} ReleasedLedger(book: Book, client: nat, ids: seq<nat>, i: nat)
    requires ids == Ready(book.rows, client, |book.rows|) && i < |book.rows|
    requires LedgerOk(book.rows, i, EntriesFor(book.ledger, i))
    ensures
      var after := AfterRelease(book, client, ids);
      LedgerOk(after.rows, i, EntriesFor(after.ledger, i))
  {
    EntriesAfterRelease(book, client, ids, i);
    FlippedEntry(book.rows, client, i, |book.batches|);
    if book.rows[i].status.Released? { FlippedEntry(book.rows, client, i, EntriesFor(book.ledger, i)[0].batch); }
  }

  lemma {:induction false} ReleasedBatches(book: Book, client: nat, ids: seq<nat>, b: nat)
    requires ids == Ready(book.rows, client, |book.rows|) && b <= |book.batches|
    requires forall e :: e in book.ledger ==> EntryOk(book.rows, |book.batches|, e)
    requires b < |book.batches| ==> BatchOk(book.ledger, book.batches, b)
    ensures
      var after := AfterRelease(book, client, ids);
      BatchOk(after.ledger, after.batches, b)
  {
    CountAppend(book.ledger, Fresh(book.rows, ids, |book.batches|), b);
    FreshCount(book.rows, ids, |book.batches|, b);
    if b == |book.batches| {
      forall e | e in book.ledger ensures e.batch != b {
        assert EntryOk(book.rows, |book.batches|, e);
      }
      CountNone(book.ledger, b);
    }
  }

  lemma {:induction false} ReleasedDigests(book: Book, client: nat, ids: seq<nat>, digest: Digest)
    requires ids == Ready(book.rows, client, |book.rows|)
    requires DigestOk(book.rows, digest) || digest == DigestOf(book.rows, ids)
    ensures DigestOk(Flipped(book.rows, client), digest)
  {
    if digest == DigestOf(book.rows, ids) {
      forall p | p in digest ensures p.source < |book.rows| && IsReady(book.rows[p.source], client) {
        DigestMembers(book.rows, ids, p);
        var k :| 0 <= k < |ids| && ids[k] == p.source;
      }
    }
  }

  lemma {:induction false} ReleasedEntries(book: Book, client: nat, ids: seq<nat>)
    requires ids == Ready(book.rows, client, |book.rows|)
    requires forall e :: e in book.ledger ==> EntryOk(book.rows, |book.batches|, e)
    ensures
      var after := AfterRelease(book, client, ids);
      forall e :: e in after.ledger ==> EntryOk(after.rows, |after.batches|, e)
  {
    var added := Fresh(book.rows, ids, |book.batches|);
    forall e | e in book.ledger + added ensures e.source < |book.rows| && e.batch <= |book.batches| {
      if e in book.ledger {
        assert EntryOk(book.rows, |book.batches|, e);
      } else {
        var k :| 0 <= k < |added| && added[k] == e;
      }
    }
  }

  lemma ReleasedRows(rows: seq<Row>, client: nat)
    requires GrainsUnique(rows) && forall i :: 0 <= i < |rows| ==> ReviewOk(rows[i])
    ensures GrainsUnique(Flipped(rows, client)) && forall i :: 0 <= i < |rows| ==> ReviewOk(Flipped(rows, client)[i])
  {
    forall j, k | 0 <= j < k < |rows| ensures !SameGrain(Flipped(rows, client)[j], Flipped(rows, client)[k]) {
      assert !SameGrain(rows[j], rows[k]);
    }
    forall i | 0 <= i < |rows| ensures ReviewOk(Flipped(rows, client)[i]) {
      assert ReviewOk(rows[i]);
    }
  }

  lemma ReleaseKeepsInv(book: Book, client: nat)
    requires Inv(book)
    ensures Inv(ReleaseClean(book, client).0)
  {
    var ids := Ready(book.rows, client, |book.rows|);
    ReleaseCommits(book, client);
    if ids != [] {
      var after := AfterRelease(book, client, ids);
      ReleasedRows(book.rows, client);
      ReleasedEntries(book, client, ids);
      forall i | 0 <= i < |after.rows| ensures LedgerOk(after.rows, i, EntriesFor(after.ledger, i)) {
        assert LedgerOk(book.rows, i, EntriesFor(book.ledger, i));
        ReleasedLedger(book, client, ids, i);
      }
      forall b | 0 <= b < |after.batches| ensures BatchOk(after.ledger, after.batches, b) {
        ReleasedBatches(book, client, ids, b);
      }
      forall b | b in after.batches ensures DigestOk(after.rows, b.digest) {
        ReleasedDigests(book, client, ids, b.digest);
      }
    }
  }

  lemma StepKeepsInv(book: Book, op: Op)
    requires Inv(book)
    ensures Inv(Step(book, op).0)
  {
    match op
    case Stage(client, lines) => StageKeepsInv(book, client, lines);
    case Approve(i, p) =>
      if i < |book.rows| && Reviewable(book.rows[i]) && MayReview(book.rows[i], p) {
        assert ReviewOk(book.rows[i]);
        ReviewKeepsInv(book, i, book.rows[i].(status := Approved, reviewedBy := Some(p.user)));
      }
    case Dismiss(i, p) =>
      if i < |book.rows| && Reviewable(book.rows[i]) && MayReview(book.rows[i], p) {
        assert ReviewOk(book.rows[i]);
        ReviewKeepsInv(book, i, book.rows[i].(status := Dismissed, reviewedBy := Some(p.user)));
      }
    case Remap(i, p, m) =>
      if i < |book.rows| && book.rows[i].status.Flagged? && MayReview(book.rows[i], p) && Units(m).Some? {
        assert ReviewOk(book.rows[i]);
        ReviewKeepsInv(book, i, Remapped(book.rows[i], m, p.user));
      }
    case Release(client) => ReleaseKeepsInv(book, client);
  }

  lemma EmptyInv()
    ensures Inv(EMPTY)
  {
  }

  /** In every reachable state a row is released if and only if it has exactly one ledger
      entry, which is its own projection; nobody reviewed what they last edited; and every
      batch counts and totals its entries. */
  lemma {:induction false} RunKeepsInv(book: Book, ops: seq<Op>)
    requires Inv(book)
    ensures Inv(Run(book, ops))
    decreases |ops|
  {
    if ops != [] {
      StepKeepsInv(book, ops[0]);
      RunKeepsInv(Step(book, ops[0]).0, ops[1..]);
    }
  }

  // -- released for good ----------------------------------------------------------------------------

  lemma {:induction false} ReleaseKeepsEntries(book: Book, client: nat, i: nat)
    requires Inv(book) && i < |book.rows| && book.rows[i].status.Released?
    ensures
      var after := ReleaseClean(book, client).0;
      i < |after.rows| && after.rows[i] == book.rows[i] && EntriesFor(after.ledger, i) == EntriesFor(book.ledger, i)
  {
    var ids := Ready(book.rows, client, |book.rows|);
    ReleaseCommits(book, client);
    if ids != [] {
      EntriesAfterRelease(book, client, ids, i);
    }
  }

  lemma {:induction false} StepKeepsReleased(book: Book, op: Op, i: nat)
    requires Inv(book) && i < |book.rows| && book.rows[i].status.Released?
    ensures
      var after := Step(book, op).0;
      i < |after.rows| && after.rows[i] == book.rows[i] && EntriesFor(after.ledger, i) == EntriesFor(book.ledger, i)
  {
    match op
    case Stage(client, lines) =>
      assert StageAll(book.rows, client, lines)[..|book.rows|][i] == book.rows[i];
    case Release(client) => ReleaseKeepsEntries(book, client, i);
    case Approve(_, _) =>
    case Dismiss(_, _) =>
    case Remap(_, _, _) =>
  }

  /** Whatever comes later, a released row and its one ledger entry stay as they are, so
      the entry's tonnes remain the row's. */
  lemma {:induction false} ReleasedForGood(book: Book, ops: seq<Op>, i: nat)
    requires Inv(book) && i < |book.rows| && book.rows[i].status.Released?
    ensures
      var end := Run(book, ops);
      && i < |end.rows| && end.rows[i] == book.rows[i]
      && EntriesFor(end.ledger, i) == EntriesFor(book.ledger, i) && |EntriesFor(end.ledger, i)| == 1
      && EntriesFor(end.ledger, i)[0].tco2e == end.rows[i].tco2e
    decreases |ops|
  {
    if ops == [] {
      assert LedgerOk(book.rows, i, EntriesFor(book.ledger, i));
    } else {
      StepKeepsReleased(book, ops[0], i);
      StepKeepsInv(book, ops[0]);
      ReleasedForGood(Step(book, ops[0]).0, ops[1..], i);
    }
  }

  /** A second release with nothing new is a no-op, and writes no empty batch. */
  lemma ReleaseTwice(book: Book, client: nat)
    requires Inv(book)
    ensures ReleaseClean(ReleaseClean(book, client).0, client) == (ReleaseClean(book, client).0, Nothing)
  {
    ReleaseCommits(book, client);
    var after := ReleaseClean(book, client).0;
    if Ready(book.rows, client, |book.rows|) != [] {
      NoneReady(after.rows, client, |after.rows|);
    }
  }

  lemma {:induction false} NoneReady(rows: seq<Row>, client: nat, n: nat)
    requires n <= |rows| && forall i :: 0 <= i < n ==> !IsReady(rows[i], client)
    ensures Ready(rows, client, n) == []
  {
    if n > 0 { NoneReady(rows, client, n - 1); }
  }

  lemma {:induction false} StageHasGrains(rows: seq<Row>, client: nat, lines: seq<Line>, k: nat)
    requires k < |lines|
    ensures HasGrain(StageAll(rows, client, lines), Landed(client, lines[k]))
  {
    var init := lines[..|lines| - 1];
    var before, after := StageAll(rows, client, init), StageAll(rows, client, lines);
    if k < |init| {
      StageHasGrains(rows, client, init, k);
      var x :| x in before && SameGrain(x, Landed(client, lines[k]));
      assert x in after;
    } else if !HasGrain(before, Landed(client, lines[k])) {
      assert after[|after| - 1] in after;
    }
  }

  lemma {:induction false} StageIgnores(rows: seq<Row>, client: nat, lines: seq<Line>)
    requires forall k :: 0 <= k < |lines| ==> HasGrain(rows, Landed(client, lines[k]))
    ensures StageAll(rows, client, lines) == rows
  {
    if lines != [] { StageIgnores(rows, client, lines[..|lines| - 1]); }
  }

  /** Staging the same lines again, whatever review has done to the rows meanwhile, inserts
      nothing and alters nothing: rows keep their line for ever. */
  lemma {:induction false} RestageIsNoOp(book: Book, client: nat, lines: seq<Line>, ops: seq<Op>)
    requires Inv(book)
    ensures
      var later := Run(Step(book, Stage(client, lines)).0, ops);
      Step(later, Stage(client, lines)) == (later, Inserted(0))
  {
    var staged := Step(book, Stage(client, lines)).0;
    var later := Run(staged, ops);
    StepKeepsInv(book, Stage(client, lines));
    GrainsStay(staged, ops);
    forall k | 0 <= k < |lines| ensures HasGrain(later.rows, Landed(client, lines[k])) {
      StageHasGrains(book.rows, client, lines, k);
      var x :| x in staged.rows && SameGrain(x, Landed(client, lines[k]));
      var i :| 0 <= i < |staged.rows| && staged.rows[i] == x;
      assert SameGrain(later.rows[i], staged.rows[i]) && later.rows[i] in later.rows;
    }
    StageIgnores(later.rows, client, lines);
  }

  lemma {:induction false} GrainsStay(book: Book, ops: seq<Op>)
    requires Inv(book)
    ensures |book.rows| <= |Run(book, ops).rows|
    ensures forall i :: 0 <= i < |book.rows| ==> SameGrain(Run(book, ops).rows[i], book.rows[i])
    decreases |ops|
  {
    if ops != [] {
      var op := ops[0];
      var after := Step(book, op).0;
      forall i | 0 <= i < |book.rows| ensures i < |after.rows| && SameGrain(after.rows[i], book.rows[i]) {
        if op.Stage? { assert StageAll(book.rows, op.client, op.lines)[..|book.rows|][i] == book.rows[i]; }
        if op.Release? { ReleaseCommits(book, op.client); }
      }
      StepKeepsInv(book, op);
      GrainsStay(after, ops[1..]);
    }
  }

  /** A re-mapping is accepted exactly for a flagged row, by somebody with a role and a
      grant, within their limit for the row's amount, with the units its basis needs, and
      who is not the row's last editor: the same editor cannot correct a row twice. */
  lemma RemapAcceptedIff(book: Book, i: nat, p: ApprovalMatrix.Principal, m: Mapping)
    requires i < |book.rows|
    ensures
      var r := book.rows[i];
      Step(book, Remap(i, p, m)).1.Done? <==>
        && r.status.Flagged? && p.role != ApprovalMatrix.Viewer && r.client in p.clients && r.editedBy != Some(p.user)
        && (r.mapping.amount.Some? && p.limit.Some? ==> r.mapping.amount.value <= p.limit.value)
        && (if m.basis.Activity? then m.quantity.Some? else m.amount.Some?)
    ensures Step(book, Remap(i, p, m)).1.Done? ==>
      var after := Step(book, Remap(i, p, m)).0;
      Step(after, Remap(i, p, m)) == (after, Failed(Forbidden))
  {
  }

  // -- who edited, who approves -----------------------------------------------------------------------

  /** Everybody who re-mapped row i during the run, in order. */
  function EditorsOf(book: Book, ops: seq<Op>, i: nat): seq<nat>
    decreases |ops|
  {
    if ops == [] then []
    else
      (if Edits(book, ops[0], i) then [ops[0].reviewer.user] else []) + EditorsOf(Step(book, ops[0]).0, ops[1..], i)
  }

  predicate Edits(book: Book, op: Op, i: nat) {
    op.Remap? && op.i == i && Step(book, op).1.Done?
  }

  lemma EditorAfterStep(book: Book, op: Op, i: nat)
    requires i < |Step(book, op).0.rows|
    ensures Step(book, op).0.rows[i].editedBy ==
      if Edits(book, op, i) then Some(op.reviewer.user) else if i < |book.rows| then book.rows[i].editedBy else None
    ensures |book.rows| <= |Step(book, op).0.rows|
  {
    match op
    case Stage(client, lines) => StagedEditor(book.rows, client, lines, i);
    case _ =>
  }

  lemma {:induction false} StagedEditor(rows: seq<Row>, client: nat, lines: seq<Line>, i: nat)
    requires i < |StageAll(rows, client, lines)|
    ensures StageAll(rows, client, lines)[i].editedBy == if i < |rows| then rows[i].editedBy else None
  {
    if lines != [] {
      var before := StageAll(rows, client, lines[..|lines| - 1]);
      if i < |before| { StagedEditor(rows, client, lines[..|lines| - 1], i); }
    } else {
      assert StageAll(rows, client, lines) == rows;
    }
  }

  lemma RowsGrow(book: Book, op: Op)
    ensures |book.rows| <= |Step(book, op).0.rows|
  {
  }

  lemma {:induction false} RowsGrowInRun(book: Book, ops: seq<Op>)
    ensures |book.rows| <= |Run(book, ops).rows|
    decreases |ops|
  {
    if ops != [] {
      RowsGrow(book, ops[0]);
      RowsGrowInRun(Step(book, ops[0]).0, ops[1..]);
    }
  }

  /** Nobody edits a row before it is staged. */
  lemma {:induction false} LastEditorIs(book: Book, ops: seq<Op>, i: nat)
    requires i < |Run(book, ops).rows|
    ensures
      var editors := EditorsOf(book, ops, i);
      Run(book, ops).rows[i].editedBy ==
        if editors != [] then Some(editors[|editors| - 1]) else if i < |book.rows| then book.rows[i].editedBy else None
    decreases |ops|
  {
    if ops != [] {
      var after := Step(book, ops[0]).0;
      LastEditorIs(after, ops[1..], i);
      if i < |after.rows| { EditorAfterStep(book, ops[0], i); }
      RowsGrow(book, ops[0]);
    }
  }

  /** Somebody who edited a row during a run can approve it exactly when they are not the last
      one who did, and the row, their role, grant and limit allow it. */
  lemma {:induction false} EditorApprovesIff(ops: seq<Op>, i: nat, p: ApprovalMatrix.Principal)
    requires i < |Run(EMPTY, ops).rows| && p.user in EditorsOf(EMPTY, ops, i)
    ensures
      var book, editors := Run(EMPTY, ops), EditorsOf(EMPTY, ops, i);
      var r := book.rows[i];
      Step(book, Approve(i, p)).1.Done? <==>
        && p.user != editors[|editors| - 1]
        && Reviewable(r) && p.role != ApprovalMatrix.Viewer && r.client in p.clients
        && (r.mapping.amount.Some? && p.limit.Some? ==> r.mapping.amount.value <= p.limit.value)
  {
    LastEditorIs(EMPTY, ops, i);
  }

  /** And that happens: after one person re-maps with an amount and another by quantity, without
      one, the first approves a row whose amount is their own. */
  lemma EarlierEditorApproves(book: Book, i: nat, a: ApprovalMatrix.Principal, b: ApprovalMatrix.Principal,
                              mine: Mapping, theirs: Mapping)
    requires i < |book.rows| && book.rows[i].status.Flagged? && MayReview(book.rows[i], a) && a.user != b.user
    requires Units(mine).Some? && mine.amount.Some? && (a.limit.Some? ==> Stored(mine).amount.value <= a.limit.value)
    requires theirs.basis.Activity? && theirs.quantity.Some? && theirs.amount.None?
    requires b.role != ApprovalMatrix.Viewer && b.CanAccess(book.rows[i].client)
    requires b.limit.Some? ==> Stored(mine).amount.value <= b.limit.value
    ensures
      var first := Step(book, Remap(i, a, mine));
      var second := Step(first.0, Remap(i, b, theirs));
      var third := Step(second.0, Approve(i, a));
      && first.1.Done? && second.1.Done? && third.1.Done?
      && third.0.rows[i].status == Approved && third.0.rows[i].reviewedBy == Some(a.user)
      && third.0.rows[i].mapping.amount == Stored(mine).amount
  {
  }

  /** Nothing but row i may differ. */
  predicate OnlyRow(before: Book, after: Book, i: nat) {
    && after.ledger == before.ledger && after.batches == before.batches && |after.rows| == |before.rows|
    && forall k :: 0 <= k < |before.rows| && k != i ==> after.rows[k] == before.rows[k]
  }

  lemma StepMayKeepInv(book: Book, op: Op)
    ensures Inv(book) ==> Inv(Step(book, op).0)
  {
    if Inv(book) { StepKeepsInv(book, op); }
  }

  // -- the services as they run ----------------------------------------------------------------------

  class ReviewService {
    var rows: seq<Row>
    var ledger: seq<Entry>
    var batches: seq<Batch>

    function State(): Book
      reads this
    {
      Book(rows, ledger, batches)
    }

    constructor ()
      ensures State() == EMPTY
    {
      rows, ledger, batches := [], [], [];
    }

    method StageLines(client: nat, lines: seq<Line>) returns (inserted: nat)
      modifies this
      ensures (State(), Inserted(inserted)) == Step(old(State()), Stage(client, lines))
    {
      inserted := 0;
      var all := rows;
      var i := 0;
      while i < |lines|
        invariant 0 <= i <= |lines| && all == StageAll(rows, client, lines[..i]) && inserted == |all| - |rows|
        invariant State() == old(State())
      {
        assert lines[..i + 1][..i] == lines[..i];
        var row := Landed(client, lines[i]);
        if !HasGrain(all, row) {
          all := all + [row];
          inserted := inserted + 1;
        }
        i := i + 1;
      }
      assert lines[..i] == lines;
      rows := all;
    }

    method ApproveRow(i: nat, p: ApprovalMatrix.Principal) returns (outcome: Outcome)
      modifies this
      ensures (State(), outcome) == Step(old(State()), Approve(i, p))
      ensures OnlyRow(old(State()), State(), i) && (!outcome.Done? ==> State() == old(State()))
      ensures outcome.Done? <==> i < |old(rows)| && Reviewable(old(rows)[i]) && MayReview(old(rows)[i], p)
      ensures outcome.Done? ==>
        && IsReady(rows[i], rows[i].client) && rows[i].reviewedBy == Some(p.user) && rows[i].editedBy != Some(p.user)
        && rows[i].mapping == old(rows)[i].mapping && rows[i].tco2e == old(rows)[i].tco2e
      ensures Inv(old(State())) ==> Inv(State())
    {
      StepMayKeepInv(State(), Approve(i, p));
      if i >= |rows| { return Failed(NotFound); }
      if !Reviewable(rows[i]) { return Failed(Illegal); }
      if !MayReview(rows[i], p) { return Failed(Forbidden); }
      rows := rows[i := rows[i].(status := Approved, reviewedBy := Some(p.user))];
      outcome := Done;
    }

    method DismissRow(i: nat, p: ApprovalMatrix.Principal) returns (outcome: Outcome)
      modifies this
      ensures (State(), outcome) == Step(old(State()), Dismiss(i, p))
      ensures OnlyRow(old(State()), State(), i) && (!outcome.Done? ==> State() == old(State()))
      ensures outcome.Done? <==> i < |old(rows)| && Reviewable(old(rows)[i]) && MayReview(old(rows)[i], p)
      ensures outcome.Done? ==>
        && !IsReady(rows[i], rows[i].client) && !Reviewable(rows[i])
        && rows[i].reviewedBy == Some(p.user) && rows[i].editedBy != Some(p.user)
      ensures Inv(old(State())) ==> Inv(State())
    {
      StepMayKeepInv(State(), Dismiss(i, p));
      if i >= |rows| { return Failed(NotFound); }
      if !Reviewable(rows[i]) { return Failed(Illegal); }
      if !MayReview(rows[i], p) { return Failed(Forbidden); }
      rows := rows[i := rows[i].(status := Dismissed, reviewedBy := Some(p.user))];
      outcome := Done;
    }

    method RemapRow(i: nat, p: ApprovalMatrix.Principal, m: Mapping) returns (outcome: Outcome)
      modifies this
      ensures (State(), outcome) == Step(old(State()), Remap(i, p, m))
      ensures OnlyRow(old(State()), State(), i) && (!outcome.Done? ==> State() == old(State()))
      ensures outcome.Done? <==>
        i < |old(rows)| && old(rows)[i].status.Flagged? && MayReview(old(rows)[i], p) && Units(m).Some?
      ensures outcome.Done? ==>
        && rows[i].tco2e == Carbon.Tco2e(Units(m).value, m.factor)
        && rows[i].mapping == Stored(m).(amount := if m.amount.Some? then Stored(m).amount
                                                   else old(rows)[i].mapping.amount)
        && rows[i].editedBy == Some(p.user) && old(rows)[i].editedBy != Some(p.user)
        && rows[i].status == old(rows)[i].status && rows[i].reviewedBy == old(rows)[i].reviewedBy
      ensures Inv(old(State())) ==> Inv(State())
    {
      StepMayKeepInv(State(), Remap(i, p, m));
      if i >= |rows| { return Failed(NotFound); }
      if !rows[i].status.Flagged? { return Failed(Illegal); }
      if !MayReview(rows[i], p) { return Failed(Forbidden); }
      var units := Units(m);
      if units.None? { return Failed(Invalid); }
      var kept := Stored(m);
      var r := rows[i].(mapping := kept.(amount := if m.amount.Some? then kept.amount else rows[i].mapping.amount));
      r := r.(quality := if m.basis.Activity? then Carbon.Measured else Carbon.Estimated);
      r := r.(tco2e := Carbon.Tco2e(units.value, m.factor), editedBy := Some(p.user));
      rows := rows[i := r];
      outcome := Done;
    }

    method ReleaseRows(client: nat) returns (outcome: Outcome)
      modifies this
      ensures (State(), outcome) == Step(old(State()), Release(client))
    {
      var ids := Ready(rows, client, |rows|);
      if ids == [] { return Nothing; }
      var digest, total := SumUp(rows, ids);
      var savepoint := State();
      var batch := |batches|;
      var clash := BatchByHash(batches, client, digest).Some?;
      batches := batches + [Batch(client, digest, |ids|, total)];
      if !clash {
        ProjectRows(client, ids, batch);
        AllFlipped(savepoint.rows, client, rows);
        return InBatch(batch);
      }
      Restore(savepoint);
      var prior := BatchByHash(batches, client, digest);
      outcome := InBatch(prior.value);
    }

    /** Rolls back to a savepoint. */
    method Restore(savepoint: Book)
      modifies this
      ensures State() == savepoint
    {
      rows, ledger, batches := savepoint.rows, savepoint.ledger, savepoint.batches;
    }

    /** The loop of a release: an entry for every row that has none, and every row flipped. */
    method ProjectRows(client: nat, ids: seq<nat>, batch: nat)
      requires forall k :: 0 <= k < |ids| ==> ids[k] < |rows|
      modifies this
      ensures batches == old(batches)
      ensures PartFlipped(old(rows), ids, rows) && ledger == Projected(old(rows), old(ledger), client, ids, batch)
    {
      var k := 0;
      while k < |ids|
        invariant 0 <= k <= |ids| && batches == old(batches)
        invariant PartFlipped(old(rows), ids[..k], rows)
        invariant ledger == Projected(old(rows), old(ledger), client, ids[..k], batch)
      {
        var i := ids[k];
        assert ids[..k + 1][..k] == ids[..k] && ids[..k + 1] == ids[..k] + [i];
        FlipOne(old(rows), ids[..k], rows, i);
        assert i < |old(rows)|;
        SameEntry(old(rows), ids[..k], rows, i, batch);
        if !HasEntry(ledger, client, i) { ledger := ledger + [EntryOf(rows, i, batch)]; }
        rows := rows[i := rows[i].(status := Released)];
        k := k + 1;
      }
      assert ids[..k] == ids;
    }
  }

  method SumUp(rows: seq<Row>, ids: seq<nat>) returns (digest: Digest, total: real)
    requires forall k :: 0 <= k < |ids| ==> ids[k] < |rows|
    ensures digest == DigestOf(rows, ids) && total == TotalOf(rows, ids)
  {
    digest, total := multiset{}, 0.0;
    var k := 0;
    while k < |ids|
      invariant 0 <= k <= |ids| && digest == DigestOf(rows, ids[..k]) && total == TotalOf(rows, ids[..k])
    {
      assert ids[..k + 1][..k] == ids[..k];
      digest := digest + multiset{ProjectionOf(rows, ids[k])};
      total := total + rows[ids[k]].tco2e;
      k := k + 1;
    }
    assert ids[..k] == ids;
  }

  /** The rows in the middle of a release: those in `done` are flipped. */
  predicate PartFlipped(rows: seq<Row>, done: seq<nat>, flipped: seq<Row>) {
    |flipped| == |rows| && forall i :: 0 <= i < |rows| ==>
      flipped[i] == if i in done then rows[i].(status := Released) else rows[i]
  }

  lemma FlipOne(rows: seq<Row>, done: seq<nat>, flipped: seq<Row>, i: nat)
    requires PartFlipped(rows, done, flipped) && i < |rows|
    ensures PartFlipped(rows, done + [i], flipped[i := flipped[i].(status := Released)])
  {
  }

  /** Flipping rows does not change what is projected of them. */
  lemma SameEntry(rows: seq<Row>, done: seq<nat>, flipped: seq<Row>, i: nat, batch: nat)
    requires PartFlipped(rows, done, flipped) && i < |rows|
    ensures EntryOf(flipped, i, batch) == EntryOf(rows, i, batch)
  {
  }

  lemma {:induction false} AllFlipped(rows: seq<Row>, client: nat, flipped: seq<Row>)
    requires PartFlipped(rows, Ready(rows, client, |rows|), flipped)
    ensures flipped == Flipped(rows, client)
  {
    var ids := Ready(rows, client, |rows|);
    forall i | 0 <= i < |rows| ensures i in ids <==> IsReady(rows[i], client) {
      if i in ids {
        var j :| 0 <= j < |ids| && ids[j] == i;
      }
    }
  }
}
