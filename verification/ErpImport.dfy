/** Importing an accounts-payable listing: structural validation, mapping, cross-channel
    screening and the idempotent store (src/erpsync/pipeline.py, src/erpsync/ingest/validate.py,
    src/erpsync/dedup/crosschannel.py, src/erpsync/persistence/store.py).

    Cells arrive stripped; whether a number parses is part of the input. */
module ErpImport {
  import opened Prelude
  import opened Carbon
  import CanonicalHash

  datatype Cell<T> = Blank | Value(value: T) | Garbage

  datatype RawRow = RawRow(docEntry: string, vendor: string, amount: Cell<real>, lineNum: Cell<int>,
                           quantity: Cell<real>,
                           docNumber: Option<string>, item: Option<string>, gl: Option<string>, uom: Option<string>)

  datatype LineKey = LineKey(client: string, docEntry: string, lineNum: int)

  datatype RowStatus = Clean | Warning | Duplicate | Rejected

  /** Row positions count from 1. */
  datatype Outcome = Outcome(row: nat, status: RowStatus, key: Option<LineKey>)

  datatype Entry = Entry(key: LineKey, docNumber: Option<string>, category: string, scope: string, basis: Basis,
                         quality: Quality, quantity: Option<real>, uom: Option<string>, amount: Option<real>,
                         factorRef: string, factor: real, ruleId: string, tco2e: real)

  /** `owned` says of a category whether ERP Sync owns it; `claimed` are document numbers
      e-Claim has captured. */
  datatype Config = Config(client: string, rules: seq<Rule>, factors: Factors, owned: map<string, bool>,
                           claimed: set<string>)

  // -- validation ----------------------------------------------------------------------

  predicate Malformed(r: RawRow) {
    r.docEntry == "" || r.vendor == "" || !r.amount.Value? || r.lineNum.Garbage? || r.quantity.Garbage?
  }

  function KeyOf(client: string, r: RawRow): LineKey {
    LineKey(client, r.docEntry, if r.lineNum.Value? then r.lineNum.value else 0)
  }

  /** What a row is, from the file and the keys already committed alone: malformed, a repeat
      of a committed key or of an earlier well-formed row, or accepted. */
  datatype Verdict = IsMalformed | IsRepeat | IsAccepted

  predicate EarlierSame(rows: seq<RawRow>, client: string, i: nat)
    requires i < |rows|
  {
    exists j :: 0 <= j < i && !Malformed(rows[j]) && KeyOf(client, rows[j]) == KeyOf(client, rows[i])
  }

  function VerdictOf(rows: seq<RawRow>, client: string, seen: set<LineKey>, i: nat): Verdict
    requires i < |rows|
  {
    if Malformed(rows[i]) then IsMalformed
    else if KeyOf(client, rows[i]) in seen || EarlierSame(rows, client, i) then IsRepeat
    else IsAccepted
  }

  /** The accepted rows among the first n, in order. */
  function AcceptedRows(rows: seq<RawRow>, client: string, seen: set<LineKey>, n: nat): (r: seq<nat>)
    requires n <= |rows|
    ensures forall k :: 0 <= k < |r| ==> r[k] < n && VerdictOf(rows, client, seen, r[k]).IsAccepted?
    ensures forall j, k :: 0 <= j < k < |r| ==> r[j] < r[k]
    ensures forall i :: 0 <= i < n && VerdictOf(rows, client, seen, i).IsAccepted? ==> i in r
  {
    if n == 0 then []
    else
      AcceptedRows(rows, client, seen, n - 1)
      + if VerdictOf(rows, client, seen, n - 1).IsAccepted? then [n - 1] else []
  }

  /** The outcomes validation decides by itself: one for each malformed or repeated row. */
  function EarlyOutcomes(rows: seq<RawRow>, client: string, seen: set<LineKey>, n: nat): seq<Outcome>
    requires n <= |rows|
  {
    if n == 0 then []
    else
      var before := EarlyOutcomes(rows, client, seen, n - 1);
      match VerdictOf(rows, client, seen, n - 1)
      case IsMalformed => before + [Outcome(n, Rejected, None)]
      case IsRepeat => before + [Outcome(n, Duplicate, Some(KeyOf(client, rows[n - 1])))]
      case IsAccepted => before
  }

  /** `validate_rows`. */
  method ValidateRows(rows: seq<RawRow>, client: string, seen: set<LineKey>)
    returns (accepted: seq<nat>, outcomes: seq<Outcome>)
    ensures accepted == AcceptedRows(rows, client, seen, |rows|)
    ensures outcomes == EarlyOutcomes(rows, client, seen, |rows|)
  {
    accepted, outcomes := [], [];
    var inFile: set<LineKey> := {};
    var i := 0;
    while i < |rows|
      invariant 0 <= i <= |rows|
      invariant accepted == AcceptedRows(rows, client, seen, i) && outcomes == EarlyOutcomes(rows, client, seen, i)
      invariant forall key :: key in inFile <==>
        key !in seen && exists j :: 0 <= j < i && !Malformed(rows[j]) && KeyOf(client, rows[j]) == key
    {
      var row := rows[i];
      if Malformed(row) {
        outcomes := outcomes + [Outcome(i + 1, Rejected, None)];
      } else {
        var key := KeyOf(client, row);
        if key in seen || key in inFile {
          outcomes := outcomes + [Outcome(i + 1, Duplicate, Some(key))];
        } else {
          inFile := inFile + {key};
          accepted := accepted + [i];
        }
      }
      i := i + 1;
    }
  }

  // -- mapping and screening -----------------------------------------------------------------

  function RecordOf(r: RawRow): Record {
    Record(r.item, Some(r.vendor), r.gl, if r.quantity.Value? then Some(r.quantity.value) else None, r.uom,
           if r.amount.Value? then Some(r.amount.value) else None)
  }

  /** `_build_entry`: an unmapped line is kept, worth nothing, for review. */
  function BuildEntry(r: RawRow, config: Config): (e: Result<(Entry, RowStatus), Carbon.Error>)
    ensures e.Ok? ==> e.value.0.key == KeyOf(config.client, r) && (e.value.1.Clean? || e.value.1.Warning?)
  {
    var record, key := RecordOf(r), KeyOf(config.client, r);
    var winner := Winner(record, config.rules);
    if winner.None? then
      Ok((Entry(key, r.docNumber, "UNMAPPED", "scope_3_other", Spend, Flagged, None, None, record.amount, "", 0.0, "",
                0.0),
          Warning))
    else
      WinnerWins(record, config.rules);
      var rule := config.rules[winner.value];
      var x := Resolve(record, rule, config.factors);
      if x.Err? then Err(x.error)
      else
        var emission := Compute(x.value, config.factors);
        if emission.Err? then Err(emission.error)
        else
          Ok((Entry(key, r.docNumber, rule.category, rule.scope, x.value.basis, x.value.quality, x.value.quantity,
                    x.value.uom, x.value.amount,
                    if emission.value.factorRef.Some? then emission.value.factorRef.value else "",
                    emission.value.factor, rule.id, emission.value.tco2e),
              if x.value.quality.Measured? then Clean else Warning))
  }

  /** The mapping of an accepted line can only fail on a factor the rules name and the set
      does not have. */
  lemma BuildFailsOnlyOnFactors(r: RawRow, config: Config)
    requires !Malformed(r) && forall rule :: rule in config.rules ==> Backed(rule, config.factors)
    ensures BuildEntry(r, config).Ok?
  {
    var winner := Winner(RecordOf(r), config.rules);
    if winner.Some? {
      WinnerWins(RecordOf(r), config.rules);
      var rule := config.rules[winner.value];
      assert rule in config.rules;
      ComputeFailsIff(RecordOf(r), rule, config.factors);
    }
  }

  /** Another channel owns the category, or e-Claim has the document. */
  predicate Held(e: Entry, config: Config) {
    || (e.category in config.owned && !config.owned[e.category])
    || (e.docNumber.Some? && e.docNumber.value != "" &&
        exists d :: d in config.claimed && d != "" && Strip(d) == Strip(e.docNumber.value))
  }

  function Keys(entries: seq<Entry>): set<LineKey> {
    if entries == [] then {} else Keys(entries[..|entries| - 1]) + {entries[|entries| - 1].key}
  }

  lemma {:induction false} KeysStep(entries: seq<Entry>, e: Entry)
    ensures Keys(entries + [e]) == Keys(entries) + {e.key}
  {
    assert (entries + [e])[..|entries|] == entries;
  }

  lemma {:induction false} KeysAre(entries: seq<Entry>, key: LineKey)
    ensures key in Keys(entries) <==> exists i :: 0 <= i < |entries| && entries[i].key == key
  {
    if entries != [] {
      var init := entries[..|entries| - 1];
      KeysAre(init, key);
      if key in Keys(init) {
        var i :| 0 <= i < |init| && init[i].key == key;
        assert entries[i].key == key;
      }
    }
  }

  /** `screen`: the line keys held back. */
  method Screen(entries: seq<Entry>, config: Config) returns (hits: seq<LineKey>)
    ensures forall key :: key in hits <==> exists e :: e in entries && e.key == key && Held(e, config)
    ensures |hits| <= |entries|
  {
    hits := [];
    var i := 0;
    while i < |entries|
      invariant 0 <= i <= |entries| && |hits| <= i
      invariant forall key :: key in hits <==>
        exists k :: 0 <= k < i && entries[k].key == key && Held(entries[k], config)
    {
      var e := entries[i];
      if e.category in config.owned && !config.owned[e.category] {
        hits := hits + [e.key];
      } else if e.docNumber.Some? && e.docNumber.value != "" &&
                exists d :: d in config.claimed && d != "" && Strip(d) == Strip(e.docNumber.value) {
        hits := hits + [e.key];
      }
      i := i + 1;
    }
  }

  predicate KeysDistinct(entries: seq<Entry>) {
    forall i, j :: 0 <= i < j < |entries| ==> entries[i].key != entries[j].key
  }

  lemma {:induction false} KeyAdded(entries: seq<Entry>, e: Entry)
    requires KeysDistinct(entries)
    ensures Keys(entries + [e]) == Keys(entries) + {e.key}
    ensures e.key !in Keys(entries) ==> KeysDistinct(entries + [e])
  {
    KeysStep(entries, e);
    KeysAre(entries, e.key);
  }

  lemma {:induction false} NewStep(known: set<LineKey>, batch: seq<Entry>, i: nat)
    requires i < |batch|
    ensures Keys(batch[..i + 1]) == Keys(batch[..i]) + {batch[i].key}
    ensures NewEntries(known, batch[..i + 1]) ==
            NewEntries(known, batch[..i]) + (if batch[i].key in known + Keys(batch[..i]) then [] else [batch[i]])
  {
    assert batch[..i + 1] == batch[..i] + [batch[i]] && batch[..i + 1][..i] == batch[..i];
    KeysStep(batch[..i], batch[i]);
  }

  // -- the store -------------------------------------------------------------------------------

  class Store {
    var entries: seq<Entry>
    var keys: set<LineKey>

    /** The key set is the keys of the entries, and no key has two. */
    ghost predicate Valid()
      reads this
    {
      keys == Keys(entries) && KeysDistinct(entries)
    }

    constructor ()
      ensures Valid() && entries == [] && keys == {}
    {
      entries, keys := [], {};
    }

    method KnownKeys(client: string) returns (known: set<LineKey>)
      ensures known == set key | key in keys && key.client == client
    {
      known := set key | key in keys && key.client == client;
    }

    /** Appends the entries whose key is new. */
    method Commit(batch: seq<Entry>) returns (added: nat)
      requires Valid()
      modifies this
      ensures Valid()
      ensures entries == old(entries) + NewEntries(old(keys), batch)
      ensures added == |NewEntries(old(keys), batch)|
    {
      entries, keys, added := AppendNew(entries, keys, batch);
    }
  }

  /** The loop of `commit` over the batch. */
  method AppendNew(entries: seq<Entry>, keys: set<LineKey>, batch: seq<Entry>)
    returns (after: seq<Entry>, known: set<LineKey>, added: nat)
    requires keys == Keys(entries) && KeysDistinct(entries)
    ensures after == entries + NewEntries(keys, batch) && added == |NewEntries(keys, batch)|
    ensures known == Keys(after) && KeysDistinct(after)
  {
    after, known, added := entries, keys, 0;
    var i := 0;
    while i < |batch|
      invariant 0 <= i <= |batch|
      invariant known == Keys(after) && KeysDistinct(after) && known == keys + Keys(batch[..i])
      invariant after == entries + NewEntries(keys, batch[..i]) && added == |NewEntries(keys, batch[..i])|
    {
      var e := batch[i];
      NewStep(keys, batch, i);
      KeyAdded(after, e);
      ConcatAssoc(entries, NewEntries(keys, batch[..i]), [e]);
      assert e.key in known <==> e.key in keys + Keys(batch[..i]);
      if e.key !in known {
        known := known + {e.key};
        after := after + [e];
        added := added + 1;
      }
      i := i + 1;
    }
    assert batch[..i] == batch;
  }

  /** The entries of a batch whose key is neither known nor earlier in the batch. */
  function NewEntries(known: set<LineKey>, batch: seq<Entry>): seq<Entry> {
    if batch == [] then []
    else
      var init, last := batch[..|batch| - 1], batch[|batch| - 1];
      NewEntries(known, init) + (if last.key in known + Keys(init) then [] else [last])
  }

  lemma {:induction false} AllNew(known: set<LineKey>, batch: seq<Entry>)
    requires forall i :: 0 <= i < |batch| ==> batch[i].key !in known
    requires KeysDistinct(batch)
    ensures NewEntries(known, batch) == batch
  {
    if batch != [] {
      var init, last := batch[..|batch| - 1], batch[|batch| - 1];
      AllNew(known, init);
      KeysAre(init, last.key);
    }
  }

  // -- the batch hash ------------------------------------------------------------------------

  /** Code-point order. */
  predicate TextLe(a: string, b: string) {
    a == "" || (b != "" && (a[0] < b[0] || (a[0] == b[0] && TextLe(a[1..], b[1..]))))
  }

  lemma {:induction false} TextLeTotal(a: string, b: string)
    ensures TextLe(a, b) || TextLe(b, a)
    ensures TextLe(a, b) && TextLe(b, a) ==> a == b
  {
    if a != "" && b != "" && a[0] == b[0] {
      TextLeTotal(a[1..], b[1..]);
      assert a == [a[0]] + a[1..] && b == [b[0]] + b[1..];
    }
  }

  lemma {:induction false} TextLeTransitive(a: string, b: string, c: string)
    requires TextLe(a, b) && TextLe(b, c)
    ensures TextLe(a, c)
  {
    if a != "" && a[0] == b[0] && b[0] == c[0] {
      TextLeTransitive(a[1..], b[1..], c[1..]);
    }
  }

  /** The order of line keys. */
  predicate KeyLe(a: LineKey, b: LineKey) {
    if a.client != b.client then TextLe(a.client, b.client)
    else if a.docEntry != b.docEntry then TextLe(a.docEntry, b.docEntry)
    else a.lineNum <= b.lineNum
  }

  lemma KeyLeIsOrder()
    ensures CanonicalHash.TotalOrder(KeyLe)
  {
    forall a, b ensures KeyLe(a, b) || KeyLe(b, a) ensures KeyLe(a, b) && KeyLe(b, a) ==> a == b {
      TextLeTotal(a.client, b.client);
      TextLeTotal(a.docEntry, b.docEntry);
    }
    forall a, b, c | KeyLe(a, b) && KeyLe(b, c) ensures KeyLe(a, c) {
      KeyLeTransitive(a, b, c);
    }
  }

  lemma KeyLeTransitive(a: LineKey, b: LineKey, c: LineKey)
    requires KeyLe(a, b) && KeyLe(b, c)
    ensures KeyLe(a, c)
  {
    TextLeTotal(a.client, b.client);
    TextLeTotal(b.client, c.client);
    TextLeTotal(a.docEntry, b.docEntry);
    TextLeTotal(b.docEntry, c.docEntry);
    if TextLe(a.client, b.client) && TextLe(b.client, c.client) { TextLeTransitive(a.client, b.client, c.client); }
    if TextLe(a.docEntry, b.docEntry) && TextLe(b.docEntry, c.docEntry) {
      TextLeTransitive(a.docEntry, b.docEntry, c.docEntry);
    }
  }

  function LineKeyOf(e: Entry): LineKey { e.key }

  /** `batch_hash`: the entries, without their notes, sorted by line key. */
  function BatchHash(entries: seq<Entry>): CanonicalHash.Digest<Entry> {
    CanonicalHash.Hash(entries, LineKeyOf, KeyLe)
  }

  /** Entries with distinct keys: the hash does not depend on their order, and equal hashes
      mean the same entries. */
  lemma BatchHashIsContents(a: seq<Entry>, b: seq<Entry>)
    requires KeysDistinct(a)
    ensures BatchHash(a) == BatchHash(b) <==> multiset(a) == multiset(b)
  {
    KeyLeIsOrder();
    forall x, y | x in a && y in a && x.key == y.key ensures x == y {
      var i :| 0 <= i < |a| && a[i] == x;
      var j :| 0 <= j < |a| && a[j] == y;
    }
    CanonicalHash.DigestIsContents(a, b, LineKeyOf, KeyLe);
  }

  // -- one import --------------------------------------------------------------------------------

  datatype Stage = StageClean | StageHeld | StageFlagged

  datatype ImportResult =
    | Failed(error: Carbon.Error)
    | Refused(outcomes: seq<Outcome>)
    | Imported(outcomes: seq<Outcome>, committed: seq<Entry>, hits: seq<LineKey>,
               digest: Option<CanonicalHash.Digest<Entry>>, added: nat, staged: seq<(Entry, Stage)>)

  predicate Builds(rows: seq<RawRow>, config: Config, picked: seq<nat>) {
    forall k :: 0 <= k < |picked| ==> picked[k] < |rows| && BuildEntry(rows[picked[k]], config).Ok?
  }

  /** The mapped lines of the picked rows. */
  function Mapped(rows: seq<RawRow>, config: Config, picked: seq<nat>): (r: seq<(Entry, RowStatus)>)
    requires Builds(rows, config, picked)
    ensures |r| == |picked| && forall k :: 0 <= k < |r| ==> r[k] == BuildEntry(rows[picked[k]], config).value
  {
    seq(|picked|, k requires 0 <= k < |picked| => BuildEntry(rows[picked[k]], config).value)
  }

  function Unheld(mapped: seq<(Entry, RowStatus)>, config: Config): (r: seq<Entry>)
    ensures forall e :: e in r ==> !Held(e, config) && exists k :: 0 <= k < |mapped| && mapped[k].0 == e
  {
    if mapped == [] then []
    else
      var last := mapped[|mapped| - 1].0;
      var before := Unheld(mapped[..|mapped| - 1], config);
      if Held(last, config) then before else before + [last]
  }

  function StageOf(m: (Entry, RowStatus), config: Config): Stage {
    if Held(m.0, config) then StageHeld else if m.1.Clean? then StageClean else StageFlagged
  }

  function Staging(mapped: seq<(Entry, RowStatus)>, config: Config): (r: seq<(Entry, Stage)>)
    ensures |r| == |mapped| && forall k :: 0 <= k < |r| ==> r[k] == (mapped[k].0, StageOf(mapped[k], config))
  {
    seq(|mapped|, k requires 0 <= k < |mapped| => (mapped[k].0, StageOf(mapped[k], config)))
  }

  /** What the report must say of row i of a batch that is staged. */
  function OutcomeOf(rows: seq<RawRow>, config: Config, seen: set<LineKey>, i: nat): Outcome
    requires i < |rows|
  {
    match VerdictOf(rows, config.client, seen, i)
    case IsMalformed => Outcome(i + 1, Rejected, None)
    case IsRepeat => Outcome(i + 1, Duplicate, Some(KeyOf(config.client, rows[i])))
    case IsAccepted => AcceptedOutcome(rows[i], config, i)
  }

  function AcceptedOutcome(r: RawRow, config: Config, i: nat): Outcome {
    var built := BuildEntry(r, config);
    if built.Err? then Outcome(i + 1, Rejected, None)
    else Outcome(i + 1, if Held(built.value.0, config) then Duplicate else built.value.1, Some(built.value.0.key))
  }

  /** One outcome for every row, in file order. */
  function FullReport(rows: seq<RawRow>, config: Config, seen: set<LineKey>, n: nat): (r: seq<Outcome>)
    requires n <= |rows|
    ensures |r| == n && forall i :: 0 <= i < n ==> r[i] == OutcomeOf(rows, config, seen, i)
  {
    seq(n, i requires 0 <= i < n => OutcomeOf(rows, config, seen, i))
  }

  function AcceptedOutcomes(rows: seq<RawRow>, config: Config, picked: seq<nat>): (r: seq<Outcome>)
    requires forall k :: 0 <= k < |picked| ==> picked[k] < |rows|
    ensures |r| == |picked| && forall k :: 0 <= k < |r| ==> r[k] == AcceptedOutcome(rows[picked[k]], config, picked[k])
  {
    seq(|picked|, k requires 0 <= k < |picked| => AcceptedOutcome(rows[picked[k]], config, picked[k]))
  }

  predicate SameOutcomes(pieces: (seq<Outcome>, seq<Outcome>), full: seq<Outcome>) {
    multiset(pieces.0 + pieces.1) == multiset(full)
  }

  lemma OneMoreOutcome(pieces: (seq<Outcome>, seq<Outcome>), full: seq<Outcome>, x: Outcome,
                       more: (seq<Outcome>, seq<Outcome>), longer: seq<Outcome>)
    requires SameOutcomes(pieces, full) && longer == full + [x]
    requires (more.0 == pieces.0 && more.1 == pieces.1 + [x]) || (more.0 == pieces.0 + [x] && more.1 == pieces.1)
    ensures SameOutcomes(more, longer)
  {
    assert multiset(more.0 + more.1) == multiset(more.0) + multiset(more.1);
    assert multiset(pieces.0 + pieces.1) == multiset(pieces.0) + multiset(pieces.1);
  }

  lemma FullStep(rows: seq<RawRow>, config: Config, seen: set<LineKey>, n: nat)
    requires n < |rows|
    ensures FullReport(rows, config, seen, n + 1) ==
      FullReport(rows, config, seen, n) + [OutcomeOf(rows, config, seen, n)]
  {
  }

  lemma AcceptedStep(rows: seq<RawRow>, config: Config, picked: seq<nat>, i: nat)
    requires i < |rows| && forall k :: 0 <= k < |picked| ==> picked[k] < |rows|
    ensures AcceptedOutcomes(rows, config, picked + [i]) ==
      AcceptedOutcomes(rows, config, picked) + [AcceptedOutcome(rows[i], config, i)]
  {
  }

  /** The outcomes validation and mapping make of the first n rows, apart. */
  function Pieces(rows: seq<RawRow>, config: Config, seen: set<LineKey>, n: nat): (seq<Outcome>, seq<Outcome>)
    requires n <= |rows|
  {
    (EarlyOutcomes(rows, config.client, seen, n),
     AcceptedOutcomes(rows, config, AcceptedRows(rows, config.client, seen, n)))
  }

  /** Row i adds one and the same outcome to the full report and to one of the pieces. */
  lemma NextPiece(rows: seq<RawRow>, config: Config, seen: set<LineKey>, i: nat) returns (x: Outcome)
    requires i < |rows|
    ensures FullReport(rows, config, seen, i + 1) == FullReport(rows, config, seen, i) + [x]
    ensures
      var before, after := Pieces(rows, config, seen, i), Pieces(rows, config, seen, i + 1);
      || (after.0 == before.0 && after.1 == before.1 + [x])
      || (after.0 == before.0 + [x] && after.1 == before.1)
  {
    x := OutcomeOf(rows, config, seen, i);
    var picked := AcceptedRows(rows, config.client, seen, i);
    FullStep(rows, config, seen, i);
    AcceptedStep(rows, config, picked, i);
    assert picked + [] == picked;
  }

  /** One and the same outcome was added to the report and to one of the pieces. */
  ghost predicate Grown(pieces: (seq<Outcome>, seq<Outcome>), full: seq<Outcome>, more: (seq<Outcome>, seq<Outcome>),
                        longer: seq<Outcome>) {
    exists x :: longer == full + [x] &&
      ((more.0 == pieces.0 && more.1 == pieces.1 + [x]) || (more.0 == pieces.0 + [x] && more.1 == pieces.1))
  }

  lemma {:induction false} GrownHold(parts: seq<(seq<Outcome>, seq<Outcome>)>, reports: seq<seq<Outcome>>, n: nat)
    requires |parts| == |reports| && n < |parts| && SameOutcomes(parts[0], reports[0])
    requires forall i :: 0 < i <= n ==> Grown(parts[i - 1], reports[i - 1], parts[i], reports[i])
    ensures SameOutcomes(parts[n], reports[n])
    decreases n
  {
    if n > 0 {
      GrownHold(parts, reports, n - 1);
      assert Grown(parts[n - 1], reports[n - 1], parts[n], reports[n]);
      var x :| reports[n] == reports[n - 1] + [x] &&
        ((parts[n].0 == parts[n - 1].0 && parts[n].1 == parts[n - 1].1 + [x])
         || (parts[n].0 == parts[n - 1].0 + [x] && parts[n].1 == parts[n - 1].1));
      OneMoreOutcome(parts[n - 1], reports[n - 1], x, parts[n], reports[n]);
    }
  }

  lemma PieceGrows(rows: seq<RawRow>, config: Config, seen: set<LineKey>, i: nat)
    requires i < |rows|
    ensures Grown(Pieces(rows, config, seen, i), FullReport(rows, config, seen, i),
                  Pieces(rows, config, seen, i + 1), FullReport(rows, config, seen, i + 1))
  {
    var x := NextPiece(rows, config, seen, i);
  }

  lemma NoPieces(rows: seq<RawRow>, config: Config, seen: set<LineKey>)
    ensures SameOutcomes(Pieces(rows, config, seen, 0), FullReport(rows, config, seen, 0))
  {
    var pieces := Pieces(rows, config, seen, 0);
    assert pieces.0 == [] && pieces.1 == [] && FullReport(rows, config, seen, 0) == [];
  }

  /** The pieces hold exactly the outcomes of the full report. */
  lemma ReportPieces(rows: seq<RawRow>, config: Config, seen: set<LineKey>)
    ensures SameOutcomes(Pieces(rows, config, seen, |rows|), FullReport(rows, config, seen, |rows|))
  {
    var n := |rows|;
    var parts := seq(n + 1, i requires 0 <= i <= n => Pieces(rows, config, seen, i));
    var reports := seq(n + 1, i requires 0 <= i <= n => FullReport(rows, config, seen, i));
    NoPieces(rows, config, seen);
    forall i | 0 < i <= n ensures Grown(parts[i - 1], reports[i - 1], parts[i], reports[i]) {
      PieceGrows(rows, config, seen, i - 1);
    }
    GrownHold(parts, reports, n);
  }

  function RowOf(o: Outcome): int { o.row }

  predicate IntLe(a: int, b: int) { a <= b }

  /** `sorted(outcomes, key=row_index)`. */
  function SortOutcomes(outcomes: seq<Outcome>): seq<Outcome> {
    CanonicalHash.SortBy(outcomes, RowOf, IntLe)
  }

  lemma SortIs(outcomes: seq<Outcome>, expected: seq<Outcome>)
    requires multiset(outcomes) == multiset(expected)
    requires forall i, j :: 0 <= i < j < |expected| ==> expected[i].row < expected[j].row
    ensures SortOutcomes(outcomes) == expected
  {
    var sorted := SortOutcomes(outcomes);
    CanonicalHash.SortKeeps(outcomes, RowOf, IntLe);
    CanonicalHash.SortSorted(outcomes, RowOf, IntLe);
    forall x, y | x in expected && y in expected && x.row == y.row ensures x == y {
      var i :| 0 <= i < |expected| && expected[i] == x;
      var j :| 0 <= j < |expected| && expected[j] == y;
    }
    CanonicalHash.SortedIsUnique(expected, sorted, RowOf, IntLe);
  }

  lemma {:induction false} ReportIsSorted(rows: seq<RawRow>, config: Config, seen: set<LineKey>)
    ensures
      var picked := AcceptedRows(rows, config.client, seen, |rows|);
      var pieces := EarlyOutcomes(rows, config.client, seen, |rows|) + AcceptedOutcomes(rows, config, picked);
      SortOutcomes(pieces) == FullReport(rows, config, seen, |rows|)
  {
    ReportPieces(rows, config, seen);
    var picked := AcceptedRows(rows, config.client, seen, |rows|);
    SortIs(EarlyOutcomes(rows, config.client, seen, |rows|) + AcceptedOutcomes(rows, config, picked),
           FullReport(rows, config, seen, |rows|));
  }

  lemma {:induction false} EarlyInOrder(rows: seq<RawRow>, client: string, seen: set<LineKey>, n: nat)
    requires n <= |rows|
    ensures
      var early := EarlyOutcomes(rows, client, seen, n);
      && (forall i, j :: 0 <= i < j < |early| ==> early[i].row < early[j].row)
      && (forall i :: 0 <= i < |early| ==> early[i].row <= n)
      && ((exists i :: 0 <= i < n && Malformed(rows[i])) <==> exists i :: 0 <= i < |early| && early[i].status.Rejected?)
  {
    if n > 0 {
      EarlyInOrder(rows, client, seen, n - 1);
      var before, early := EarlyOutcomes(rows, client, seen, n - 1), EarlyOutcomes(rows, client, seen, n);
      forall i | 0 <= i < |before| ensures early[i] == before[i] {}
      if Malformed(rows[n - 1]) { assert early[|early| - 1].status.Rejected?; }
    }
  }

  lemma {:induction false} AcceptedKeysDistinct(rows: seq<RawRow>, config: Config, seen: set<LineKey>, j: nat, k: nat)
    requires
      var picked := AcceptedRows(rows, config.client, seen, |rows|);
      j < k < |picked|
    ensures
      var picked := AcceptedRows(rows, config.client, seen, |rows|);
      && KeyOf(config.client, rows[picked[j]]) != KeyOf(config.client, rows[picked[k]])
      && KeyOf(config.client, rows[picked[k]]) !in seen
  {
    var picked := AcceptedRows(rows, config.client, seen, |rows|);
    assert VerdictOf(rows, config.client, seen, picked[k]).IsAccepted?;
    assert VerdictOf(rows, config.client, seen, picked[j]).IsAccepted?;
    assert !EarlierSame(rows, config.client, picked[k]);
  }

  /** Mapped lines have distinct keys, none of them known. */
  predicate FreshKeys(mapped: seq<(Entry, RowStatus)>, seen: set<LineKey>) {
    && (forall j, k :: 0 <= j < k < |mapped| ==> mapped[j].0.key != mapped[k].0.key)
    && (forall k :: 0 <= k < |mapped| ==> mapped[k].0.key !in seen)
  }

  lemma {:induction false} MappedIsFresh(rows: seq<RawRow>, config: Config, seen: set<LineKey>)
    requires Builds(rows, config, AcceptedRows(rows, config.client, seen, |rows|))
    ensures FreshKeys(Mapped(rows, config, AcceptedRows(rows, config.client, seen, |rows|)), seen)
  {
    var picked := AcceptedRows(rows, config.client, seen, |rows|);
    forall j, k | 0 <= j < k < |picked|
      ensures KeyOf(config.client, rows[picked[j]]) != KeyOf(config.client, rows[picked[k]])
    {
      AcceptedKeysDistinct(rows, config, seen, j, k);
    }
    forall k | 0 <= k < |picked| ensures KeyOf(config.client, rows[picked[k]]) !in seen {
      assert VerdictOf(rows, config.client, seen, picked[k]).IsAccepted?;
    }
  }

  lemma {:induction false} UnheldIsFresh(mapped: seq<(Entry, RowStatus)>, config: Config, seen: set<LineKey>)
    requires FreshKeys(mapped, seen)
    ensures KeysDistinct(Unheld(mapped, config))
    ensures forall k :: 0 <= k < |Unheld(mapped, config)| ==> Unheld(mapped, config)[k].key !in seen
    ensures forall k :: 0 <= k < |mapped| && !Held(mapped[k].0, config) ==> mapped[k].0 in Unheld(mapped, config)
  {
    if mapped != [] {
      var init, last := mapped[..|mapped| - 1], mapped[|mapped| - 1].0;
      UnheldIsFresh(init, config, seen);
      var before := Unheld(init, config);
      forall k | 0 <= k < |before| ensures before[k].key != last.key {
        assert before[k] in before;
        var j :| 0 <= j < |init| && init[j].0 == before[k];
        assert mapped[j].0.key != mapped[|mapped| - 1].0.key;
      }
      forall k | 0 <= k < |mapped| && !Held(mapped[k].0, config) ensures mapped[k].0 in Unheld(mapped, config) {
        if k < |init| { assert init[k].0 in before; }
      }
    }
  }

  method FilterHits(mapped: seq<(Entry, RowStatus)>, hits: seq<LineKey>, config: Config) returns (committed: seq<Entry>)
    requires forall k :: 0 <= k < |mapped| ==> (mapped[k].0.key in hits <==> Held(mapped[k].0, config))
    ensures committed == Unheld(mapped, config)
  {
    committed := [];
    var i := 0;
    while i < |mapped|
      invariant 0 <= i <= |mapped| && committed == Unheld(mapped[..i], config)
    {
      assert mapped[..i + 1][..i] == mapped[..i];
      if mapped[i].0.key !in hits { committed := committed + [mapped[i].0]; }
      i := i + 1;
    }
    assert mapped[..i] == mapped;
  }

  /** Maps the picked rows, stopping at the first that cannot be. */
  method MapRows(rows: seq<RawRow>, config: Config, picked: seq<nat>)
    returns (r: Result<seq<(Entry, RowStatus)>, Carbon.Error>)
    requires forall k :: 0 <= k < |picked| ==> picked[k] < |rows|
    ensures r.Ok? <==> Builds(rows, config, picked)
    ensures r.Ok? ==> r.value == Mapped(rows, config, picked)
  {
    var mapped := [];
    var k := 0;
    while k < |picked|
      invariant 0 <= k <= |picked| == |picked| && |mapped| == k
      invariant forall j :: 0 <= j < k ==>
        BuildEntry(rows[picked[j]], config).Ok? && mapped[j] == BuildEntry(rows[picked[j]], config).value
    {
      var built := BuildEntry(rows[picked[k]], config);
      if built.Err? { return Err(built.error); }
      mapped := mapped + [built.value];
      k := k + 1;
    }
    r := Ok(mapped);
  }

  /** The outcomes of the accepted rows, by the keys that were hit. */
  method AcceptedReport(rows: seq<RawRow>, config: Config, picked: seq<nat>, mapped: seq<(Entry, RowStatus)>,
                        hits: seq<LineKey>)
    returns (outcomes: seq<Outcome>)
    requires Builds(rows, config, picked) && mapped == Mapped(rows, config, picked)
    requires forall k :: 0 <= k < |mapped| ==> (mapped[k].0.key in hits <==> Held(mapped[k].0, config))
    ensures outcomes == AcceptedOutcomes(rows, config, picked)
  {
    outcomes := [];
    var k := 0;
    while k < |mapped|
      invariant 0 <= k <= |mapped| && outcomes == AcceptedOutcomes(rows, config, picked)[..k]
    {
      var e := mapped[k].0;
      outcomes := outcomes + [Outcome(picked[k] + 1, if e.key in hits then Duplicate else mapped[k].1, Some(e.key))];
      k := k + 1;
    }
  }

  lemma HitsAreHeld(mapped: seq<(Entry, RowStatus)>, entries: seq<Entry>, hits: seq<LineKey>, config: Config,
                    seen: set<LineKey>)
    requires FreshKeys(mapped, seen) && |entries| == |mapped|
    requires forall k :: 0 <= k < |mapped| ==> entries[k] == mapped[k].0
    requires forall key :: key in hits <==> exists e :: e in entries && e.key == key && Held(e, config)
    ensures forall k :: 0 <= k < |mapped| ==> (mapped[k].0.key in hits <==> Held(mapped[k].0, config))
  {
    forall k | 0 <= k < |mapped| ensures mapped[k].0.key in hits <==> Held(mapped[k].0, config) {
      assert entries[k] in entries;
      if mapped[k].0.key in hits {
        var e :| e in entries && e.key == mapped[k].0.key && Held(e, config);
        var j :| 0 <= j < |entries| && entries[j] == e;
        assert j == k;
      }
    }
  }

  function EntriesOf(mapped: seq<(Entry, RowStatus)>): (r: seq<Entry>)
    ensures |r| == |mapped| && forall k :: 0 <= k < |r| ==> r[k] == mapped[k].0
  {
    seq(|mapped|, k requires 0 <= k < |mapped| => mapped[k].0)
  }

  /** The keys of the lines held back, and no others. */
  ghost predicate HitsAreOf(hits: seq<LineKey>, mapped: seq<(Entry, RowStatus)>, config: Config) {
    forall key :: key in hits <==> exists k :: 0 <= k < |mapped| && mapped[k].0.key == key && Held(mapped[k].0, config)
  }

  method ScreenMapped(mapped: seq<(Entry, RowStatus)>, config: Config, ghost seen: set<LineKey>)
    returns (hits: seq<LineKey>)
    requires FreshKeys(mapped, seen)
    ensures HitsAreOf(hits, mapped, config)
    ensures forall k :: 0 <= k < |mapped| ==> (mapped[k].0.key in hits <==> Held(mapped[k].0, config))
  {
    var entries := EntriesOf(mapped);
    hits := Screen(entries, config);
    HitsAreHeld(mapped, entries, hits, config, seen);
    forall key ensures key in hits <==>
      exists k :: 0 <= k < |mapped| && mapped[k].0.key == key && Held(mapped[k].0, config) {
      if e :| e in entries && e.key == key && Held(e, config) {
        var k :| 0 <= k < |entries| && entries[k] == e;
        assert mapped[k].0 == e;
      }
      if k :| 0 <= k < |mapped| && mapped[k].0.key == key && Held(mapped[k].0, config) {
        assert entries[k] in entries;
      }
    }
  }

  /** What one import must have done to the store, given what the store knew of the client. */
  ghost predicate IsImport(rows: seq<RawRow>, config: Config, seen: set<LineKey>, before: seq<Entry>, r: ImportResult,
                           after: seq<Entry>) {
    var picked := AcceptedRows(rows, config.client, seen, |rows|);
    if exists i :: 0 <= i < |rows| && Malformed(rows[i]) then
      r == Refused(EarlyOutcomes(rows, config.client, seen, |rows|)) && after == before
    else if !Builds(rows, config, picked) then r.Failed? && after == before
    else
      var mapped := Mapped(rows, config, picked);
      var committed := Unheld(mapped, config);
      && r.Imported? && r.committed == committed && r.added == |committed| && after == before + committed
      && r.outcomes == FullReport(rows, config, seen, |rows|)
      && r.digest == (if committed == [] then None else Some(BatchHash(committed)))
      && r.staged == Staging(mapped, config)
      && HitsAreOf(r.hits, mapped, config)
  }

  function ClientKeys(keys: set<LineKey>, client: string): set<LineKey> {
    set key | key in keys && key.client == client
  }

  /** `run_import`. */
  method RunImport(rows: seq<RawRow>, config: Config, store: Store) returns (r: ImportResult)
    requires store.Valid()
    modifies store
    ensures store.Valid()
    ensures IsImport(rows, config, ClientKeys(old(store.keys), config.client), old(store.entries), r, store.entries)
  {
    var seen := store.KnownKeys(config.client);
    assert seen == ClientKeys(store.keys, config.client);
    var picked, early := ValidateRows(rows, config.client, seen);
    EarlyInOrder(rows, config.client, seen, |rows|);
    if exists i :: 0 <= i < |early| && early[i].status.Rejected? {
      SortIs(early, early);
      return Refused(SortOutcomes(early));
    }
    var built := MapRows(rows, config, picked);
    if built.Err? { return Failed(built.error); }
    var mapped := built.value;
    MappedIsFresh(rows, config, seen);
    UnheldIsFresh(mapped, config, seen);
    var hits := ScreenMapped(mapped, config, seen);
    var committed := FilterHits(mapped, hits, config);
    var accepted := AcceptedReport(rows, config, picked, mapped, hits);
    ReportIsSorted(rows, config, seen);
    var outcomes := SortOutcomes(early + accepted);
    CommittedIsNew(committed, store.keys, config.client, mapped);
    var added := store.Commit(committed);
    var digest := if committed == [] then None else Some(BatchHash(committed));
    r := Imported(outcomes, committed, hits, digest, added, Staging(mapped, config));
  }

  lemma {:induction false} CommittedIsNew(committed: seq<Entry>, keys: set<LineKey>, client: string,
                                          mapped: seq<(Entry, RowStatus)>)
    requires KeysDistinct(committed)
    requires forall k :: 0 <= k < |committed| ==> committed[k].key !in ClientKeys(keys, client)
    requires forall e :: e in committed ==> exists k :: 0 <= k < |mapped| && mapped[k].0 == e
    requires forall k :: 0 <= k < |mapped| ==> mapped[k].0.key.client == client
    ensures NewEntries(keys, committed) == committed
  {
    forall k | 0 <= k < |committed| ensures committed[k].key !in keys {
      assert committed[k] in committed;
    }
    AllNew(keys, committed);
  }

  /** The entries an import of these rows commits when `seen` is known. */
  function Commits(rows: seq<RawRow>, config: Config, seen: set<LineKey>): seq<Entry>
    requires Builds(rows, config, AcceptedRows(rows, config.client, seen, |rows|))
  {
    Unheld(Mapped(rows, config, AcceptedRows(rows, config.client, seen, |rows|)), config)
  }

  /** A row still accepted after its file was imported is one that was held back. */
  lemma {:induction false} AcceptedAgainIsHeld(rows: seq<RawRow>, config: Config, seen: set<LineKey>,
                                               later: set<LineKey>, i: nat)
    requires Builds(rows, config, AcceptedRows(rows, config.client, seen, |rows|)) && seen <= later
    requires forall e :: e in Commits(rows, config, seen) ==> e.key in later
    requires i < |rows| && VerdictOf(rows, config.client, later, i).IsAccepted?
    ensures BuildEntry(rows[i], config).Ok? && Held(BuildEntry(rows[i], config).value.0, config)
  {
    var first := AcceptedRows(rows, config.client, seen, |rows|);
    var mapped := Mapped(rows, config, first);
    assert VerdictOf(rows, config.client, seen, i).IsAccepted?;
    var j :| 0 <= j < |first| && first[j] == i;
    MappedIsFresh(rows, config, seen);
    UnheldIsFresh(mapped, config, seen);
    assert mapped[j] == BuildEntry(rows[i], config).value;
    assert mapped[j].0.key == KeyOf(config.client, rows[i]);
  }

  /** Importing the same rows again under the same configuration commits nothing, whatever
      else has been committed since: held-back and repeated lines included. */
  lemma {:induction false} ReimportCommitsNothing(rows: seq<RawRow>, config: Config, seen: set<LineKey>,
                                                  later: set<LineKey>)
    requires Builds(rows, config, AcceptedRows(rows, config.client, seen, |rows|)) && seen <= later
    requires forall e :: e in Commits(rows, config, seen) ==> e.key in later
    ensures Builds(rows, config, AcceptedRows(rows, config.client, later, |rows|)) && Commits(rows, config, later) == []
  {
    var second := AcceptedRows(rows, config.client, later, |rows|);
    forall k | 0 <= k < |second|
      ensures BuildEntry(rows[second[k]], config).Ok? && Held(BuildEntry(rows[second[k]], config).value.0, config)
    {
      AcceptedAgainIsHeld(rows, config, seen, later, second[k]);
    }
    AllHeld(Mapped(rows, config, second), config);
  }

  lemma {:induction false} AllHeld(mapped: seq<(Entry, RowStatus)>, config: Config)
    requires forall k :: 0 <= k < |mapped| ==> Held(mapped[k].0, config)
    ensures Unheld(mapped, config) == []
  {
    if mapped != [] { AllHeld(mapped[..|mapped| - 1], config); }
  }

  lemma {:induction false} CommitsAreClients(rows: seq<RawRow>, config: Config, seen: set<LineKey>, e: Entry)
    requires Builds(rows, config, AcceptedRows(rows, config.client, seen, |rows|)) && e in Commits(rows, config, seen)
    ensures e.key.client == config.client
  {
    var mapped := Mapped(rows, config, AcceptedRows(rows, config.client, seen, |rows|));
    var k :| 0 <= k < |mapped| && mapped[k].0 == e;
  }

  /** The second import of a file whose first one succeeded: staged, nothing committed,
      nothing hashed, the store as it was. */
  lemma ImportTwice(rows: seq<RawRow>, config: Config, known: set<LineKey>, before: seq<Entry>, first: ImportResult,
                    middle: seq<Entry>, later: set<LineKey>, start: seq<Entry>, second: ImportResult, end: seq<Entry>)
    requires IsImport(rows, config, ClientKeys(known, config.client), before, first, middle) && first.Imported?
    requires known <= later && forall e :: e in first.committed ==> e.key in later
    requires IsImport(rows, config, ClientKeys(later, config.client), start, second, end)
    ensures second.Imported? && second.added == 0 && second.digest.None? && end == start
  {
    var seen, more := ClientKeys(known, config.client), ClientKeys(later, config.client);
    forall e | e in Commits(rows, config, seen) ensures e.key in more {
      CommitsAreClients(rows, config, seen, e);
    }
    ReimportCommitsNothing(rows, config, seen, more);
    assert start + [] == start;
  }
}
