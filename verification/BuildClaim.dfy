/** Turning an upload into a claim: receipts become lines, pages of other kinds go to the
    holding queue, and savepoints decide what survives (src/eclaim/services/ingestion.py,
    src/eclaim/services/intake.py).

    Reading a page, storing it and finding a route are foreign calls; whether each works out
    is part of the input. */
module BuildClaim {
  import opened Prelude

  datatype Queue = ToClaim | ToHolding | Undecided

  /** How a foreign call ends: with a result, with an error the capture reports, or with an
      exception nobody handles. */
  datatype Ending = Fine | Fails | Crashes

  /** One flattened page: how reading it ends, and if it was read, where it belongs and how
      storing it ends. */
  datatype Receipt = Receipt(reading: Ending, sha: string, queue: Queue, storing: Ending)

  datatype Trip = NotATrip | Incomplete | Route(found: bool)

  /** Whether the header is valid, keeps every page on the claim, creates a trip, and whether
      the claim row can be written for it (a trip it names may be gone). */
  datatype Header = Header(valid: bool, forceClaim: bool, newEvent: bool, opens: bool)

  /** A row of the holding queue. UNIQUE(job, page) where the job is known. */
  datatype Intake = Intake(client: nat, sha: string, job: Option<nat>, isOpen: bool, queue: Queue)

  /** Where a claim line came from. */
  datatype Source = Page(receipt: nat) | Journey(spec: nat)

  datatype BuiltLine = BuiltLine(lineNo: nat, source: Source)

  datatype BuiltClaim = BuiltClaim(client: nat, job: Option<nat>, event: Option<nat>, lines: seq<BuiltLine>)

  /** `events` are the trips created; UNIQUE(job) on claims. */
  datatype Store = Store(intakes: seq<Intake>, events: nat, claims: seq<BuiltClaim>)

  /** What the errors list names. */
  datatype Report = Upload(index: nat) | BadPage(receipt: nat) | BadTrip(spec: nat)

  datatype IngestResult =
    | Raised
    | BadHeader
    | Ingested(claim: Option<nat>, added: nat, diverted: seq<nat>, errors: seq<Report>)

  // -- what becomes of each page -------------------------------------------------------

  datatype Fate = Errored | Diverted(row: nat) | Skipped | Lined

  predicate OnClaim(r: Receipt, h: Header) {
    h.forceClaim || r.queue.ToClaim?
  }

  /** The earliest open row of the client for this very image. */
  function OpenRow(intakes: seq<Intake>, client: nat, sha: string): (r: Option<nat>)
    ensures r.Some? ==>
      r.value < |intakes| && intakes[r.value].client == client && intakes[r.value].sha == sha && intakes[r.value].isOpen
    ensures r.None? ==> forall k :: 0 <= k < |intakes| ==>
      !(intakes[k].client == client && intakes[k].sha == sha && intakes[k].isOpen)
  {
    if intakes == [] then None
    else
      var before := OpenRow(intakes[..|intakes| - 1], client, sha);
      var last := intakes[|intakes| - 1];
      if before.Some? then before
      else if last.client == client && last.sha == sha && last.isOpen then Some(|intakes| - 1) else None
  }

  predicate Recorded(intakes: seq<Intake>, job: Option<nat>, sha: string) {
    job.Some? && exists row :: row in intakes && row.job == job && row.sha == sha
  }

  /** `record_intake` in its own savepoint: an open row of the same image is returned (and
      upgraded when it was undecided), a second row of the same job is skipped. */
  function Divert(intakes: seq<Intake>, client: nat, job: Option<nat>, r: Receipt): (seq<Intake>, Fate) {
    if !r.storing.Fine? then (intakes, Errored)
    else
      var row := OpenRow(intakes, client, r.sha);
      if row.Some? then
        var found := intakes[row.value];
        (intakes[row.value := if found.queue.Undecided? then found.(queue := r.queue) else found], Diverted(row.value))
      else if Recorded(intakes, job, r.sha) then (intakes, Skipped)
      else (intakes + [Intake(client, r.sha, job, true, r.queue)], Diverted(|intakes|))
  }

  /** The holding queue after the pages that do not belong on the claim, and what became of
      every page. */
  function Sort(intakes: seq<Intake>, client: nat, job: Option<nat>, h: Header,
                receipts: seq<Receipt>): (r: (seq<Intake>, seq<Fate>))
    ensures |r.1| == |receipts|
  {
    if receipts == [] then (intakes, [])
    else
      var last := receipts[|receipts| - 1];
      var (before, fates) := Sort(intakes, client, job, h, receipts[..|receipts| - 1]);
      if !last.reading.Fine? then (before, fates + [Errored])
      else if OnClaim(last, h) then (before, fates + [if last.storing.Fine? then Lined else Errored])
      else
        var (after, fate) := Divert(before, client, job, last);
        (after, fates + [fate])
  }

  predicate TripWorks(t: Trip) {
    t.Route? && t.found
  }

  predicate TripFails(t: Trip) {
    t.Incomplete? || (t.Route? && !t.found)
  }

  // -- counting ----------------------------------------------------------------------------

  function DivertedRows(fates: seq<Fate>): seq<nat> {
    if fates == [] then []
    else DivertedRows(fates[..|fates| - 1]) + (if fates[|fates| - 1].Diverted? then [fates[|fates| - 1].row] else [])
  }

  /** Lines of the pages, numbered from 1. */
  function PageLines(fates: seq<Fate>): seq<BuiltLine> {
    if fates == [] then []
    else
      var before := PageLines(fates[..|fates| - 1]);
      if fates[|fates| - 1].Lined? then before + [BuiltLine(|before| + 1, Page(|fates| - 1))] else before
  }

  /** Lines of the trips, after the given ones. */
  function TripLines(lines: seq<BuiltLine>, trips: seq<Trip>): seq<BuiltLine> {
    if trips == [] then lines
    else
      var before := TripLines(lines, trips[..|trips| - 1]);
      if TripWorks(trips[|trips| - 1]) then before + [BuiltLine(|before| + 1, Journey(|trips| - 1))] else before
  }

  /** Each page that erred, and each trip, is named exactly once; nothing else is. */
  ghost predicate ErrorsExact(errors: seq<Report>, uploads: nat, fates: seq<Fate>, trips: seq<Trip>) {
    && (forall u: nat :: multiset(errors)[Upload(u)] == if u < uploads then 1 else 0)
    && (forall i: nat :: multiset(errors)[BadPage(i)] == if i < |fates| && fates[i].Errored? then 1 else 0)
    && (forall k: nat :: multiset(errors)[BadTrip(k)] == if k < |trips| && TripFails(trips[k]) then 1 else 0)
  }

  predicate NumberedFromOne(lines: seq<BuiltLine>) {
    forall k :: 0 <= k < |lines| ==> lines[k].lineNo == k + 1
  }

  // -- the method ------------------------------------------------------------------------------

  /** The errors list as it grows: the uploads that did not open, then pages and trips. */
  ghost predicate ErrorsAre(errors: seq<Report>, uploads: nat, pages: set<nat>, trips: set<nat>) {
    && (forall u: nat :: multiset(errors)[Upload(u)] == if u < uploads then 1 else 0)
    && (forall i: nat :: multiset(errors)[BadPage(i)] == if i in pages then 1 else 0)
    && (forall k: nat :: multiset(errors)[BadTrip(k)] == if k in trips then 1 else 0)
  }

  lemma MoreErrors(errors: seq<Report>, e: Report, uploads: nat, pages: set<nat>, trips: set<nat>)
    requires ErrorsAre(errors, uploads, pages, trips)
    requires e.Upload? ==> e.index == uploads
    requires e.BadPage? ==> e.receipt !in pages
    requires e.BadTrip? ==> e.spec !in trips
    ensures ErrorsAre(errors + [e], uploads + (if e.Upload? then 1 else 0),
                      pages + (if e.BadPage? then {e.receipt} else {}),
                      trips + (if e.BadTrip? then {e.spec} else {}))
  {
    assert multiset(errors + [e]) == multiset(errors) + multiset{e};
  }

  /** Adds page i to the errors if it failed. */
  method ReportIf(failed: bool, i: nat, before: seq<Report>, uploads: nat, ghost bad: set<nat>)
    returns (errors: seq<Report>, ghost now: set<nat>)
    requires ErrorsAre(before, uploads, bad, {}) && (failed ==> i !in bad)
    ensures ErrorsAre(errors, uploads, now, {}) && now == if failed then bad + {i} else bad
  {
    errors, now := before, bad;
    if failed {
      MoreErrors(errors, BadPage(i), uploads, bad, {});
      errors := errors + [BadPage(i)];
      now := bad + {i};
    }
  }

  method UploadErrors(uploads: nat) returns (errors: seq<Report>)
    ensures ErrorsAre(errors, uploads, {}, {})
  {
    errors := [];
    var u := 0;
    while u < uploads
      invariant 0 <= u <= uploads && ErrorsAre(errors, u, {}, {})
    {
      MoreErrors(errors, Upload(u), u, {}, {});
      errors := errors + [Upload(u)];
      u := u + 1;
    }
  }

  function ReadFailed(receipts: seq<Receipt>, i: nat): bool {
    i < |receipts| && receipts[i].reading.Fails?
  }

  /** Pages off the claim that could not be stored, among the first n. */
  function HoldingFailed(receipts: seq<Receipt>, h: Header, n: nat, i: nat): bool {
    i < n <= |receipts| && receipts[i].reading.Fine? && !OnClaim(receipts[i], h) && receipts[i].storing.Fails?
  }

  function LineFailed(receipts: seq<Receipt>, h: Header, n: nat, i: nat): bool {
    i < n <= |receipts| && receipts[i].reading.Fine? && OnClaim(receipts[i], h) && receipts[i].storing.Fails?
  }

  /** 3a: read every page; the ones that cannot be read are reported. */
  method Classify(receipts: seq<Receipt>, before: seq<Report>, uploads: nat)
    returns (crashed: bool, errors: seq<Report>, ghost bad: set<nat>)
    requires ErrorsAre(before, uploads, {}, {})
    ensures crashed <==> exists i :: 0 <= i < |receipts| && receipts[i].reading.Crashes?
    ensures !crashed ==> ErrorsAre(errors, uploads, bad, {}) && forall i: nat :: i in bad <==> ReadFailed(receipts, i)
  {
    crashed, errors, bad := false, before, {};
    var i := 0;
    while i < |receipts|
      invariant 0 <= i <= |receipts| && !crashed
      invariant forall k :: 0 <= k < i ==> !receipts[k].reading.Crashes?
      invariant forall k: nat :: k in bad <==> k < i && ReadFailed(receipts, k)
      invariant ErrorsAre(errors, uploads, bad, {})
    {
      if receipts[i].reading.Crashes? { return true, errors, bad; }
      errors, bad := ReportIf(receipts[i].reading.Fails?, i, errors, uploads, bad);
      i := i + 1;
    }
  }

  /** What one page does to the queue and the fates. */
  function SortOne(sofar: (seq<Intake>, seq<Fate>), client: nat, job: Option<nat>, h: Header,
                   r: Receipt): (seq<Intake>, seq<Fate>) {
    if !r.reading.Fine? then (sofar.0, sofar.1 + [Errored])
    else if OnClaim(r, h) then (sofar.0, sofar.1 + [if r.storing.Fine? then Lined else Errored])
    else (Divert(sofar.0, client, job, r).0, sofar.1 + [Divert(sofar.0, client, job, r).1])
  }

  lemma {:induction false} SortStep(intakes: seq<Intake>, client: nat, job: Option<nat>, h: Header,
                                    receipts: seq<Receipt>, i: nat)
    requires i < |receipts|
    ensures Sort(intakes, client, job, h, receipts[..i + 1]) ==
            SortOne(Sort(intakes, client, job, h, receipts[..i]), client, job, h, receipts[i])
  {
    assert receipts[..i + 1][..i] == receipts[..i];
  }

  lemma {:induction false} DivertedRowsStep(fates: seq<Fate>, fate: Fate)
    ensures DivertedRows(fates + [fate]) == DivertedRows(fates) + (if fate.Diverted? then [fate.row] else [])
  {
    assert (fates + [fate])[..|fates|] == fates;
  }

  predicate StoreCrashes(r: Receipt, h: Header, onClaim: bool) {
    r.reading.Fine? && OnClaim(r, h) == onClaim && r.storing.Crashes?
  }

  ghost predicate HoldingBad(bad: set<nat>, receipts: seq<Receipt>, h: Header, n: nat) {
    forall i: nat :: i in bad <==> ReadFailed(receipts, i) || HoldingFailed(receipts, h, n, i)
  }

  lemma NextHoldingBad(bad: set<nat>, receipts: seq<Receipt>, h: Header, i: nat)
    requires i < |receipts| && HoldingBad(bad, receipts, h, i)
    ensures HoldingFailed(receipts, h, |receipts|, i) ==> i !in bad && HoldingBad(bad + {i}, receipts, h, i + 1)
    ensures !HoldingFailed(receipts, h, |receipts|, i) ==> HoldingBad(bad, receipts, h, i + 1)
  {
  }

  ghost predicate PagesBad(bad: set<nat>, receipts: seq<Receipt>, h: Header, n: nat) {
    forall i: nat :: i in bad <==>
      ReadFailed(receipts, i) || HoldingFailed(receipts, h, |receipts|, i) || LineFailed(receipts, h, n, i)
  }

  lemma PageLinesStep(fates: seq<Fate>, i: nat)
    requires i < |fates|
    ensures PageLines(fates[..i + 1]) ==
      if fates[i].Lined? then PageLines(fates[..i]) + [BuiltLine(|PageLines(fates[..i])| + 1, Page(i))]
      else PageLines(fates[..i])
  {
    assert fates[..i + 1][..i] == fates[..i];
  }

  /** Which pages became lines depends on the page alone. */
  lemma {:induction false} FateOfPage(intakes: seq<Intake>, client: nat, job: Option<nat>, h: Header,
                                      receipts: seq<Receipt>, i: nat)
    requires i < |receipts|
    ensures
      var fate := Sort(intakes, client, job, h, receipts).1[i];
      && (fate.Lined? <==> BecomesLine(receipts[i], h))
      && (fate.Errored? <==> !receipts[i].reading.Fine? || !receipts[i].storing.Fine?)
  {
    if i < |receipts| - 1 { FateOfPage(intakes, client, job, h, receipts[..|receipts| - 1], i); }
  }

  lemma NextPageBad(bad: set<nat>, receipts: seq<Receipt>, h: Header, i: nat)
    requires i < |receipts| && PagesBad(bad, receipts, h, i)
    ensures LineFailed(receipts, h, |receipts|, i) ==> i !in bad && PagesBad(bad + {i}, receipts, h, i + 1)
    ensures !LineFailed(receipts, h, |receipts|, i) ==> PagesBad(bad, receipts, h, i + 1)
  {
  }

  predicate BecomesLine(r: Receipt, h: Header) {
    r.reading.Fine? && OnClaim(r, h) && r.storing.Fine?
  }

  ghost predicate TripsBad(bad: set<nat>, trips: seq<Trip>, n: nat) {
    forall k: nat :: k in bad <==> k < n <= |trips| && TripFails(trips[k])
  }

  /** Everything that goes onto the claim. */
  function ClaimLines(fates: seq<Fate>, trips: seq<Trip>): seq<BuiltLine> {
    TripLines(PageLines(fates), trips)
  }

  predicate JobTaken(store: Store, job: Option<nat>) {
    job.Some? && exists c :: c in store.claims && c.job == job
  }

  /** There is something to open a claim for, even if nothing may come of it. */
  predicate WantsClaim(h: Header, receipts: seq<Receipt>, trips: seq<Trip>) {
    trips != [] || exists i :: 0 <= i < |receipts| && receipts[i].reading.Fine? && OnClaim(receipts[i], h)
  }

  lemma {:induction false} NothingLined(fates: seq<Fate>)
    requires forall i :: 0 <= i < |fates| ==> !fates[i].Lined?
    ensures PageLines(fates) == []
  {
    if fates != [] { NothingLined(fates[..|fates| - 1]); }
  }

  /** The tables with a finished claim in them. */
  function Filed(store: Store, client: nat, job: Option<nat>, h: Header, lines: seq<BuiltLine>): Store {
    store.(events := store.events + (if h.newEvent then 1 else 0),
           claims := store.claims + [BuiltClaim(client, job, if h.newEvent then Some(store.events) else None, lines)])
  }

  /** What makes the claim's own savepoint end in an exception. */
  predicate FilingRaises(store: Store, job: Option<nat>, h: Header, receipts: seq<Receipt>, trips: seq<Trip>,
                         fates: seq<Fate>) {
    || (WantsClaim(h, receipts, trips) && !h.opens)
    || (exists i :: 0 <= i < |receipts| && StoreCrashes(receipts[i], h, true))
    || (JobTaken(store, job) && ClaimLines(fates, trips) != [])
  }

  predicate CrashesSomewhere(receipts: seq<Receipt>, h: Header) {
    exists i :: 0 <= i < |receipts| &&
      (receipts[i].reading.Crashes? || StoreCrashes(receipts[i], h, false) || StoreCrashes(receipts[i], h, true))
  }

  /** When a capture ends in an exception. */
  predicate Raises(store: Store, client: nat, job: Option<nat>, h: Header, receipts: seq<Receipt>, trips: seq<Trip>) {
    || CrashesSomewhere(receipts, h)
    || (WantsClaim(h, receipts, trips) && !h.opens)
    || (JobTaken(store, job) && ClaimLines(Sort(store.intakes, client, job, h, receipts).1, trips) != [])
  }

  /** What a capture that did not raise has done: every page has exactly one fate, every
      failed page or trip is reported exactly once, and the outcome is the starting state,
      the diversions alone, or the diversions and one claim with exactly the added lines. */
  ghost predicate IsCapture(store: Store, client: nat, job: Option<nat>, h: Header, uploads: nat,
                            receipts: seq<Receipt>, trips: seq<Trip>, r: IngestResult, after: Store)
  {
    var (intakes, fates) := Sort(store.intakes, client, job, h, receipts);
    var lines := ClaimLines(fates, trips);
    && r.Ingested? && r.added == |lines| && r.diverted == DivertedRows(fates)
    && ErrorsExact(r.errors, uploads, fates, trips)
    && if lines == [] && r.diverted == [] then r.claim.None? && after == store
       else if lines == [] then r.claim.None? && after == store.(intakes := intakes)
       else r.claim == Some(|store.claims|) && after == Filed(store.(intakes := intakes), client, job, h, lines)
  }

  lemma ErrorsAreExact(errors: seq<Report>, uploads: nat, pages: set<nat>, bad: set<nat>, receipts: seq<Receipt>,
                       h: Header, trips: seq<Trip>, fates: seq<Fate>)
    requires ErrorsAre(errors, uploads, pages, bad) && PagesBad(pages, receipts, h, |receipts|)
    requires TripsBad(bad, trips, |trips|)
    requires !CrashesSomewhere(receipts, h)
    requires |fates| == |receipts| && forall i :: 0 <= i < |fates| ==>
      (fates[i].Errored? <==> !receipts[i].reading.Fine? || !receipts[i].storing.Fine?)
    ensures ErrorsExact(errors, uploads, fates, trips)
  {
    forall i: nat ensures i in pages <==> i < |fates| && fates[i].Errored? {
      if i < |receipts| {
        assert !receipts[i].reading.Crashes? && !StoreCrashes(receipts[i], h, false);
        assert !StoreCrashes(receipts[i], h, true);
      }
    }
  }

  predicate FatesOf(fates: seq<Fate>, receipts: seq<Receipt>, h: Header) {
    |fates| == |receipts| && forall i :: 0 <= i < |fates| ==>
      && (fates[i].Lined? <==> BecomesLine(receipts[i], h))
      && (fates[i].Errored? <==> !receipts[i].reading.Fine? || !receipts[i].storing.Fine?)
  }

  /** The claim at position c has these lines; nothing else differs. */
  function WithLines(claims: seq<BuiltClaim>, c: nat, lines: seq<BuiltLine>): seq<BuiltClaim>
    requires c < |claims|
  {
    claims[c := claims[c].(lines := lines)]
  }

  lemma ClashIff(claims: seq<BuiltClaim>, last: BuiltClaim, job: Option<nat>)
    requires last.job.None? && job.Some?
    ensures (exists x :: x in claims + [last] && x.job == job) <==> exists x :: x in claims && x.job == job
  {
    if x :| x in claims && x.job == job {
      assert x in claims + [last];
    }
  }

  /** The tables of one transaction. Every step of a capture writes them as it goes; what it
      wrote goes away only by restoring a snapshot taken earlier. */
  class Ingestion {
    var intakes: seq<Intake>
    var events: nat
    var claims: seq<BuiltClaim>

    function State(): Store
      reads this
    {
      Store(intakes, events, claims)
    }

    constructor ()
      ensures State() == Store([], 0, [])
    {
      intakes, events, claims := [], 0, [];
    }

    /** Rolls back to a savepoint, or to the start of the transaction. */
    method Restore(snapshot: Store)
      modifies this
      ensures State() == snapshot
    {
      intakes, events, claims := snapshot.intakes, snapshot.events, snapshot.claims;
    }

    /** `record_intake` in its savepoint. */
    method RecordIntake(client: nat, job: Option<nat>, r: Receipt) returns (fate: Fate)
      modifies this
      ensures State() == old(State()).(intakes := Divert(old(intakes), client, job, r).0)
      ensures fate == Divert(old(intakes), client, job, r).1
    {
      var savepoint := State();
      var row := OpenRow(intakes, client, r.sha);
      if row.Some? {
        if intakes[row.value].queue.Undecided? {
          intakes := intakes[row.value := intakes[row.value].(queue := r.queue)];
        }
        fate := Diverted(row.value);
        assert old(intakes)[row.value := old(intakes)[row.value]] == old(intakes);
      } else {
        fate := Diverted(|intakes|);
        var clash := Recorded(intakes, job, r.sha);
        intakes := intakes + [Intake(client, r.sha, job, true, r.queue)];
        if clash {
          Restore(savepoint);
          fate := Skipped;
        }
      }
      if !r.storing.Fine? {
        Restore(savepoint);
        fate := Errored;
      }
    }

    /** One turn of the loop over the classified pages. */
    method DivertPage(ids: seq<nat>, client: nat, job: Option<nat>, h: Header, r: Receipt,
                      ghost state: (seq<Intake>, seq<Fate>))
      returns (diverted: seq<nat>)
      requires intakes == state.0 && ids == DivertedRows(state.1)
      modifies this
      ensures State() == old(State()).(intakes := SortOne(state, client, job, h, r).0)
      ensures diverted == DivertedRows(SortOne(state, client, job, h, r).1)
    {
      diverted := ids;
      if r.reading.Fine? && !OnClaim(r, h) {
        var fate := RecordIntake(client, job, r);
        DivertedRowsStep(state.1, fate);
        if fate.Diverted? { diverted := diverted + [fate.row]; }
      } else {
        DivertedRowsStep(state.1, if r.reading.Fine? && r.storing.Fine? then Lined else Errored);
      }
    }

    /** 3b: the pages that do not belong on the claim, outside its savepoint. */
    method DivertPages(client: nat, job: Option<nat>, h: Header, receipts: seq<Receipt>, before: seq<Report>,
                       uploads: nat, ghost unread: set<nat>)
      returns (crashed: bool, diverted: seq<nat>, errors: seq<Report>, ghost bad: set<nat>)
      requires ErrorsAre(before, uploads, unread, {}) && HoldingBad(unread, receipts, h, 0)
      modifies this
      ensures crashed <==> exists i :: 0 <= i < |receipts| && StoreCrashes(receipts[i], h, false)
      ensures !crashed ==>
        && State() == old(State()).(intakes := Sort(old(intakes), client, job, h, receipts).0)
        && diverted == DivertedRows(Sort(old(intakes), client, job, h, receipts).1)
        && ErrorsAre(errors, uploads, bad, {}) && HoldingBad(bad, receipts, h, |receipts|)
    {
      crashed, diverted, errors, bad := false, [], before, unread;
      ghost var state: (seq<Intake>, seq<Fate>) := (intakes, []);
      var i := 0;
      while i < |receipts|
        invariant 0 <= i <= |receipts| && !crashed
        invariant forall k :: 0 <= k < i ==> !StoreCrashes(receipts[k], h, false)
        invariant state == Sort(old(intakes), client, job, h, receipts[..i])
        invariant State() == old(State()).(intakes := state.0) && diverted == DivertedRows(state.1)
        invariant ErrorsAre(errors, uploads, bad, {}) && HoldingBad(bad, receipts, h, i)
      {
        var r := receipts[i];
        diverted := DivertPage(diverted, client, job, h, r, state);
        if StoreCrashes(r, h, false) { return true, diverted, errors, bad; }
        SortStep(old(intakes), client, job, h, receipts, i);
        state := SortOne(state, client, job, h, r);
        NextHoldingBad(bad, receipts, h, i);
        errors, bad := ReportIf(HoldingFailed(receipts, h, |receipts|, i), i, errors, uploads, bad);
        i := i + 1;
      }
      assert receipts[..i] == receipts;
    }

    /** The trip, if one is created, and the claim header. */
    method OpenClaim(client: nat, h: Header) returns (c: nat)
      modifies this
      ensures State() == Filed(old(State()), client, None, h, []) && c == |old(claims)|
    {
      var event: Option<nat> := None;
      if h.newEvent {
        event := Some(events);
        events := events + 1;
      }
      c := |claims|;
      claims := claims + [BuiltClaim(client, None, event, [])];
    }

    /** One line in its own savepoint: what a failed attempt wrote is taken back. */
    method AddLine(c: nat, source: Source, works: bool)
      requires c < |claims|
      modifies this
      ensures
        var lines := old(claims)[c].lines + [BuiltLine(|old(claims)[c].lines| + 1, source)];
        State() == if works then old(State()).(claims := WithLines(old(claims), c, lines)) else old(State())
    {
      var savepoint := State();
      var lines := claims[c].lines + [BuiltLine(|claims[c].lines| + 1, source)];
      claims := claims[c := claims[c].(lines := lines)];
      if !works { Restore(savepoint); }
    }

    /** The lines of the pages. */
    method AddPageLines(c: nat, receipts: seq<Receipt>, h: Header, before: seq<Report>, uploads: nat,
                        ghost held: set<nat>, ghost fates: seq<Fate>)
      returns (crashed: bool, added: nat, errors: seq<Report>, ghost bad: set<nat>)
      requires c < |claims| && claims[c].lines == []
      requires ErrorsAre(before, uploads, held, {}) && PagesBad(held, receipts, h, 0) && FatesOf(fates, receipts, h)
      modifies this
      ensures crashed <==> exists i :: 0 <= i < |receipts| && StoreCrashes(receipts[i], h, true)
      ensures !crashed ==>
        && State() == old(State()).(claims := WithLines(old(claims), c, PageLines(fates)))
        && added == |PageLines(fates)|
        && ErrorsAre(errors, uploads, bad, {}) && PagesBad(bad, receipts, h, |receipts|)
    {
      crashed, added, errors, bad := false, 0, before, held;
      var i := 0;
      assert WithLines(claims, c, []) == claims;
      while i < |receipts|
        invariant 0 <= i <= |receipts| && !crashed
        invariant forall k :: 0 <= k < i ==> !StoreCrashes(receipts[k], h, true)
        invariant State() == old(State()).(claims := WithLines(old(claims), c, PageLines(fates[..i])))
        invariant added == |PageLines(fates[..i])|
        invariant ErrorsAre(errors, uploads, bad, {}) && PagesBad(bad, receipts, h, i)
      {
        var r := receipts[i];
        PageLinesStep(fates, i);
        if r.reading.Fine? && OnClaim(r, h) {
          AddLine(c, Page(i), r.storing.Fine?);
          if r.storing.Crashes? { return true, added, errors, bad; }
          if r.storing.Fine? { added := added + 1; }
        }
        NextPageBad(bad, receipts, h, i);
        errors, bad := ReportIf(LineFailed(receipts, h, |receipts|, i), i, errors, uploads, bad);
        i := i + 1;
      }
      assert fates[..i] == fates;
    }

    /** The trips, after the pages: nothing about a trip aborts the capture. */
    method AddTripLines(c: nat, trips: seq<Trip>, before: seq<Report>, uploads: nat, ghost pages: set<nat>)
      returns (added: nat, errors: seq<Report>, ghost bad: set<nat>)
      requires c < |claims| && ErrorsAre(before, uploads, pages, {})
      modifies this
      ensures State() == old(State()).(claims := WithLines(old(claims), c, TripLines(old(claims)[c].lines, trips)))
      ensures added == |TripLines(old(claims)[c].lines, trips)| - |old(claims)[c].lines|
      ensures ErrorsAre(errors, uploads, pages, bad) && TripsBad(bad, trips, |trips|)
    {
      added, errors, bad := 0, before, {};
      ghost var base := claims[c].lines;
      var k := 0;
      while k < |trips|
        invariant 0 <= k <= |trips|
        invariant State() == old(State()).(claims := WithLines(old(claims), c, TripLines(base, trips[..k])))
        invariant added == |TripLines(base, trips[..k])| - |base|
        invariant ErrorsAre(errors, uploads, pages, bad) && TripsBad(bad, trips, k)
      {
        assert trips[..k + 1][..k] == trips[..k];
        if trips[k].Route? {
          AddLine(c, Journey(k), trips[k].found);
          if trips[k].found { added := added + 1; }
        }
        if TripFails(trips[k]) {
          MoreErrors(errors, BadTrip(k), uploads, pages, bad);
          errors := errors + [BadTrip(k)];
          bad := bad + {k};
        }
        k := k + 1;
      }
      assert trips[..k] == trips;
    }

    /** 3c: the claim in its own savepoint, so that dropping an empty one, with the trip made
        for it, keeps the pages diverted before. */
    method FileClaim(client: nat, job: Option<nat>, h: Header, receipts: seq<Receipt>, trips: seq<Trip>,
                     before: seq<Report>, uploads: nat, ghost held: set<nat>, ghost fates: seq<Fate>)
      returns (crashed: bool, claim: Option<nat>, added: nat, errors: seq<Report>, ghost bad: set<nat>,
               ghost failed: set<nat>)
      requires ErrorsAre(before, uploads, held, {}) && PagesBad(held, receipts, h, 0) && FatesOf(fates, receipts, h)
      modifies this
      ensures crashed <==> FilingRaises(old(State()), job, h, receipts, trips, fates)
      ensures crashed ==> State() == old(State())
      ensures !crashed ==>
        && added == |ClaimLines(fates, trips)| && ErrorsAre(errors, uploads, bad, failed)
        && PagesBad(bad, receipts, h, |receipts|) && TripsBad(failed, trips, |trips|)
        && claim == (if added > 0 then Some(|old(claims)|) else None)
        && State() == if added > 0 then Filed(old(State()), client, job, h, ClaimLines(fates, trips)) else old(State())
    {
      crashed, claim, added, errors, bad, failed := false, None, 0, before, held, {};
      if !WantsClaim(h, receipts, trips) {
        NothingLined(fates);
        return;
      }
      var savepoint := State();
      var c := OpenClaim(client, h);
      if !h.opens {
        Restore(savepoint);
        return true, None, added, errors, bad, failed;
      }
      var more;
      crashed, added, errors, bad := AddPageLines(c, receipts, h, errors, uploads, bad, fates);
      if crashed {
        Restore(savepoint);
        return;
      }
      more, errors, failed := AddTripLines(c, trips, errors, uploads, bad);
      added := added + more;
      if added == 0 {
        Restore(savepoint);
      } else {
        var clash := job.Some? && exists x :: x in claims && x.job == job;
        if job.Some? { ClashIff(old(claims), claims[c], job); }
        assert claims == old(claims) + [claims[c]];
        claims := claims[c := claims[c].(job := job)];
        claim := Some(c);
        assert clash <==> JobTaken(old(State()), job);
        assert State() == Filed(old(State()), client, job, h, ClaimLines(fates, trips));
        if clash {
          Restore(savepoint);
          crashed := true;
        }
      }
    }

    /** `build_claim`. */
    method BuildClaim(client: nat, job: Option<nat>, h: Header, uploads: nat, receipts: seq<Receipt>, trips: seq<Trip>)
      returns (r: IngestResult)
      modifies this
      ensures !h.valid ==> r.BadHeader? && State() == old(State())
      ensures h.valid ==> (r.Raised? <==> Raises(old(State()), client, job, h, receipts, trips))
      ensures r.Raised? ==> State() == old(State())
      ensures h.valid && !r.Raised? ==> IsCapture(old(State()), client, job, h, uploads, receipts, trips, r, State())
    {
      if !h.valid { return BadHeader; }
      var errors := UploadErrors(uploads);
      var session := State();
      var crashed, diverted, claim, added;
      ghost var bad, failed;
      crashed, errors, bad := Classify(receipts, errors, uploads);
      if crashed {
        Restore(session);
        return Raised;
      }
      ghost var fates := Sort(intakes, client, job, h, receipts).1;
      crashed, diverted, errors, bad := DivertPages(client, job, h, receipts, errors, uploads, bad);
      if crashed {
        Restore(session);
        return Raised;
      }
      forall i | 0 <= i < |receipts|
        ensures fates[i].Lined? <==> BecomesLine(receipts[i], h)
        ensures fates[i].Errored? <==> !receipts[i].reading.Fine? || !receipts[i].storing.Fine?
      {
        FateOfPage(session.intakes, client, job, h, receipts, i);
      }
      crashed, claim, added, errors, bad, failed :=
        FileClaim(client, job, h, receipts, trips, errors, uploads, bad, fates);
      if crashed {
        Restore(session);
        return Raised;
      }
      ErrorsAreExact(errors, uploads, bad, failed, receipts, h, trips, fates);
      if added == 0 && diverted == [] {
        Restore(session);
        return Ingested(None, 0, [], errors);
      }
      r := Ingested(claim, added, diverted, errors);
    }
  }

  // -- what a capture conserves ---------------------------------------------------------------------

  /** A claim made by a capture has its lines numbered 1 to n: a failed line leaves no gap. */
  lemma {:induction false} PagesNumbered(fates: seq<Fate>)
    ensures NumberedFromOne(PageLines(fates))
  {
    if fates != [] { PagesNumbered(fates[..|fates| - 1]); }
  }

  lemma {:induction false} LinesNumbered(lines: seq<BuiltLine>, trips: seq<Trip>)
    requires NumberedFromOne(lines)
    ensures NumberedFromOne(TripLines(lines, trips))
  {
    if trips != [] { LinesNumbered(lines, trips[..|trips| - 1]); }
  }

  function Sources(lines: seq<BuiltLine>): (r: multiset<Source>) {
    if lines == [] then multiset{} else Sources(lines[..|lines| - 1]) + multiset{lines[|lines| - 1].source}
  }

  lemma {:induction false} SourcesStep(lines: seq<BuiltLine>, l: BuiltLine)
    ensures Sources(lines + [l]) == Sources(lines) + multiset{l.source}
  {
    assert (lines + [l])[..|lines|] == lines;
  }

  lemma {:induction false} PageLinesNext(init: seq<Fate>, fate: Fate)
    ensures PageLines(init + [fate]) ==
      if fate.Lined? then PageLines(init) + [BuiltLine(|PageLines(init)| + 1, Page(|init|))] else PageLines(init)
  {
    assert (init + [fate])[..|init|] == init;
  }

  lemma {:induction false} PageSourcesNext(init: seq<Fate>, fate: Fate, x: Source)
    ensures Sources(PageLines(init + [fate]))[x] ==
            Sources(PageLines(init))[x] + (if fate.Lined? && x == Page(|init|) then 1 else 0)
  {
    var before := PageLines(init);
    PageLinesNext(init, fate);
    SourcesStep(before, BuiltLine(|before| + 1, Page(|init|)));
  }

  lemma {:induction false} PageSources(fates: seq<Fate>, x: Source)
    ensures Sources(PageLines(fates))[x] == if x.Page? && x.receipt < |fates| && fates[x.receipt].Lined? then 1 else 0
  {
    if fates != [] {
      var init := fates[..|fates| - 1];
      PageSources(init, x);
      PageSourcesNext(init, fates[|fates| - 1], x);
      assert fates == init + [fates[|fates| - 1]];
    }
  }

  lemma {:induction false} TripSources(lines: seq<BuiltLine>, trips: seq<Trip>, i: nat)
    ensures Sources(TripLines(lines, trips))[Page(i)] == Sources(lines)[Page(i)]
    ensures Sources(TripLines(lines, trips))[Journey(i)] ==
            Sources(lines)[Journey(i)] + (if i < |trips| && TripWorks(trips[i]) then 1 else 0)
  {
    if trips != [] {
      var init := trips[..|trips| - 1];
      TripSources(lines, init, i);
      SourcesStep(TripLines(lines, init), BuiltLine(|TripLines(lines, init)| + 1, Journey(|trips| - 1)));
    }
  }

  /** Every page and every trip that works is on the claim exactly once, nothing else is,
      and the lines are numbered without gaps. */
  lemma CaptureIsComplete(fates: seq<Fate>, trips: seq<Trip>, i: nat)
    ensures NumberedFromOne(ClaimLines(fates, trips))
    ensures Sources(ClaimLines(fates, trips))[Page(i)] == if i < |fates| && fates[i].Lined? then 1 else 0
    ensures Sources(ClaimLines(fates, trips))[Journey(i)] == if i < |trips| && TripWorks(trips[i]) then 1 else 0
  {
    PagesNumbered(fates);
    LinesNumbered(PageLines(fates), trips);
    PageSources(fates, Page(i));
    PageSources(fates, Journey(i));
    TripSources(PageLines(fates), trips, i);
  }

  /** UNIQUE(job, page). */
  predicate PagesUnique(intakes: seq<Intake>) {
    forall j, k :: 0 <= j < k < |intakes| && intakes[j].job.Some? ==>
      !(intakes[j].job == intakes[k].job && intakes[j].sha == intakes[k].sha)
  }

  /** The queue keeps its rows: none is removed, reopened, closed or moved to another image. */
  predicate SameRows(before: seq<Intake>, after: seq<Intake>) {
    |before| <= |after| && forall k :: 0 <= k < |before| ==> after[k] == before[k].(queue := after[k].queue)
  }

  lemma DivertKeeps(intakes: seq<Intake>, client: nat, job: Option<nat>, r: Receipt)
    requires PagesUnique(intakes)
    ensures PagesUnique(Divert(intakes, client, job, r).0) && SameRows(intakes, Divert(intakes, client, job, r).0)
  {
  }

  lemma {:induction false} SortKeeps(intakes: seq<Intake>, client: nat, job: Option<nat>, h: Header,
                                     receipts: seq<Receipt>)
    requires PagesUnique(intakes)
    ensures PagesUnique(Sort(intakes, client, job, h, receipts).0)
    ensures SameRows(intakes, Sort(intakes, client, job, h, receipts).0)
  {
    if receipts != [] {
      var init := receipts[..|receipts| - 1];
      SortKeeps(intakes, client, job, h, init);
      DivertKeeps(Sort(intakes, client, job, h, init).0, client, job, receipts[|receipts| - 1]);
    }
  }

  predicate Holds(intakes: seq<Intake>, client: nat, job: Option<nat>, sha: string) {
    OpenRow(intakes, client, sha).Some? || Recorded(intakes, job, sha)
  }

  lemma HoldsStays(before: seq<Intake>, after: seq<Intake>, client: nat, job: Option<nat>, sha: string)
    requires SameRows(before, after) && Holds(before, client, job, sha)
    ensures Holds(after, client, job, sha)
  {
    var row := OpenRow(before, client, sha);
    if row.Some? {
      assert after[row.value].isOpen;
    } else {
      var x :| x in before && x.job == job && x.sha == sha;
      var k :| 0 <= k < |before| && before[k] == x;
      assert after[k] in after;
    }
  }

  lemma DivertHolds(intakes: seq<Intake>, client: nat, job: Option<nat>, r: Receipt)
    requires r.storing.Fine?
    ensures Holds(Divert(intakes, client, job, r).0, client, job, r.sha)
    ensures Holds(intakes, client, job, r.sha) ==> |Divert(intakes, client, job, r).0| == |intakes|
  {
    var after := Divert(intakes, client, job, r).0;
    var row := OpenRow(intakes, client, r.sha);
    if row.Some? {
      assert after[row.value].isOpen;
    } else if Recorded(intakes, job, r.sha) {
    } else {
      assert after[|intakes|].isOpen;
    }
  }

  predicate ToQueue(r: Receipt, h: Header) {
    r.reading.Fine? && !OnClaim(r, h) && r.storing.Fine?
  }

  lemma {:induction false} SortHolds(intakes: seq<Intake>, client: nat, job: Option<nat>, h: Header,
                                     receipts: seq<Receipt>, i: nat)
    requires PagesUnique(intakes) && i < |receipts| && ToQueue(receipts[i], h)
    ensures Holds(Sort(intakes, client, job, h, receipts).0, client, job, receipts[i].sha)
  {
    var init, last := receipts[..|receipts| - 1], receipts[|receipts| - 1];
    var before := Sort(intakes, client, job, h, init).0;
    SortKeeps(intakes, client, job, h, init);
    if i < |init| {
      SortHolds(intakes, client, job, h, init, i);
      DivertKeeps(before, client, job, last);
      if last.reading.Fine? && !OnClaim(last, h) {
        HoldsStays(before, Divert(before, client, job, last).0, client, job, receipts[i].sha);
      }
    } else {
      DivertHolds(before, client, job, last);
    }
  }

  /** Sorting again into a queue that has the pages already adds no row. */
  lemma {:induction false} SortAddsNothing(intakes: seq<Intake>, client: nat, job: Option<nat>, h: Header,
                                           receipts: seq<Receipt>)
    requires PagesUnique(intakes)
    requires forall i :: 0 <= i < |receipts| && ToQueue(receipts[i], h) ==> Holds(intakes, client, job, receipts[i].sha)
    ensures |Sort(intakes, client, job, h, receipts).0| == |intakes|
  {
    if receipts != [] {
      var init, last := receipts[..|receipts| - 1], receipts[|receipts| - 1];
      var before := Sort(intakes, client, job, h, init).0;
      SortAddsNothing(intakes, client, job, h, init);
      SortKeeps(intakes, client, job, h, init);
      if ToQueue(last, h) {
        HoldsStays(intakes, before, client, job, last.sha);
        DivertHolds(before, client, job, last);
      }
    }
  }

  /** The same upload captured twice parks each page once. */
  lemma {:induction false} CaptureTwice(intakes: seq<Intake>, client: nat, job: Option<nat>, h: Header,
                                        receipts: seq<Receipt>)
    requires PagesUnique(intakes)
    ensures
      var once := Sort(intakes, client, job, h, receipts).0;
      PagesUnique(once) && |Sort(once, client, job, h, receipts).0| == |once|
  {
    var once := Sort(intakes, client, job, h, receipts).0;
    SortKeeps(intakes, client, job, h, receipts);
    forall i | 0 <= i < |receipts| && ToQueue(receipts[i], h) ensures Holds(once, client, job, receipts[i].sha) {
      SortHolds(intakes, client, job, h, receipts, i);
    }
    SortAddsNothing(once, client, job, h, receipts);
  }

  // -- whose rows a capture leaves ----------------------------------------------------------------

  /** A row of the holding queue is keyed to the job. */
  predicate OwnRow(intakes: seq<Intake>, job: Option<nat>) {
    exists k :: 0 <= k < |intakes| && intakes[k].job == job
  }

  predicate OwnOpen(intakes: seq<Intake>, client: nat, job: Option<nat>) {
    forall k :: 0 <= k < |intakes| && intakes[k].job == job ==> intakes[k].client == client && intakes[k].isOpen
  }

  predicate IsOpen(intakes: seq<Intake>, client: nat, sha: string) {
    exists k :: 0 <= k < |intakes| && intakes[k].client == client && intakes[k].sha == sha && intakes[k].isOpen
  }

  lemma Upgraded(intakes: seq<Intake>, k: nat, queue: Queue, client: nat, job: Option<nat>, sha: string)
    requires k < |intakes|
    ensures
      var after := intakes[k := intakes[k].(queue := queue)];
      && (OwnRow(after, job) <==> OwnRow(intakes, job))
      && (OwnOpen(after, client, job) <==> OwnOpen(intakes, client, job))
      && (IsOpen(after, client, sha) <==> IsOpen(intakes, client, sha))
  {
    var after := intakes[k := intakes[k].(queue := queue)];
    forall i | 0 <= i < |intakes|
      ensures after[i].job == intakes[i].job && after[i].client == intakes[i].client && after[i].sha == intakes[i].sha
      ensures after[i].isOpen == intakes[i].isOpen
    {}
  }

  lemma Inserted(intakes: seq<Intake>, row: Intake, client: nat, job: Option<nat>, sha: string)
    requires row.client == client && row.isOpen
    ensures OwnRow(intakes + [row], job) <==> OwnRow(intakes, job) || row.job == job
    ensures OwnOpen(intakes, client, job) ==> OwnOpen(intakes + [row], client, job)
    ensures IsOpen(intakes + [row], client, sha) <==> IsOpen(intakes, client, sha) || row.sha == sha
  {
    var after := intakes + [row];
    assert forall i :: 0 <= i < |intakes| ==> after[i] == intakes[i];
    assert after[|intakes|] == row;
  }

  /** One page into the queue, where the job's own rows are all open: it is never skipped,
      and leaves a row of the job exactly when no open row has its image. */
  lemma DivertTracks(intakes: seq<Intake>, client: nat, job: Option<nat>, r: Receipt, sha: string)
    requires job.Some? && OwnOpen(intakes, client, job) && r.storing.Fine?
    ensures
      var (after, fate) := Divert(intakes, client, job, r);
      && fate.Diverted? && OwnOpen(after, client, job)
      && (OwnRow(after, job) <==> OwnRow(intakes, job) || !IsOpen(intakes, client, r.sha))
      && (IsOpen(after, client, sha) <==> IsOpen(intakes, client, sha) || r.sha == sha)
  {
    var row := OpenRow(intakes, client, r.sha);
    if row.Some? {
      var k := row.value;
      var queue := if intakes[k].queue.Undecided? then r.queue else intakes[k].queue;
      Upgraded(intakes, k, queue, client, job, sha);
      assert Divert(intakes, client, job, r).0 == intakes[k := intakes[k].(queue := queue)];
    } else {
      Inserted(intakes, Intake(client, r.sha, job, true, r.queue), client, job, sha);
    }
  }

  /** Some page for the holding queue shows an image no open row had. */
  predicate NewImage(intakes: seq<Intake>, client: nat, h: Header, receipts: seq<Receipt>) {
    exists i :: 0 <= i < |receipts| && ToQueue(receipts[i], h) && !IsOpen(intakes, client, receipts[i].sha)
  }

  predicate Queues(h: Header, receipts: seq<Receipt>, sha: string) {
    exists i :: 0 <= i < |receipts| && ToQueue(receipts[i], h) && receipts[i].sha == sha
  }

  lemma NewImageStep(intakes: seq<Intake>, client: nat, h: Header, init: seq<Receipt>, last: Receipt, sha: string)
    ensures NewImage(intakes, client, h, init + [last]) <==>
      NewImage(intakes, client, h, init) || (ToQueue(last, h) && !IsOpen(intakes, client, last.sha))
    ensures Queues(h, init + [last], sha) <==> Queues(h, init, sha) || (ToQueue(last, h) && last.sha == sha)
  {
    var all := init + [last];
    assert forall i :: 0 <= i < |init| ==> all[i] == init[i];
    assert all[|init|] == last;
  }

  lemma {:induction false} SortTracks(intakes: seq<Intake>, client: nat, job: Option<nat>, h: Header,
                                      receipts: seq<Receipt>, sha: string)
    requires job.Some? && !OwnRow(intakes, job)
    ensures
      var after := Sort(intakes, client, job, h, receipts).0;
      && OwnOpen(after, client, job)
      && (OwnRow(after, job) <==> NewImage(intakes, client, h, receipts))
      && (IsOpen(after, client, sha) <==> IsOpen(intakes, client, sha) || Queues(h, receipts, sha))
  {
    if receipts != [] {
      var init, last := receipts[..|receipts| - 1], receipts[|receipts| - 1];
      var before := Sort(intakes, client, job, h, init).0;
      assert receipts == init + [last];
      SortTracks(intakes, client, job, h, init, sha);
      SortTracks(intakes, client, job, h, init, last.sha);
      NewImageStep(intakes, client, h, init, last, sha);
      if ToQueue(last, h) {
        DivertTracks(before, client, job, last, sha);
        if Queues(h, init, last.sha) && !IsOpen(intakes, client, last.sha) {
          QueuedIsNew(intakes, client, h, init, last.sha);
        }
      }
    }
  }

  lemma QueuedIsNew(intakes: seq<Intake>, client: nat, h: Header, receipts: seq<Receipt>, sha: string)
    requires Queues(h, receipts, sha) && !IsOpen(intakes, client, sha)
    ensures NewImage(intakes, client, h, receipts)
  {
  }

  predicate AnyQueued(h: Header, receipts: seq<Receipt>) {
    exists i :: 0 <= i < |receipts| && ToQueue(receipts[i], h)
  }

  lemma AnyQueuedStep(h: Header, init: seq<Receipt>, last: Receipt)
    ensures AnyQueued(h, init + [last]) <==> AnyQueued(h, init) || ToQueue(last, h)
  {
    assert forall i :: 0 <= i < |init| ==> (init + [last])[i] == init[i];
    assert (init + [last])[|init|] == last;
  }

  lemma {:induction false} QueuedAreDiverted(intakes: seq<Intake>, client: nat, job: Option<nat>, h: Header,
                                             receipts: seq<Receipt>)
    requires job.Some? && !OwnRow(intakes, job)
    ensures DivertedRows(Sort(intakes, client, job, h, receipts).1) != [] <==> AnyQueued(h, receipts)
  {
    if receipts != [] {
      var init, last := receipts[..|receipts| - 1], receipts[|receipts| - 1];
      var (before, fates) := Sort(intakes, client, job, h, init);
      assert receipts == init + [last];
      QueuedAreDiverted(intakes, client, job, h, init);
      AnyQueuedStep(h, init, last);
      SortTracks(intakes, client, job, h, init, last.sha);
      if ToQueue(last, h) { DivertTracks(before, client, job, last, last.sha); }
      DivertedRowsStep(fates, SortOne((before, fates), client, job, h, last).1[|fates|]);
    }
  }

  /** A job's first capture lists a diverted page exactly when some page belongs in the queue
      and can be stored, and leaves a row of its own exactly when one of these shows an image
      no open row of the client had: otherwise all it lists are rows somebody else left. */
  lemma {:induction false} OwnRowIff(intakes: seq<Intake>, client: nat, job: Option<nat>, h: Header,
                                     receipts: seq<Receipt>)
    requires job.Some? && !OwnRow(intakes, job)
    ensures DivertedRows(Sort(intakes, client, job, h, receipts).1) != [] <==> AnyQueued(h, receipts)
    ensures OwnRow(Sort(intakes, client, job, h, receipts).0, job) <==> NewImage(intakes, client, h, receipts)
  {
    QueuedAreDiverted(intakes, client, job, h, receipts);
    SortTracks(intakes, client, job, h, receipts, "");
  }

  /** One vendor bill, uploaded again by another job while it is still open: the capture
      lists it as diverted, builds no claim, and leaves nothing keyed to that job. */
  lemma {:induction false} BillHeldAlready(client: nat, sha: string, job: nat, other: nat)
    requires job != other
    ensures
      var intakes := [Intake(client, sha, Some(other), true, ToHolding)];
      var receipts := [Receipt(Fine, sha, ToHolding, Fine)];
      var h := Header(true, false, false, true);
      && Sort(intakes, client, Some(job), h, receipts) == (intakes, [Diverted(0)])
      && DivertedRows([Diverted(0)]) == [0]
      && ClaimLines([Diverted(0)], []) == []
      && !Raises(Store(intakes, 0, []), client, Some(job), h, receipts, [])
      && !OwnRow(intakes, Some(job))
  {
    var intakes := [Intake(client, sha, Some(other), true, ToHolding)];
    var receipts := [Receipt(Fine, sha, ToHolding, Fine)];
    var h := Header(true, false, false, true);
    assert receipts[..0] == [] && intakes[..0] == [];
    assert OpenRow(intakes, client, sha) == Some(0);
    assert intakes[0 := intakes[0]] == intakes;
    assert Divert(intakes, client, Some(job), receipts[0]) == (intakes, Diverted(0));
    SortStep(intakes, client, Some(job), h, receipts, 0);
    assert receipts[..0 + 1] == receipts;
    assert Sort(intakes, client, Some(job), h, []) == (intakes, []);
    assert !OnClaim(receipts[0], h);
    var none: seq<Fate> := [];
    assert none + [Diverted(0)] == [Diverted(0)];
    assert [Diverted(0)][..0] == [];
  }

  /** Other jobs' rows come and go with nobody else's capture. */
  lemma {:induction false} OthersRows(intakes: seq<Intake>, client: nat, job: Option<nat>, h: Header,
                                      receipts: seq<Receipt>, other: Option<nat>)
    requires other != job
    ensures OwnRow(Sort(intakes, client, job, h, receipts).0, other) <==> OwnRow(intakes, other)
  {
    if receipts != [] {
      var init, last := receipts[..|receipts| - 1], receipts[|receipts| - 1];
      OthersRows(intakes, client, job, h, init, other);
      OtherRow(Sort(intakes, client, job, h, init).0, client, job, last, other);
    }
  }

  lemma OtherRow(intakes: seq<Intake>, client: nat, job: Option<nat>, r: Receipt, other: Option<nat>)
    requires other != job
    ensures OwnRow(Divert(intakes, client, job, r).0, other) <==> OwnRow(intakes, other)
  {
    var row := OpenRow(intakes, client, r.sha);
    if r.storing.Fine? && row.Some? {
      var k := row.value;
      var queue := if intakes[k].queue.Undecided? then r.queue else intakes[k].queue;
      Upgraded(intakes, k, queue, client, other, r.sha);
      assert Divert(intakes, client, job, r).0 == intakes[k := intakes[k].(queue := queue)];
    } else {
      Inserted(intakes, Intake(client, r.sha, job, true, r.queue), client, other, r.sha);
    }
  }
}
