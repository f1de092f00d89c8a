/** The hash-chained audit trail (src/core/audit.py, the AuditRepository of
    src/eclaim/repositories.py and src/eclaim/services/audit.py).

    SHA-256 is ideal: a digest is the constructor applied to what was hashed, so equal
    digests hash equal inputs. `Genesis` is the empty string that starts a chain. */
module AuditChain {
  import opened Prelude

  datatype Payload = Payload(entity: Entity, eventType: string, actor: string, detail: string)

  datatype Entity = Entity(kind: string, id: nat)

  datatype Digest = Genesis | Sha(prev: Digest, payload: Payload)

  /** One stored event. The digest column holds whatever was written, honest or not. */
  datatype Row = Row(prevHash: Option<Digest>, payload: Payload, hash: Digest)

  /** A missing previous hash and the empty one mean the same. */
  function Norm(prev: Option<Digest>): Digest {
    if prev.Some? then prev.value else Genesis
  }

  function ChainHash(prev: Option<Digest>, payload: Payload): Digest {
    Sha(Norm(prev), payload)
  }

  // -- verifying --------------------------------------------------------------

  /** Event i points at event i-1 and its digest recomputes. */
  predicate LinkedAt(events: seq<Row>, i: int)
    requires 0 <= i < |events|
  {
    && Norm(events[i].prevHash) == (if i == 0 then Genesis else events[i - 1].hash)
    && events[i].hash == ChainHash(events[i].prevHash, events[i].payload)
  }

  predicate Verified(events: seq<Row>) {
    forall i :: 0 <= i < |events| ==> LinkedAt(events, i)
  }

  method VerifyChain(events: seq<Row>) returns (ok: bool)
    ensures ok <==> Verified(events)
  {
    var expectedPrev := Genesis;
    for i := 0 to |events|
      invariant expectedPrev == if i == 0 then Genesis else events[i - 1].hash
      invariant forall j :: 0 <= j < i ==> LinkedAt(events, j)
    {
      if Norm(events[i].prevHash) != expectedPrev {
        assert !LinkedAt(events, i);
        return false;
      }
      if ChainHash(events[i].prevHash, events[i].payload) != events[i].hash {
        assert !LinkedAt(events, i);
        return false;
      }
      expectedPrev := events[i].hash;
    }
    ok := true;
  }

  function Tip(events: seq<Row>): Digest {
    if events == [] then Genesis else events[|events| - 1].hash
  }

  function Depth(d: Digest): nat {
    match d
    case Genesis => 0
    case Sha(prev, _) => 1 + Depth(prev)
  }

  lemma {:induction false} DepthAt(events: seq<Row>, i: nat)
    requires Verified(events) && i < |events|
    ensures Depth(events[i].hash) == i + 1
    ensures Depth(Norm(events[i].prevHash)) == i
  {
    assert LinkedAt(events, i);
    if i > 0 {
      DepthAt(events, i - 1);
    }
  }

  /** Equal up to the two spellings of "no previous hash". */
  predicate SameEvent(a: Row, b: Row) {
    Norm(a.prevHash) == Norm(b.prevHash) && a.payload == b.payload && a.hash == b.hash
  }

  /** Tamper evidence: the final digest fixes the whole history, so no two different
      verified histories share one. */
  lemma {:induction false} TipFixesHistory(a: seq<Row>, b: seq<Row>)
    requires Verified(a) && Verified(b) && Tip(a) == Tip(b)
    ensures |a| == |b| && forall i :: 0 <= i < |a| ==> SameEvent(a[i], b[i])
    decreases |a|
  {
    var m, n := |a|, |b|;
    if a == [] {
      if b != [] { DepthAt(b, n - 1); assert false; }
    } else {
      DepthAt(a, m - 1);
      if b == [] { assert false; }
      assert LinkedAt(a, m - 1) && LinkedAt(b, n - 1);
      VerifiedPrefix(a, m - 1);
      VerifiedPrefix(b, n - 1);
      TipFixesHistory(a[..m - 1], b[..n - 1]);
      forall i | 0 <= i < m
        ensures SameEvent(a[i], b[i])
      {
        if i < m - 1 { assert SameEvent(a[..m - 1][i], b[..n - 1][i]); }
      }
    }
  }

  lemma VerifiedPrefix(events: seq<Row>, k: int)
    requires Verified(events) && 0 <= k <= |events|
    ensures Verified(events[..k])
    ensures Tip(events[..k]) == if k == 0 then Genesis else events[k - 1].hash
  {
    forall i | 0 <= i < k ensures LinkedAt(events[..k], i) {
      assert LinkedAt(events, i);
    }
  }

  /** A chain stays verified when an event is appended exactly when the new event
      recomputes and points at the tip. */
  lemma AppendVerified(events: seq<Row>, row: Row)
    requires Verified(events)
    ensures Verified(events + [row]) <==>
      Norm(row.prevHash) == Tip(events) && row.hash == ChainHash(row.prevHash, row.payload)
  {
    var after := events + [row];
    forall i | 0 <= i < |events| ensures LinkedAt(after, i) {
      assert LinkedAt(events, i);
    }
    assert LinkedAt(after, |events|) <==>
      Norm(row.prevHash) == Tip(events) && row.hash == ChainHash(row.prevHash, row.payload);
  }

  // -- the tip, found structurally ----------------------------------------------

  predicate HasSuccessor(rows: seq<Row>, hash: Digest) {
    exists j :: 0 <= j < |rows| && rows[j].prevHash == Some(hash)
  }

  /** An answer the tip query may give: with several events that nothing points back
      to, the database may return any one of them. */
  predicate IsTipAnswer(rows: seq<Row>, answer: Option<Digest>) {
    match answer
    case None => forall i :: 0 <= i < |rows| ==> HasSuccessor(rows, rows[i].hash)
    case Some(h) => !HasSuccessor(rows, h) && exists i :: 0 <= i < |rows| && rows[i].hash == h
  }

  /** The rows are the events of one verified chain, stored in any order. */
  ghost predicate StoresChain(rows: seq<Row>, chain: seq<Row>) {
    Verified(chain) && multiset(rows) == multiset(chain)
  }

  lemma SameMembers(rows: seq<Row>, chain: seq<Row>)
    requires multiset(rows) == multiset(chain)
    ensures |rows| == |chain|
    ensures forall x :: x in rows <==> x in chain
  {
    assert |multiset(rows)| == |rows| && |multiset(chain)| == |chain|;
    forall x ensures x in rows <==> x in chain {
      assert x in multiset(rows) <==> x in multiset(chain);
    }
  }

  /** The tip of a stored chain is unique: whichever row the query picks, it answers
      with the digest of the last appended event. */
  lemma TipIsUnique(rows: seq<Row>, chain: seq<Row>, answer: Option<Digest>)
    requires StoresChain(rows, chain)
    ensures IsTipAnswer(rows, answer) <==> answer == if chain == [] then None else Some(Tip(chain))
  {
    SameMembers(rows, chain);
    var n := |chain|;
    forall i: nat | i < n
      ensures HasSuccessor(rows, chain[i].hash) <==> i < n - 1
    {
      DepthAt(chain, i);
      if i < n - 1 {
        assert LinkedAt(chain, i + 1);
        DepthAt(chain, i + 1);
        assert chain[i + 1] in rows;
        var j :| 0 <= j < |rows| && rows[j] == chain[i + 1];
        assert rows[j].prevHash == Some(chain[i].hash);
      } else if HasSuccessor(rows, chain[i].hash) {
        var j :| 0 <= j < |rows| && rows[j].prevHash == Some(chain[i].hash);
        assert rows[j] in chain;
        var k :| 0 <= k < n && chain[k] == rows[j];
        DepthAt(chain, k);
        assert false;
      }
    }
    if n == 0 {
      assert rows == [];
    } else {
      assert chain[n - 1] in rows;
      var l :| 0 <= l < |rows| && rows[l] == chain[n - 1];
      forall i | 0 <= i < |rows| && !HasSuccessor(rows, rows[i].hash)
        ensures rows[i].hash == Tip(chain)
      {
        assert rows[i] in chain;
        var k :| 0 <= k < n && chain[k] == rows[i];
        assert k == n - 1;
      }
    }
  }

  // -- rebuilding the order by following the links -------------------------------

  /** The dictionary `by_prev`: a later row overwrites an earlier one. */
  function ByPrev(rows: seq<Row>): map<Digest, Row> {
    if rows == [] then map[]
    else ByPrev(rows[..|rows| - 1])[Norm(rows[|rows| - 1].prevHash) := rows[|rows| - 1]]
  }

  lemma {:induction false} ByPrevRows(rows: seq<Row>)
    ensures forall d :: d in ByPrev(rows) ==> ByPrev(rows)[d] in rows && Norm(ByPrev(rows)[d].prevHash) == d
    ensures forall x :: x in rows ==> Norm(x.prevHash) in ByPrev(rows)
  {
    if rows != [] {
      var init := rows[..|rows| - 1];
      ByPrevRows(init);
      assert rows == init + [rows[|rows| - 1]];
    }
  }

  /** Following the links from `cursor` leaves the dictionary after exactly k events. */
  predicate StopsIn(m: map<Digest, Row>, cursor: Digest, k: nat)
    decreases k
  {
    if k == 0 then cursor !in m else cursor in m && StopsIn(m, m[cursor].hash, k - 1)
  }

  /** The loop of `chain` on these rows terminates. */
  ghost predicate WalkEnds(rows: seq<Row>) {
    exists k: nat :: StopsIn(ByPrev(rows), Genesis, k)
  }

  lemma {:induction false} StopsOnce(m: map<Digest, Row>, cursor: Digest, k: nat, l: nat)
    requires StopsIn(m, cursor, k) && StopsIn(m, cursor, l)
    ensures k == l
    decreases k
  {
    if k > 0 && l > 0 {
      StopsOnce(m, m[cursor].hash, k - 1, l - 1);
    }
  }

  lemma {:induction false} HonestLinksStop(m: map<Digest, Row>, cursor: Digest, bound: nat) returns (k: nat)
    requires forall d :: d in m ==> m[d].hash == Sha(d, m[d].payload) && Depth(d) <= bound
    requires Depth(cursor) <= bound + 1
    ensures StopsIn(m, cursor, k)
    decreases bound + 1 - Depth(cursor)
  {
    if cursor in m {
      k := HonestLinksStop(m, m[cursor].hash, bound);
      k := k + 1;
    } else {
      k := 0;
    }
  }

  lemma {:induction false} DepthBound(rows: seq<Row>) returns (bound: nat)
    ensures forall x :: x in rows ==> Depth(Norm(x.prevHash)) <= bound
  {
    if rows == [] {
      bound := 0;
    } else {
      bound := DepthBound(rows[1..]);
      var d := Depth(Norm(rows[0].prevHash));
      assert rows == [rows[0]] + rows[1..];
      bound := if bound < d then d else bound;
    }
  }

  /** Rows whose digests recompute never make `chain` loop, forked or not. */
  lemma RecomputingRowsEnd(rows: seq<Row>)
    requires forall x :: x in rows ==> x.hash == ChainHash(x.prevHash, x.payload)
    ensures WalkEnds(rows)
  {
    ByPrevRows(rows);
    var bound := DepthBound(rows);
    var k := HonestLinksStop(ByPrev(rows), Genesis, bound);
  }

  method ByPrevMap(rows: seq<Row>) returns (m: map<Digest, Row>)
    ensures m == ByPrev(rows)
  {
    m := map[];
    for i := 0 to |rows|
      invariant m == ByPrev(rows[..i])
    {
      assert rows[..i + 1][..i] == rows[..i];
      m := m[Norm(rows[i].prevHash) := rows[i]];
    }
    assert rows[..|rows|] == rows;
  }

  /** Every event is the dictionary's answer to its own previous hash, they follow one
      another from the genesis, and the last one leads out of the dictionary. */
  predicate IsWalk(m: map<Digest, Row>, walk: seq<Row>) {
    && (forall i :: 0 <= i < |walk| ==> WalkStep(m, walk, i))
    && Tip(walk) !in m
  }

  predicate WalkStep(m: map<Digest, Row>, walk: seq<Row>, i: int)
    requires 0 <= i < |walk|
  {
    var cursor := if i == 0 then Genesis else walk[i - 1].hash;
    cursor in m && walk[i] == m[cursor]
  }

  /** Events for an entity in chain order, from the rows in whatever order the database
      returned them. */
  method Chain(rows: seq<Row>) returns (events: seq<Row>)
    requires WalkEnds(rows)
    ensures multiset(events) == multiset(rows)
    ensures forall chain :: StoresChain(rows, chain) ==> events == chain
    ensures Verified(events) <==> exists chain :: StoresChain(rows, chain)
  {
    var m := ByPrevMap(rows);
    ghost var total: nat :| StopsIn(m, Genesis, total);
    var ordered: seq<Row> := [];
    var cursor := Genesis;
    ghost var left := total;
    while cursor in m
      invariant cursor == Tip(ordered)
      invariant left == total - |ordered| && StopsIn(m, cursor, left)
      invariant forall i :: 0 <= i < |ordered| ==> WalkStep(m, ordered, i)
      invariant forall i :: 0 <= i < |ordered| ==> StopsIn(m, Norm(ordered[i].prevHash), total - i)
      decreases left
    {
      ByPrevRows(rows);
      var nxt := m[cursor];
      ghost var grown := ordered + [nxt];
      forall i | 0 <= i < |grown| ensures WalkStep(m, grown, i) {
        if i < |ordered| { assert WalkStep(m, ordered, i); }
      }
      ordered := ordered + [nxt];
      cursor := nxt.hash;
      left := left - 1;
    }
    assert IsWalk(m, ordered);
    forall chain | StoresChain(rows, chain) ensures ordered == chain {
      WalkIsChain(rows, chain, ordered);
      assert |chain| == |rows| by { SameMembers(rows, chain); }
    }
    WalkIsSubset(rows, ordered, total);
    if |ordered| == |rows| {
      FullSubset(multiset(ordered), multiset(rows));
      events := ordered;
    } else {
      events := rows;
    }
    if Verified(events) {
      assert StoresChain(rows, events);
    }
    forall chain | StoresChain(rows, chain) ensures events == chain {
      SameMembers(rows, chain);
    }
  }

  lemma FullSubset<T>(a: multiset<T>, b: multiset<T>)
    requires a <= b && |a| == |b|
    ensures a == b
  {
    assert b == a + (b - a);
  }

  /** The walk visits no row twice: its cursors stop after different numbers of steps. */
  lemma WalkIsSubset(rows: seq<Row>, walk: seq<Row>, total: nat)
    requires forall i :: 0 <= i < |walk| ==> WalkStep(ByPrev(rows), walk, i)
    requires |walk| <= total
    requires forall i :: 0 <= i < |walk| ==> StopsIn(ByPrev(rows), Norm(walk[i].prevHash), total - i)
    ensures multiset(walk) <= multiset(rows)
  {
    ByPrevRows(rows);
    forall i, j | 0 <= i < j < |walk| ensures walk[i] != walk[j] {
      if walk[i] == walk[j] {
        StopsOnce(ByPrev(rows), Norm(walk[i].prevHash), total - i, total - j);
      }
    }
    forall i | 0 <= i < |walk| ensures walk[i] in rows {
      assert WalkStep(ByPrev(rows), walk, i);
    }
    DistinctSubset(walk, rows);
  }

  lemma {:induction false} DistinctSubset(s: seq<Row>, t: seq<Row>)
    requires forall i, j :: 0 <= i < j < |s| ==> s[i] != s[j]
    requires forall i :: 0 <= i < |s| ==> s[i] in t
    ensures multiset(s) <= multiset(t)
  {
    forall x ensures multiset(s)[x] <= multiset(t)[x] {
      AtMostOnce(s, x);
      if x in multiset(s) {
        assert x in s;
        assert x in t;
      }
    }
  }

  lemma {:induction false} AtMostOnce(s: seq<Row>, x: Row)
    requires forall i, j :: 0 <= i < j < |s| ==> s[i] != s[j]
    ensures multiset(s)[x] <= 1
  {
    if s != [] {
      assert s == [s[0]] + s[1..];
      AtMostOnce(s[1..], x);
      if s[0] == x {
        assert x !in s[1..];
      }
    }
  }

  // -- exactly when the walk ends ----------------------------------------------------

  ghost predicate EndsWithin(rows: seq<Row>, links: nat) {
    exists k: nat :: k <= links && StopsIn(ByPrev(rows), Genesis, k)
  }

  /** The rows are met, in this order, by following the links from the genesis. */
  predicate Met(m: map<Digest, Row>, walk: seq<Row>) {
    forall i :: 0 <= i < |walk| ==> WalkStep(m, walk, i)
  }

  /** The last row met carries as its digest the previous hash of a row met no later. */
  predicate LinksBack(walk: seq<Row>) {
    walk != [] && exists i :: 0 <= i < |walk| && Norm(walk[i].prevHash) == walk[|walk| - 1].hash
  }

  /** Following the links meets a row that leads back. */
  ghost predicate HasCycle(rows: seq<Row>) {
    exists walk :: Met(ByPrev(rows), walk) && LinksBack(walk)
  }

  lemma MetPrefix(m: map<Digest, Row>, walk: seq<Row>, k: nat)
    requires Met(m, walk) && k <= |walk|
    ensures Met(m, walk[..k])
  {
    forall i | 0 <= i < k ensures WalkStep(m, walk[..k], i) {
      assert WalkStep(m, walk, i);
    }
  }

  lemma {:induction false} MetKeys(rows: seq<Row>, walk: seq<Row>, i: nat)
    requires Met(ByPrev(rows), walk) && i < |walk|
    ensures walk[i] in rows && Norm(walk[i].prevHash) == if i == 0 then Genesis else walk[i - 1].hash
  {
    ByPrevRows(rows);
    assert WalkStep(ByPrev(rows), walk, i);
  }

  /** With k links still to follow from the genesis, the i-th cursor has k - i left. */
  lemma {:induction false} StopsAfter(m: map<Digest, Row>, walk: seq<Row>, k: nat)
    requires Met(m, walk) && StopsIn(m, Genesis, k)
    ensures |walk| <= k && StopsIn(m, Tip(walk), k - |walk|)
  {
    if walk != [] {
      var n := |walk| - 1;
      MetPrefix(m, walk, n);
      StopsAfter(m, walk[..n], k);
      assert WalkStep(m, walk, n);
      assert n > 0 ==> Tip(walk[..n]) == walk[n - 1].hash;
    }
  }

  lemma {:induction false} RepeatLeadsBack(rows: seq<Row>, walk: seq<Row>, i: nat, j: nat)
    requires Met(ByPrev(rows), walk) && i < j < |walk| && walk[i] == walk[j]
    ensures HasCycle(rows)
  {
    MetKeys(rows, walk, j);
    MetPrefix(ByPrev(rows), walk, j);
    var round := walk[..j];
    assert round[i] == walk[i] && round[j - 1] == walk[j - 1];
    assert LinksBack(round);
  }

  /** A walk that never leads back meets every row at most once. */
  lemma {:induction false} AcyclicIsShort(rows: seq<Row>, walk: seq<Row>)
    requires Met(ByPrev(rows), walk) && !HasCycle(rows)
    ensures |walk| <= |rows|
  {
    forall i, j | 0 <= i < j < |walk| ensures walk[i] != walk[j] {
      if walk[i] == walk[j] { RepeatLeadsBack(rows, walk, i, j); }
    }
    forall i | 0 <= i < |walk| ensures walk[i] in rows {
      MetKeys(rows, walk, i);
    }
    DistinctSubset(walk, rows);
    assert |multiset(walk)| <= |multiset(rows)| by { SubsetSize(multiset(walk), multiset(rows)); }
  }

  lemma SubsetSize<T>(a: multiset<T>, b: multiset<T>)
    requires a <= b
    ensures |a| <= |b|
  {
    assert b == a + (b - a);
  }

  /** From the end of a walk the links either leave the dictionary or go on for ever. */
  lemma {:induction false} WalkOn(rows: seq<Row>, walk: seq<Row>) returns (k: nat)
    requires Met(ByPrev(rows), walk) && !HasCycle(rows) && |walk| <= |rows|
    ensures |walk| + k <= |rows| && StopsIn(ByPrev(rows), Tip(walk), k)
    decreases |rows| - |walk|
  {
    var m := ByPrev(rows);
    if Tip(walk) !in m {
      k := 0;
    } else {
      var more := walk + [m[Tip(walk)]];
      forall i | 0 <= i < |more| ensures WalkStep(m, more, i) {
        if i < |walk| { assert WalkStep(m, walk, i); }
      }
      AcyclicIsShort(rows, more);
      k := WalkOn(rows, more);
      k := k + 1;
    }
  }

  /** The walk ends exactly when it ends within as many links as there are rows, and exactly
      when it meets no row whose stored digest is the previous hash of a row met no later.
      Rows it never meets do not matter. */
  lemma WalkEndsIff(rows: seq<Row>)
    ensures WalkEnds(rows) <==> !HasCycle(rows)
    ensures WalkEnds(rows) <==> EndsWithin(rows, |rows|)
  {
    var m := ByPrev(rows);
    if !HasCycle(rows) {
      var k := WalkOn(rows, []);
      assert Tip([]) == Genesis;
      assert EndsWithin(rows, |rows|) && WalkEnds(rows);
    } else {
      var walk :| Met(m, walk) && LinksBack(walk);
      forall k: nat ensures !StopsIn(m, Genesis, k) {
        CycleNeverStops(rows, walk, k);
      }
    }
  }

  lemma {:induction false} CycleNeverStops(rows: seq<Row>, walk: seq<Row>, k: nat)
    requires Met(ByPrev(rows), walk) && LinksBack(walk)
    ensures !StopsIn(ByPrev(rows), Genesis, k)
  {
    var m := ByPrev(rows);
    var i :| 0 <= i < |walk| && Norm(walk[i].prevHash) == walk[|walk| - 1].hash;
    MetPrefix(m, walk, i);
    MetKeys(rows, walk, i);
    assert Tip(walk[..i]) == Norm(walk[i].prevHash);
    if StopsIn(m, Genesis, k) {
      StopsAfter(m, walk, k);
      StopsAfter(m, walk[..i], k);
      StopsOnce(m, Tip(walk), k - |walk|, k - i);
    }
  }

  /** One row whose stored digest is the empty string is its own successor. */
  lemma TamperedRowsMayLoop(p: Payload)
    ensures !WalkEnds([Row(None, p, Genesis)])
  {
    var rows := [Row(None, p, Genesis)];
    assert rows[..0] == [];
    assert ByPrev(rows) == map[Genesis := rows[0]];
    assert WalkStep(ByPrev(rows), rows, 0);
    assert Norm(rows[0].prevHash) == rows[0].hash;
    assert Met(ByPrev(rows), rows) && LinksBack(rows);
    WalkEndsIff(rows);
  }

  /** Nor does it take an empty digest: a digest copied from one row to the next will do. */
  lemma CopiedDigestLoops(p: Payload, q: Payload, h: Digest)
    requires h != Genesis
    ensures !WalkEnds([Row(None, p, h), Row(Some(h), q, h)])
  {
    var rows := [Row(None, p, h), Row(Some(h), q, h)];
    assert rows[..1] == [rows[0]] && rows[..1][..0] == [];
    assert ByPrev(rows[..1]) == map[Genesis := rows[0]];
    assert ByPrev(rows) == map[Genesis := rows[0]][h := rows[1]];
    assert WalkStep(ByPrev(rows), rows, 0) && WalkStep(ByPrev(rows), rows, 1);
    assert Norm(rows[1].prevHash) == rows[1].hash;
    assert Met(ByPrev(rows), rows) && LinksBack(rows);
    WalkEndsIff(rows);
  }

  lemma {:induction false} WalkIsChain(rows: seq<Row>, chain: seq<Row>, walk: seq<Row>)
    requires StoresChain(rows, chain) && IsWalk(ByPrev(rows), walk)
    ensures walk == chain
  {
    WalkFollowsChain(rows, chain, walk, |walk|);
    assert walk[..|walk|] == walk;
    if |walk| < |chain| {
      ChainContinues(rows, chain, |walk|);
    }
  }

  lemma {:induction false} ChainContinues(rows: seq<Row>, chain: seq<Row>, k: nat)
    requires StoresChain(rows, chain) && k < |chain|
    ensures Tip(chain[..k]) in ByPrev(rows)
  {
    ByPrevRows(rows);
    SameMembers(rows, chain);
    assert LinkedAt(chain, k);
    assert chain[k] in rows;
  }

  lemma {:induction false} WalkFollowsChain(rows: seq<Row>, chain: seq<Row>, walk: seq<Row>, k: nat)
    requires StoresChain(rows, chain) && IsWalk(ByPrev(rows), walk) && k <= |walk|
    ensures k <= |chain| && walk[..k] == chain[..k]
  {
    if k > 0 {
      WalkFollowsChain(rows, chain, walk, k - 1);
      ByPrevRows(rows);
      SameMembers(rows, chain);
      assert WalkStep(ByPrev(rows), walk, k - 1);
      var cursor := if k == 1 then Genesis else walk[k - 2].hash;
      assert k > 1 ==> walk[..k - 1][k - 2] == chain[..k - 1][k - 2];
      if k > 1 { DepthAt(chain, k - 2); }
      assert walk[k - 1] in chain;
      var j :| 0 <= j < |chain| && chain[j] == walk[k - 1];
      DepthAt(chain, j);
      assert j == k - 1;
      assert walk[..k] == walk[..k - 1] + [walk[k - 1]];
      assert chain[..k] == chain[..k - 1] + [chain[k - 1]];
    }
  }

  // -- the store -----------------------------------------------------------------

  /** The append-only table of audit events, with every entity's rows in it. */
  class AuditLog {
    var rows: seq<Row>

    constructor ()
      ensures rows == [] && Valid()
    {
      rows := [];
    }

    ghost function Trail(e: Entity): seq<Row>
      reads this
    {
      Filter(rows, (x: Row) => x.payload.entity == e)
    }

    /** Every entity's events form a verified chain in append order. */
    ghost predicate Valid()
      reads this
    {
      forall e :: Verified(Trail(e))
    }

    /** The select behind `tip_hash` and `chain`: the entity's rows. */
    method EventsOf(e: Entity) returns (events: seq<Row>)
      ensures events == Trail(e)
    {
      events := [];
      for i := 0 to |rows|
        invariant events == Filter(rows[..i], (x: Row) => x.payload.entity == e)
      {
        assert rows[..i + 1] == rows[..i] + [rows[i]];
        FilterAppend(rows[..i], [rows[i]], (x: Row) => x.payload.entity == e);
        if rows[i].payload.entity == e {
          events := events + [rows[i]];
        }
      }
      assert rows[..|rows|] == rows;
    }

    method TipHash(e: Entity) returns (tip: Option<Digest>)
      requires Valid()
      ensures tip == if Trail(e) == [] then None else Some(Tip(Trail(e)))
    {
      var events := EventsOf(e);
      tip := None;
      for i := 0 to |events|
        invariant tip.None? ==> forall j :: 0 <= j < i ==> HasSuccessor(events, events[j].hash)
        invariant tip.Some? ==> IsTipAnswer(events, tip)
      {
        if tip.None? && !HasSuccessor(events, events[i].hash) {
          tip := Some(events[i].hash);
        }
      }
      TipIsUnique(events, Trail(e), tip);
    }

    /** Append at the tip, or after the digest the caller already holds. The caller's
        digest keeps the trail verified exactly when it is the tip. */
    method RecordEvent(payload: Payload, prev: Option<Digest>) returns (row: Row)
      requires Valid()
      modifies this
      ensures rows == old(rows) + [row] && row.payload == payload
      ensures row.prevHash ==
        if prev.Some? || old(Trail(payload.entity)) == [] then prev else Some(old(Tip(Trail(payload.entity))))
      ensures row.hash == ChainHash(row.prevHash, payload)
      ensures Trail(payload.entity) == old(Trail(payload.entity)) + [row]
      ensures forall e :: e != payload.entity ==> Trail(e) == old(Trail(e))
      ensures Valid() <==> prev.None? || Norm(prev) == old(Tip(Trail(payload.entity)))
    {
      var prevHash := prev;
      if prevHash == None {
        prevHash := TipHash(payload.entity);
      }
      row := Row(prevHash, payload, ChainHash(prevHash, payload));
      rows := rows + [row];
      forall e ensures Trail(e) == old(Trail(e)) + (if e == payload.entity then [row] else []) {
        FilterAppend(old(rows), [row], (x: Row) => x.payload.entity == e);
        assert old(Trail(e)) + [] == old(Trail(e));
      }
      AppendVerified(old(Trail(payload.entity)), row);
      forall e | e != payload.entity ensures Verified(Trail(e)) {
        assert Trail(e) == old(Trail(e));
        assert old(Verified(Trail(e)));
      }
    }

    /** The chain of an entity is rebuilt in append order from any permutation. */
    method ChainOf(e: Entity, shuffled: seq<Row>) returns (events: seq<Row>)
      requires Valid() && multiset(shuffled) == multiset(Trail(e))
      ensures events == Trail(e)
    {
      SameMembers(shuffled, Trail(e));
      forall x | x in shuffled ensures x.hash == ChainHash(x.prevHash, x.payload) {
        assert x in Trail(e);
        var i :| 0 <= i < |Trail(e)| && Trail(e)[i] == x;
        assert LinkedAt(Trail(e), i);
      }
      RecomputingRowsEnd(shuffled);
      events := Chain(shuffled);
      assert StoresChain(shuffled, Trail(e));
    }
  }
}
