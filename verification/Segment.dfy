/** Overlapping batch segmentation of a PDF's pages (src/eclaim/ocr/segment.py).

    The pages 0 .. n-1 are cut into batches that overlap by one page, each batch is
    partitioned on its own, and the batch answers are stitched into one partition. */
module Segment {
  import opened Prelude

  /** An inclusive page range. */
  datatype Range = Range(start: int, end: int)

  /** Range `r` judges the boundary between pages p and p+1. */
  predicate Owns(r: Range, p: int) {
    r.start <= p < r.end
  }

  // -- partitions -------------------------------------------------------------

  /** Non-empty groups that list the pages lo .. hi-1 once each, in order. */
  predicate IsPartition(groups: seq<seq<int>>, lo: int, hi: int) {
    && (forall k :: 0 <= k < |groups| ==> groups[k] != [])
    && Flatten(groups) == Interval(lo, hi)
  }

  /** Pages p and p+1 are kept in one group. */
  predicate Joined(groups: seq<seq<int>>, p: int) {
    exists k :: 0 <= k < |groups| && p in groups[k] && p + 1 in groups[k]
  }

  /** The check a batch answer must pass before it is used. */
  method IsOrderedPartition(groups: seq<seq<int>>, n: int) returns (ok: bool)
    ensures ok <==> groups != [] && IsPartition(groups, 0, n)
  {
    if groups == [] {
      return false;
    }
    var flat: seq<int> := [];
    for i := 0 to |groups|
      invariant flat == Flatten(groups[..i])
      invariant forall k :: 0 <= k < i ==> groups[k] != []
    {
      if groups[i] == [] {
        return false;
      }
      FlattenAppend(groups[..i], groups[i]);
      assert groups[..i] + [groups[i]] == groups[..i + 1];
      flat := flat + groups[i];
    }
    assert groups[..|groups|] == groups;
    ok := flat == Interval(0, n);
  }

  lemma {:induction false} FlattenMember(groups: seq<seq<int>>, k: int, p: int)
    requires 0 <= k < |groups| && p in groups[k]
    ensures p in Flatten(groups)
  {
    if k > 0 {
      FlattenMember(groups[1..], k - 1, p);
    }
  }

  lemma IntervalParts(head: seq<int>, rest: seq<int>, lo: int, hi: int)
    requires head != [] && head + rest == Interval(lo, hi)
    ensures |head| <= hi - lo && head == Interval(lo, lo + |head|) && rest == Interval(lo + |head|, hi)
  {
    var whole := head + rest;
    assert |whole| == |head| + |rest|;
    forall i | 0 <= i < |head| ensures head[i] == lo + i { assert whole[i] == head[i]; }
    forall i | 0 <= i < |rest| ensures rest[i] == lo + |head| + i { assert whole[|head| + i] == rest[i]; }
  }

  /** The first group of a partition is an initial segment of the pages. */
  lemma FirstGroup(groups: seq<seq<int>>, lo: int, hi: int)
    requires IsPartition(groups, lo, hi) && groups != []
    ensures 0 < |groups[0]| <= hi - lo
    ensures groups[0] == Interval(lo, lo + |groups[0]|)
    ensures IsPartition(groups[1..], lo + |groups[0]|, hi)
  {
    assert groups[0] != [];
    IntervalParts(groups[0], Flatten(groups[1..]), lo, hi);
  }

  lemma PartitionOfNothing(groups: seq<seq<int>>, lo: int)
    requires IsPartition(groups, lo, lo)
    ensures groups == []
  {
    if groups != [] {
      FirstGroup(groups, lo, lo);
      assert false;
    }
  }

  /** "Every page exactly once": each page of a partition lies in one group only. */
  lemma {:induction false} OneGroupPerPage(groups: seq<seq<int>>, lo: int, hi: int, p: int)
    requires IsPartition(groups, lo, hi)
    ensures lo <= p < hi <==> exists k :: 0 <= k < |groups| && p in groups[k]
    ensures forall i, j :: 0 <= i < |groups| && 0 <= j < |groups| && p in groups[i] && p in groups[j] ==> i == j
    decreases |groups|
  {
    if groups != [] {
      FirstGroup(groups, lo, hi);
      var m := lo + |groups[0]|;
      OneGroupPerPage(groups[1..], m, hi, p);
      assert p in groups[0] <==> lo <= p < m by {
        if lo <= p < m {
          assert groups[0][p - lo] == p;
        }
      }
      if m <= p < hi {
        var k :| 0 <= k < |groups[1..]| && p in groups[1..][k];
        assert p in groups[k + 1];
      }
      forall i, j | 0 <= i < |groups| && 0 <= j < |groups| && p in groups[i] && p in groups[j]
        ensures i == j
      {
        if i > 0 { assert p in groups[1..][i - 1]; }
        if j > 0 { assert p in groups[1..][j - 1]; }
      }
    }
  }

  lemma AdjacencyOfTail(groups: seq<seq<int>>, lo: int, hi: int, p: int)
    requires IsPartition(groups, lo, hi) && groups != []
    requires lo + |groups[0]| <= p < hi - 1
    ensures Joined(groups[1..], p) <==> Joined(groups, p)
  {
    FirstGroup(groups, lo, hi);
    if Joined(groups, p) {
      var k :| 0 <= k < |groups| && p in groups[k] && p + 1 in groups[k];
      assert k > 0;
      assert groups[1..][k - 1] == groups[k];
    }
    if Joined(groups[1..], p) {
      var k :| 0 <= k < |groups[1..]| && p in groups[1..][k] && p + 1 in groups[1..][k];
      assert groups[k + 1] == groups[1..][k];
    }
  }

  lemma EdgeOfFirstGroup(groups: seq<seq<int>>, lo: int, hi: int, p: int)
    requires IsPartition(groups, lo, hi) && groups != []
    requires lo <= p < lo + |groups[0]| && p < hi - 1
    ensures Joined(groups, p) <==> p + 1 < lo + |groups[0]|
  {
    FirstGroup(groups, lo, hi);
    OneGroupPerPage(groups, lo, hi, p);
    assert groups[0][p - lo] == p;
    if p + 1 < lo + |groups[0]| {
      assert groups[0][p + 1 - lo] == p + 1;
    }
  }

  /** Neither first group can be the shorter one: its last page would be cut off its neighbour
      in one partition only. */
  lemma FirstGroupsNest(g: seq<seq<int>>, h: seq<seq<int>>, lo: int, hi: int)
    requires g != [] && h != [] && IsPartition(g, lo, hi) && IsPartition(h, lo, hi)
    requires forall p :: lo <= p < hi - 1 ==> (Joined(g, p) <==> Joined(h, p))
    ensures |h[0]| <= |g[0]|
  {
    FirstGroup(g, lo, hi);
    FirstGroup(h, lo, hi);
    var last := lo + |g[0]| - 1;
    if |g[0]| < |h[0]| {
      EdgeOfFirstGroup(g, lo, hi, last);
      EdgeOfFirstGroup(h, lo, hi, last);
    }
  }

  /** A partition is determined by which neighbouring pages it keeps together. */
  lemma {:induction false} PartitionUnique(g: seq<seq<int>>, h: seq<seq<int>>, lo: int, hi: int)
    requires lo <= hi && IsPartition(g, lo, hi) && IsPartition(h, lo, hi)
    requires forall p :: lo <= p < hi - 1 ==> (Joined(g, p) <==> Joined(h, p))
    ensures g == h
    decreases |g|
  {
    if lo == hi {
      PartitionOfNothing(g, lo);
      PartitionOfNothing(h, lo);
    } else {
      assert Flatten(g) != [] && Flatten(h) != [];
      FirstGroup(g, lo, hi);
      FirstGroup(h, lo, hi);
      FirstGroupsNest(g, h, lo, hi);
      FirstGroupsNest(h, g, lo, hi);
      var a := lo + |g[0]|;
      forall p | a <= p < hi - 1
        ensures Joined(g[1..], p) <==> Joined(h[1..], p)
      {
        AdjacencyOfTail(g, lo, hi, p);
        AdjacencyOfTail(h, lo, hi, p);
      }
      PartitionUnique(g[1..], h[1..], a, hi);
      assert g == [g[0]] + g[1..] && h == [h[0]] + h[1..];
    }
  }

  // -- planning the batches ---------------------------------------------------

  /** Ranges that run from page 0 to page n-1, each starting on the last page of
      the one before it. */
  predicate IsChain(ranges: seq<Range>, n: int) {
    && ranges != []
    && ranges[0].start == 0
    && ranges[|ranges| - 1].end == n - 1
    && (forall k :: 0 < k < |ranges| ==> ranges[k].start == ranges[k - 1].end)
    && (forall k :: 0 <= k < |ranges| ==> ranges[k].start <= ranges[k].end)
    && (n > 1 ==> forall k :: 0 <= k < |ranges| ==> ranges[k].start < ranges[k].end)
  }

  predicate OwnedOnce(ranges: seq<Range>, p: int) {
    exists k :: 0 <= k < |ranges| && Owns(ranges[k], p)
      && forall j :: 0 <= j < |ranges| && Owns(ranges[j], p) ==> j == k
  }

  lemma {:induction false} ChainMonotone(ranges: seq<Range>, n: int, i: int, j: int)
    requires IsChain(ranges, n) && 0 <= i < j < |ranges|
    ensures ranges[i].end <= ranges[j].start
    decreases j
  {
    if i < j - 1 {
      ChainMonotone(ranges, n, i, j - 1);
    }
  }

  lemma {:induction false} SomeOwner(ranges: seq<Range>, n: int, p: int, m: int) returns (k: int)
    requires IsChain(ranges, n) && 0 <= m < |ranges| && 0 <= p < ranges[m].end
    ensures 0 <= k <= m && Owns(ranges[k], p)
  {
    if ranges[m].start <= p {
      k := m;
    } else {
      k := SomeOwner(ranges, n, p, m - 1);
    }
  }

  lemma OtherRange(ranges: seq<Range>, n: int, p: int, i: int, j: int)
    requires IsChain(ranges, n) && 0 <= i < |ranges| && 0 <= j < |ranges| && i != j && Owns(ranges[i], p)
    ensures !Owns(ranges[j], p)
  {
    ChainMonotone(ranges, n, if i < j then i else j, if i < j then j else i);
  }

  lemma ChainOwnsOnce(ranges: seq<Range>, n: int, p: int)
    requires IsChain(ranges, n) && 0 <= p < n - 1
    ensures OwnedOnce(ranges, p)
  {
    var k := SomeOwner(ranges, n, p, |ranges| - 1);
    forall j | 0 <= j < |ranges| && j != k
      ensures !Owns(ranges[j], p)
    {
      OtherRange(ranges, n, p, k, j);
    }
  }

  function Min(a: int, b: int): int {
    if a < b then a else b
  }

  /** The first page of the batch that the loop of `_plan_batches` makes in its
      (k+1)-th round, as long as no earlier round has reached the last page. */
  function RoundStart(n: int, maxPerBatch: int, k: nat): int {
    if k == 0 then 0 else Min(RoundStart(n, maxPerBatch, k - 1) + maxPerBatch - 1, n - 1)
  }

  /** Every round is entered and none of them reaches the exit. */
  ghost predicate PlanningDiverges(n: int, maxPerBatch: int) {
    && 0 < n && maxPerBatch < n
    && forall k: nat :: RoundStart(n, maxPerBatch, k) < n
                     && Min(RoundStart(n, maxPerBatch, k) + maxPerBatch - 1, n - 1) != n - 1
  }

  lemma {:induction false} RoundsGrow(n: int, maxPerBatch: int, k: nat)
    requires 2 <= maxPerBatch && 0 < n
    ensures RoundStart(n, maxPerBatch, k) >= Min(k, n - 1)
  {
    if k > 0 {
      RoundsGrow(n, maxPerBatch, k - 1);
    }
  }

  lemma {:induction false} RoundsStuck(n: int, maxPerBatch: int, k: nat)
    requires maxPerBatch < 2 && 0 < n && maxPerBatch < n && 2 <= n
    ensures RoundStart(n, maxPerBatch, k) <= 0
  {
    if k > 0 {
      RoundsStuck(n, maxPerBatch, k - 1);
    }
  }

  /** `_plan_batches` runs for ever exactly when there is more than one batch to
      make and a batch holds fewer than two pages. */
  lemma PlanningDivergesIff(n: int, maxPerBatch: int)
    ensures PlanningDiverges(n, maxPerBatch) <==> 0 < n && maxPerBatch < n && maxPerBatch < 2
  {
    if 0 < n && maxPerBatch < n {
      if maxPerBatch < 2 {
        forall k: nat
          ensures RoundStart(n, maxPerBatch, k) < n
          ensures Min(RoundStart(n, maxPerBatch, k) + maxPerBatch - 1, n - 1) != n - 1
        {
          if n == 1 {
            RoundsStuckOnePage(maxPerBatch, k);
          } else {
            RoundsStuck(n, maxPerBatch, k);
          }
        }
      } else {
        RoundsGrow(n, maxPerBatch, n);
        assert RoundStart(n, maxPerBatch, n) >= n - 1;
      }
    }
  }

  lemma {:induction false} RoundsStuckOnePage(maxPerBatch: int, k: nat)
    requires maxPerBatch <= 0
    ensures RoundStart(1, maxPerBatch, k) <= 0
  {
    if k > 0 {
      RoundsStuckOnePage(maxPerBatch, k - 1);
    }
  }

  /** The batches made so far: they overlap by one page, from the first page to `start`. */
  predicate PlannedTo(ranges: seq<Range>, n: int, maxPerBatch: int, start: int) {
    && (ranges == [] ==> start == 0)
    && (ranges != [] ==> ranges[0].start == 0 && ranges[|ranges| - 1].end == start)
    && (forall k :: 0 < k < |ranges| ==> ranges[k].start == ranges[k - 1].end)
    && (forall k :: 0 <= k < |ranges| ==> IsBatch(ranges[k], n, maxPerBatch))
  }

  predicate IsBatch(r: Range, n: int, maxPerBatch: int) {
    0 <= r.start < r.end < n && r.end - r.start + 1 <= maxPerBatch
  }

  lemma PlanNext(ranges: seq<Range>, n: int, maxPerBatch: int, start: int, end: int)
    requires PlannedTo(ranges, n, maxPerBatch, start) && IsBatch(Range(start, end), n, maxPerBatch)
    ensures PlannedTo(ranges + [Range(start, end)], n, maxPerBatch, end)
  {
  }

  lemma PlannedAll(ranges: seq<Range>, n: int, maxPerBatch: int)
    requires PlannedTo(ranges, n, maxPerBatch, n - 1) && ranges != []
    ensures IsChain(ranges, n)
    ensures forall r :: r in ranges ==> 0 <= r.start <= r.end < n && r.end - r.start + 1 <= maxPerBatch
  {
    forall r | r in ranges ensures IsBatch(r, n, maxPerBatch) {
      var k :| 0 <= k < |ranges| && ranges[k] == r;
    }
  }

  method PlanBatches(n: int, maxPerBatch: int) returns (ranges: seq<Range>)
    requires !PlanningDiverges(n, maxPerBatch)
    ensures n <= 0 ==> ranges == []
    ensures n > 0 ==> IsChain(ranges, n)
    ensures forall r :: r in ranges ==> 0 <= r.start <= r.end < n && r.end - r.start + 1 <= maxPerBatch
    ensures forall p :: 0 <= p < n - 1 ==> OwnedOnce(ranges, p)
  {
    PlanningDivergesIff(n, maxPerBatch);
    if n <= 0 {
      return [];
    }
    if n <= maxPerBatch {
      ranges := [Range(0, n - 1)];
    } else {
      ranges := [];
      var start := 0;
      while start < n
        invariant 0 <= start < n - 1 && PlannedTo(ranges, n, maxPerBatch, start)
        decreases n - start
      {
        var end := Min(start + maxPerBatch - 1, n - 1);
        PlanNext(ranges, n, maxPerBatch, start, end);
        ranges := ranges + [Range(start, end)];
        if end == n - 1 {
          PlannedAll(ranges, n, maxPerBatch);
          break;
        }
        start := end;
      }
    }
    forall p | 0 <= p < n - 1
      ensures OwnedOnce(ranges, p)
    {
      ChainOwnsOnce(ranges, n, p);
    }
  }

  // -- stitching the batch answers --------------------------------------------

  type Answer = Option<seq<seq<int>>>

  /** The group the page dictionary of `_merge_partitions` ends up with for page p:
      the last group that mentions it. */
  function GroupIndex(part: seq<seq<int>>, p: int): Option<nat> {
    if part == [] then None
    else if p in part[|part| - 1] then Some(|part| - 1)
    else GroupIndex(part[..|part| - 1], p)
  }

  /** The verdict on the boundary after page p once the first k batches are read. */
  function Cut(ranges: seq<Range>, answers: seq<Answer>, p: int, k: nat): bool
    requires k <= |ranges| && k <= |answers|
  {
    if k == 0 then true
    else if answers[k - 1].Some? && Owns(ranges[k - 1], p)
         && GroupIndex(answers[k - 1].value, p).Some?
         && GroupIndex(answers[k - 1].value, p + 1).Some? then
      GroupIndex(answers[k - 1].value, p) != GroupIndex(answers[k - 1].value, p + 1)
    else Cut(ranges, answers, p, k - 1)
  }

  method PageGroups(part: seq<seq<int>>) returns (pageGroup: map<int, nat>)
    ensures forall p :: p in pageGroup <==> GroupIndex(part, p).Some?
    ensures forall p :: p in pageGroup ==> GroupIndex(part, p) == Some(pageGroup[p])
  {
    pageGroup := map[];
    for gi := 0 to |part|
      invariant forall p :: p in pageGroup <==> GroupIndex(part[..gi], p).Some?
      invariant forall p :: p in pageGroup ==> GroupIndex(part[..gi], p) == Some(pageGroup[p])
    {
      ghost var before := pageGroup;
      for j := 0 to |part[gi]|
        invariant forall p :: p in pageGroup <==> p in before || p in part[gi][..j]
        invariant forall p :: p in pageGroup ==> pageGroup[p] == if p in part[gi][..j] then gi else before[p]
      {
        pageGroup := pageGroup[part[gi][j] := gi];
      }
      assert part[gi][..|part[gi]|] == part[gi];
      assert part[..gi + 1][..gi] == part[..gi];
    }
    assert part[..|part|] == part;
  }

  function ZipLength(ranges: seq<Range>, answers: seq<Answer>): nat {
    if |ranges| < |answers| then |ranges| else |answers|
  }

  method MergePartitions(n: int, ranges: seq<Range>, answers: seq<Answer>) returns (groups: seq<seq<int>>)
    requires forall k :: 0 <= k < |ranges| ==> 0 <= ranges[k].start && ranges[k].end < n
    ensures n <= 0 ==> groups == []
    ensures IsPartition(groups, 0, n)
    ensures forall p :: 0 <= p < n - 1 ==>
      (Joined(groups, p) <==> !Cut(ranges, answers, p, ZipLength(ranges, answers)))
  {
    if n <= 0 {
      return [];
    }
    var cut := seq(n - 1, _ => true);
    for k := 0 to ZipLength(ranges, answers)
      invariant |cut| == n - 1
      invariant forall p :: 0 <= p < n - 1 ==> cut[p] == Cut(ranges, answers, p, k)
    {
      if answers[k].Some? {
        var pageGroup := PageGroups(answers[k].value);
        for p := ranges[k].start to Max(ranges[k].start, ranges[k].end)
          invariant |cut| == n - 1
          invariant forall q :: 0 <= q < n - 1 ==>
            cut[q] == if ranges[k].start <= q < p then Cut(ranges, answers, q, k + 1) else Cut(ranges, answers, q, k)
        {
          if p in pageGroup && p + 1 in pageGroup {
            cut := cut[p := pageGroup[p] != pageGroup[p + 1]];
          }
        }
      }
    }
    groups := GroupsFromCuts(n, cut);
  }

  function Max(a: int, b: int): int {
    if a < b then b else a
  }

  /** The last loop of `_merge_partitions`: walk the cuts and grow the groups. */
  method GroupsFromCuts(n: int, cut: seq<bool>) returns (groups: seq<seq<int>>)
    requires n > 0 && |cut| == n - 1
    ensures IsPartition(groups, 0, n)
    ensures forall p :: 0 <= p < n - 1 ==> (Joined(groups, p) <==> !cut[p])
  {
    groups := [];
    var cur := [0];
    for p := 0 to n - 1
      invariant cur != [] && cur[|cur| - 1] == p
      invariant forall k :: 0 <= k < |groups| ==> groups[k] != []
      invariant Flatten(groups) + cur == Interval(0, p + 1)
      invariant forall q :: 0 <= q < p ==> (Joined(groups + [cur], q) <==> !cut[q])
    {
      ghost var prior := groups + [cur];
      FlattenAppend(groups, cur);
      assert IsPartition(prior, 0, p + 1);
      if cut[p] {
        groups := groups + [cur];
        cur := [p + 1];
        assert Flatten(groups) + cur == Interval(0, p + 2);
        StartGroup(prior, p, cut);
      } else {
        cur := cur + [p + 1];
        assert Flatten(groups) + cur == Interval(0, p + 2) by {
          assert Flatten(groups) + cur == Flatten(prior) + [p + 1];
        }
        ExtendGroup(groups, cur[..|cur| - 1], p, cut);
        assert cur[..|cur| - 1] + [p + 1] == cur;
      }
    }
    FlattenAppend(groups, cur);
    groups := groups + [cur];
  }

  lemma StartGroup(groups: seq<seq<int>>, p: int, cut: seq<bool>)
    requires 0 <= p < |cut| && IsPartition(groups, 0, p + 1) && cut[p]
    requires forall q :: 0 <= q < p ==> (Joined(groups, q) <==> !cut[q])
    ensures forall q :: 0 <= q < p + 1 ==> (Joined(groups + [[p + 1]], q) <==> !cut[q])
  {
    var after := groups + [[p + 1]];
    forall q | 0 <= q < p + 1
      ensures Joined(after, q) <==> !cut[q]
    {
      OneGroupPerPage(groups, 0, p + 1, q);
      OneGroupPerPage(groups, 0, p + 1, p + 1);
      if q < p && Joined(groups, q) {
        var k :| 0 <= k < |groups| && q in groups[k] && q + 1 in groups[k];
        assert after[k] == groups[k];
      }
      if Joined(after, q) {
        var k :| 0 <= k < |after| && q in after[k] && q + 1 in after[k];
        assert k < |groups| && groups[k] == after[k];
      }
    }
  }

  lemma ExtendGroup(groups: seq<seq<int>>, cur: seq<int>, p: int, cut: seq<bool>)
    requires 0 <= p < |cut| && IsPartition(groups + [cur], 0, p + 1) && !cut[p]
    requires p in cur
    requires forall q :: 0 <= q < p ==> (Joined(groups + [cur], q) <==> !cut[q])
    ensures forall q :: 0 <= q < p + 1 ==> (Joined(groups + [cur + [p + 1]], q) <==> !cut[q])
  {
    var before, after := groups + [cur], groups + [cur + [p + 1]];
    forall q | 0 <= q < p + 1
      ensures Joined(after, q) <==> !cut[q]
    {
      if q == p {
        assert p in after[|groups|] && p + 1 in after[|groups|];
      } else {
        if Joined(before, q) {
          var k :| 0 <= k < |before| && q in before[k] && q + 1 in before[k];
          assert q in after[k] && q + 1 in after[k];
        }
        if Joined(after, q) {
          var k :| 0 <= k < |after| && q in after[k] && q + 1 in after[k];
          assert q in before[k] && q + 1 in before[k];
        }
      }
    }
  }

  // -- the merge agrees with one global segmentation ---------------------------

  /** `part` answers for the pages of `r` what the whole-document segmentation
      `whole` says about them. */
  ghost predicate IsRestriction(part: seq<seq<int>>, whole: seq<seq<int>>, r: Range) {
    && IsPartition(part, r.start, r.end + 1)
    && forall p :: Owns(r, p) ==> (Joined(part, p) <==> Joined(whole, p))
  }

  lemma {:induction false} GroupIndexFinds(part: seq<seq<int>>, p: int)
    ensures GroupIndex(part, p).Some? ==>
      GroupIndex(part, p).value < |part| && p in part[GroupIndex(part, p).value]
    ensures GroupIndex(part, p).None? ==> forall k :: 0 <= k < |part| ==> p !in part[k]
  {
    if part != [] && p !in part[|part| - 1] {
      GroupIndexFinds(part[..|part| - 1], p);
    }
  }

  lemma GroupIndexIsGroup(part: seq<seq<int>>, r: Range, p: int)
    requires IsPartition(part, r.start, r.end + 1) && Owns(r, p)
    ensures GroupIndex(part, p).Some? && GroupIndex(part, p + 1).Some?
    ensures GroupIndex(part, p) == GroupIndex(part, p + 1) <==> Joined(part, p)
  {
    OneGroupPerPage(part, r.start, r.end + 1, p);
    OneGroupPerPage(part, r.start, r.end + 1, p + 1);
    GroupIndexFinds(part, p);
    GroupIndexFinds(part, p + 1);
  }

  /** A batch that does not own the boundary leaves its verdict alone. */
  lemma {:induction false} CutUntouched(ranges: seq<Range>, answers: seq<Answer>, p: int, from: nat, k: nat)
    requires from <= k <= |ranges| && k <= |answers|
    requires forall j :: from <= j < k ==> !Owns(ranges[j], p)
    ensures Cut(ranges, answers, p, k) == Cut(ranges, answers, p, from)
    decreases k
  {
    if from < k {
      CutUntouched(ranges, answers, p, from, k - 1);
    }
  }

  /** When every batch either fails or answers as `whole` does, a boundary is cut iff
      `whole` cuts it or the one batch that owns it failed: a failed batch adds cuts
      inside its own range and nowhere else. */
  lemma {:induction false} MergedCut(n: int, ranges: seq<Range>, answers: seq<Answer>, whole: seq<seq<int>>, owner: int,
                                     p: int)
    requires IsChain(ranges, n) && |answers| == |ranges|
    requires forall k :: 0 <= k < |ranges| && answers[k].Some? ==> IsRestriction(answers[k].value, whole, ranges[k])
    requires 0 <= owner < |ranges| && Owns(ranges[owner], p)
    ensures Cut(ranges, answers, p, |ranges|) <==> !Joined(whole, p) || answers[owner].None?
  {
    forall j | 0 <= j < |ranges| && j != owner
      ensures !Owns(ranges[j], p)
    {
      OtherRange(ranges, n, p, owner, j);
    }
    CutUntouched(ranges, answers, p, owner + 1, |ranges|);
    CutUntouched(ranges, answers, p, 0, owner);
    if answers[owner].Some? {
      GroupIndexIsGroup(answers[owner].value, ranges[owner], p);
    }
  }

  /** If no batch fails and every batch answers as one global partition does, the
      merge gives that partition back. `merged` stands for the result of
      `MergePartitions`, of which only its contract is used. */
  lemma {:induction false} MergeRecoversGlobal(n: int, ranges: seq<Range>, answers: seq<Answer>,
                            whole: seq<seq<int>>, merged: seq<seq<int>>)
    requires n > 0 && IsChain(ranges, n) && |answers| == |ranges|
    requires IsPartition(whole, 0, n)
    requires forall k :: 0 <= k < |ranges| ==> answers[k].Some? && IsRestriction(answers[k].value, whole, ranges[k])
    requires IsPartition(merged, 0, n)
    requires forall p :: 0 <= p < n - 1 ==>
      (Joined(merged, p) <==> !Cut(ranges, answers, p, ZipLength(ranges, answers)))
    ensures merged == whole
  {
    forall p | 0 <= p < n - 1
      ensures Joined(merged, p) <==> Joined(whole, p)
    {
      var owner := SomeOwner(ranges, n, p, |ranges| - 1);
      MergedCut(n, ranges, answers, whole, owner, p);
    }
    PartitionUnique(merged, whole, 0, n);
  }

  function Shift(groups: seq<seq<int>>, offset: int): seq<seq<int>> {
    Map(groups, (g: seq<int>) => Map(g, p => p + offset))
  }

  /** What one batch of m pages contributes: the raw model reply, if it is a clean
      partition of the batch. `None` stands for a transport or parse failure. */
  method SegmentBatch(reply: Answer, m: int) returns (local: Answer)
    ensures m > 0 && local.Some? ==> IsPartition(local.value, 0, m)
    ensures m == 1 ==> local == Some([[0]])
    ensures m > 1 && reply.Some? && reply.value != [] && IsPartition(reply.value, 0, m) ==> local == reply
    ensures m > 1 && local.Some? ==> local == reply
  {
    if m <= 1 {
      assert Flatten([[0]]) == [0];
      return if m == 1 then Some([[0]]) else Some([]);
    }
    if reply.Some? {
      var ok := IsOrderedPartition(reply.value, m);
      if ok {
        return reply;
      }
    }
    local := None;
  }

  /** A usable batch reply agrees with the document segmentation `whole`. */
  ghost predicate Faithful(reply: Range -> Answer, whole: seq<seq<int>>) {
    forall r: Range :: r.start <= r.end && reply(r).Some? && IsPartition(reply(r).value, 0, r.end - r.start + 1)
      ==> IsRestriction(Shift(reply(r).value, r.start), whole, r)
  }

  /** The reply is one that `segment` uses. */
  predicate Usable(reply: Range -> Answer, r: Range) {
    reply(r).Some? && reply(r).value != [] && IsPartition(reply(r).value, 0, r.end - r.start + 1)
  }

  /** What the loop of `segment` hands to the merge for one batch. */
  predicate Delivered(answer: Answer, reply: Range -> Answer, r: Range) {
    && answer.Some? == Usable(reply, r)
    && (answer.Some? ==> answer.value == Shift(reply(r).value, r.start))
  }

  /** `one_per_page`. */
  function OnePerPage(n: nat): (r: seq<seq<int>>)
    ensures |r| == n && forall i :: 0 <= i < n ==> r[i] == [i]
  {
    seq(n, i requires 0 <= i < n => [i])
  }

  lemma {:induction false} OnePerPageIsPartition(n: nat)
    ensures IsPartition(OnePerPage(n), 0, n) && forall p :: !Joined(OnePerPage(n), p)
  {
    if n > 0 {
      OnePerPageIsPartition(n - 1);
      assert OnePerPage(n) == OnePerPage(n - 1) + [[n - 1]];
      FlattenAppend(OnePerPage(n - 1), [n - 1]);
      assert Interval(0, n) == Interval(0, n - 1) + [n - 1];
    }
  }

  /** The whole segmentation call. Without a client, or with a page too large to decode, every
      page stands alone. Otherwise, whatever the model replies, the result is an ordered
      partition; where usable replies follow one document segmentation, the result cuts
      more than it only inside batches whose reply was unusable. */
  method SegmentPages(n: nat, maxPerBatch: int, client: bool, decodable: bool, reply: Range -> Answer,
                      ghost whole: seq<seq<int>>)
    returns (groups: seq<seq<int>>, ghost ranges: seq<Range>)
    requires 2 <= maxPerBatch
    ensures IsPartition(groups, 0, n)
    ensures !client || !decodable ==> groups == OnePerPage(n)
    ensures n > 1 && client && decodable ==> IsChain(ranges, n) && forall p :: 0 <= p < n - 1 ==> OwnedOnce(ranges, p)
    ensures n > 1 && client && decodable && IsPartition(whole, 0, n) && Faithful(reply, whole) ==>
      FollowsWhole(n, groups, ranges, reply, whole)
  {
    ranges := [];
    OnePerPageIsPartition(n);
    if n <= 1 { return OnePerPage(n), []; }
    if !client { return OnePerPage(n), []; }
    if !decodable { return OnePerPage(n), []; }
    PlanningDivergesIff(n, maxPerBatch);
    var plan := PlanBatches(n, maxPerBatch);
    ranges := plan;
    var answers := Ask(plan, reply);
    groups := MergePartitions(n, plan, answers);
    if IsPartition(whole, 0, n) && Faithful(reply, whole) {
      MergedFollowsWhole(n, plan, answers, reply, whole, groups);
    }
  }

  /** The loop over the batches. */
  method Ask(plan: seq<Range>, reply: Range -> Answer) returns (answers: seq<Answer>)
    requires forall k :: 0 <= k < |plan| ==> plan[k].start < plan[k].end
    ensures |answers| == |plan|
    ensures forall j :: 0 <= j < |plan| ==> Delivered(answers[j], reply, plan[j])
  {
    answers := [];
    for k := 0 to |plan|
      invariant |answers| == k
      invariant forall j :: 0 <= j < k ==> Delivered(answers[j], reply, plan[j])
    {
      var start, end := plan[k].start, plan[k].end;
      var local := SegmentBatch(reply(plan[k]), end - start + 1);
      if local.Some? {
        answers := answers + [Some(Shift(local.value, start))];
      } else {
        answers := answers + [None];
      }
    }
  }

  ghost predicate FollowsWhole(n: int, groups: seq<seq<int>>, ranges: seq<Range>, reply: Range -> Answer,
                               whole: seq<seq<int>>) {
    && (forall p, k :: 0 <= p < n - 1 && 0 <= k < |ranges| && Owns(ranges[k], p) ==>
         (Joined(groups, p) <==> Joined(whole, p) && Usable(reply, ranges[k])))
    && ((forall k :: 0 <= k < |ranges| ==> Usable(reply, ranges[k])) ==> groups == whole)
  }

  lemma {:induction false} MergedFollowsWhole(n: int, plan: seq<Range>, answers: seq<Answer>, reply: Range -> Answer,
                           whole: seq<seq<int>>, groups: seq<seq<int>>)
    requires n > 1 && IsChain(plan, n) && |answers| == |plan|
    requires forall j :: 0 <= j < |plan| ==> Delivered(answers[j], reply, plan[j])
    requires IsPartition(whole, 0, n) && Faithful(reply, whole) && IsPartition(groups, 0, n)
    requires forall p :: 0 <= p < n - 1 ==> (Joined(groups, p) <==> !Cut(plan, answers, p, |plan|))
    ensures FollowsWhole(n, groups, plan, reply, whole)
  {
    forall k | 0 <= k < |plan| && answers[k].Some?
      ensures IsRestriction(answers[k].value, whole, plan[k])
    {
      assert Delivered(answers[k], reply, plan[k]);
    }
    forall p, k | 0 <= p < n - 1 && 0 <= k < |plan| && Owns(plan[k], p)
      ensures Joined(groups, p) <==> Joined(whole, p) && Usable(reply, plan[k])
    {
      assert Delivered(answers[k], reply, plan[k]);
      MergedCut(n, plan, answers, whole, k, p);
    }
    if forall k :: 0 <= k < |plan| ==> Usable(reply, plan[k]) {
      forall k | 0 <= k < |plan| ensures answers[k].Some? {
        assert Delivered(answers[k], reply, plan[k]);
      }
      MergeRecoversGlobal(n, plan, answers, whole, groups);
    }
  }
}
