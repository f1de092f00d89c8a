/** Merging and splitting lines keeps the evidence: which pages a claim holds, in which
    order, and the line numbers at every single write of a renumbering
    (src/eclaim/services/claims.py). */
module ClaimEvidence {
  import opened Prelude
  import opened ClaimModel
  import opened ClaimChanges

  // -- pages ----------------------------------------------------------------------------

  lemma {:induction false} PagesCons(l: Line, rest: seq<Line>)
    ensures PagesOf([l] + rest) == LinePages(l) + PagesOf(rest)
  {
    assert ([l] + rest)[1..] == rest;
  }

  lemma {:induction false} PagesConsAppend(l: Line, rest: seq<Line>, b: seq<Line>)
    requires PagesOf(rest + b) == PagesOf(rest) + PagesOf(b)
    ensures PagesOf(([l] + rest) + b) == PagesOf([l] + rest) + PagesOf(b)
  {
    assert ([l] + rest) + b == [l] + (rest + b);
    PagesCons(l, rest + b);
    PagesCons(l, rest);
    Associative(LinePages(l), PagesOf(rest), PagesOf(b));
  }

  lemma {:induction false} PagesAppend(a: seq<Line>, b: seq<Line>)
    ensures PagesOf(a + b) == PagesOf(a) + PagesOf(b)
  {
    if a == [] {
      assert a + b == b;
    } else {
      PagesAppend(a[1..], b);
      PagesConsAppend(a[0], a[1..], b);
      assert a == [a[0]] + a[1..];
    }
  }

  lemma Associative<T>(a: seq<T>, b: seq<T>, c: seq<T>)
    ensures a + (b + c) == a + b + c
  {
  }

  lemma {:induction false} PagesSplice(a: seq<Line>, b: seq<Line>, c: seq<Line>)
    ensures PagesOf(a + b + c) == PagesOf(a) + PagesOf(b) + PagesOf(c)
  {
    PagesAppend(a + b, c);
    PagesAppend(a, b);
  }

  /** Lines with the same pages, whatever else they hold. */
  lemma {:induction false} SamePagesSameEvidence(a: seq<Line>, b: seq<Line>)
    requires |a| == |b| && forall i :: 0 <= i < |a| ==> LinePages(a[i]) == LinePages(b[i])
    ensures PagesOf(a) == PagesOf(b)
  {
    if a != [] {
      SamePagesSameEvidence(a[1..], b[1..]);
    }
  }

  lemma {:induction false} OnePageEach(lines: seq<Line>, pages: seq<Page>)
    requires |lines| == |pages| && forall i :: 0 <= i < |lines| ==> LinePages(lines[i]) == [pages[i]]
    ensures PagesOf(lines) == pages
  {
    if lines != [] {
      OnePageEach(lines[1..], pages[1..]);
    }
  }

  lemma {:induction false} RenumberKeepsPages(lines: seq<Line>)
    ensures PagesOf(Renumber(lines)) == PagesOf(lines)
  {
    SamePagesSameEvidence(Renumber(lines), lines);
  }

  lemma SplitPartsHoldPages(line: Line, serials: nat)
    requires LinePages(line) != []
    ensures forall k :: 0 <= k < |LinePages(line)| ==> LinePages(SplitParts(line, serials)[k]) == [LinePages(line)[k]]
    ensures PagesOf(SplitParts(line, serials)) == LinePages(line)
  {
    OnePageEach(SplitParts(line, serials), LinePages(line));
  }

  lemma {:induction false} SplicedPages(lines: seq<Line>, i: nat, parts: seq<Line>)
    requires i < |lines| && PagesOf(parts) == LinePages(lines[i])
    ensures PagesOf(Spliced(lines, i, parts)) == PagesOf(lines)
  {
    PagesSplice(lines[..i], parts, lines[i + 1..]);
    PagesSplice(lines[..i], [lines[i]], lines[i + 1..]);
    PagesCons(lines[i], []);
    assert [lines[i]] + [] == [lines[i]];
    assert LinePages(lines[i]) + PagesOf([]) == LinePages(lines[i]);
    assert lines == lines[..i] + [lines[i]] + lines[i + 1..];
  }

  /** Each page of line i has its own line, in order; the other lines are left alone. */
  predicate SplitShape(lines: seq<Line>, i: nat, after: seq<Line>)
    requires i < |lines|
  {
    var n := |LinePages(lines[i])|;
    && |after| == |lines| + n - 1
    && (forall k :: i <= k < i + n ==> LinePages(after[k]) == [LinePages(lines[i])[k - i]])
    && (forall k :: 0 <= k < i ==> after[k] == Numbered(lines[k], k + 1))
    && (forall k :: i + n <= k < |after| ==> after[k] == Numbered(lines[k - n + 1], k + 1))
  }

  predicate InOrder(lines: seq<Line>) {
    forall k :: 0 <= k < |lines| ==> lines[k].lineNo == k + 1
  }

  lemma RenumberInOrder(lines: seq<Line>)
    ensures InOrder(Renumber(lines))
  {
  }

  lemma SpliceShape(lines: seq<Line>, i: nat, parts: seq<Line>)
    requires i < |lines| && |parts| == |LinePages(lines[i])|
    requires forall k :: 0 <= k < |parts| ==> LinePages(parts[k]) == [LinePages(lines[i])[k]]
    ensures SplitShape(lines, i, Renumber(Spliced(lines, i, parts)))
  {
    var all := Spliced(lines, i, parts);
    var after := Renumber(all);
    var n := |parts|;
    forall k | i <= k < i + n ensures LinePages(after[k]) == [LinePages(lines[i])[k - i]] {
      SplicedAt(lines, i, parts, k);
      NumberedPages(parts[k - i], k + 1);
    }
    forall k | 0 <= k < i ensures after[k] == Numbered(lines[k], k + 1) {
      SplicedAt(lines, i, parts, k);
    }
    forall k | i + n <= k < |all| ensures after[k] == Numbered(lines[k - n + 1], k + 1) {
      SplicedAt(lines, i, parts, k);
    }
  }

  /** A split keeps the page sequence of the claim exactly, gives each page of the line its
      own line in order, leaves the others alone and numbers all of them 1 to n. */
  lemma {:induction false} SplitKeepsEvidence(c: Claim, id: LineId)
    requires Split(c, id).Ok?
    ensures
      var after := Split(c, id).value.lines;
      PagesOf(after) == PagesOf(c.lines) && SplitShape(c.lines, IndexOf(c.lines, id).value, after) && InOrder(after)
  {
    var i := IndexOf(c.lines, id).value;
    var parts := SplitParts(c.lines[i], c.serials);
    var all := Spliced(c.lines, i, parts);
    SplitPartsHoldPages(c.lines[i], c.serials);
    SpliceShape(c.lines, i, parts);
    SplicedPages(c.lines, i, parts);
    RenumberKeepsPages(all);
    RenumberInOrder(all);
  }

  /** Lines a merge does not select. */
  function Unselected(lines: seq<Line>, ids: set<LineId>): seq<Line> {
    if lines == [] then []
    else (if lines[0].id in ids then [] else [lines[0]]) + Unselected(lines[1..], ids)
  }

  lemma {:induction false} SurvivedIsUnselected(lines: seq<Line>, ids: set<LineId>, composite: Page, pages: seq<Page>)
    ensures MergedLines(lines, ids, composite, pages, true) == Unselected(lines, ids)
  {
    if lines != [] { SurvivedIsUnselected(lines[1..], ids, composite, pages); }
  }

  lemma MultisetOfBoth<T>(a: seq<T>, b: seq<T>)
    ensures multiset(a + b) == multiset(a) + multiset(b)
  {
  }

  lemma {:induction false} PagesBySelection(lines: seq<Line>, ids: set<LineId>)
    ensures multiset(PagesOf(lines)) ==
      multiset(PagesOf(Selected(lines, ids))) + multiset(PagesOf(Unselected(lines, ids)))
  {
    if lines != [] {
      var l, rest := lines[0], lines[1..];
      PagesBySelection(rest, ids);
      assert lines == [l] + rest;
      PagesCons(l, rest);
      MultisetOfBoth(LinePages(l), PagesOf(rest));
      var kept := if l.id in ids then Selected(rest, ids) else Unselected(rest, ids);
      PagesCons(l, kept);
      MultisetOfBoth(LinePages(l), PagesOf(kept));
      if l.id in ids {
        assert Selected(lines, ids) == [l] + kept && Unselected(lines, ids) == Unselected(rest, ids);
      } else {
        assert Unselected(lines, ids) == [l] + kept && Selected(lines, ids) == Selected(rest, ids);
      }
    }
  }

  /** Where the first selected line is. */
  function FirstSelected(lines: seq<Line>, ids: set<LineId>): (k: nat)
    requires exists l :: l in lines && l.id in ids
    ensures k < |lines| && lines[k].id in ids && forall j :: 0 <= j < k ==> lines[j].id !in ids
  {
    if lines[0].id in ids then 0
    else
      assert forall l :: l in lines && l.id in ids ==> l in lines[1..];
      1 + FirstSelected(lines[1..], ids)
  }

  function Survivor(line: Line, composite: Page, pages: seq<Page>): Line {
    line.(image := Some(composite), pages := pages)
  }

  lemma {:induction false} UnselectedPrefix(lines: seq<Line>, ids: set<LineId>, k: nat)
    requires k <= |lines| && forall j :: 0 <= j < k ==> lines[j].id !in ids
    ensures Unselected(lines, ids) == lines[..k] + Unselected(lines[k..], ids)
  {
    if k == 0 {
      assert lines[0..] == lines && lines[..0] + Unselected(lines, ids) == Unselected(lines, ids);
    } else {
      var rest := lines[1..];
      UnselectedPrefix(rest, ids, k - 1);
      assert rest[k - 1..] == lines[k..];
      assert lines[..k] == [lines[0]] + rest[..k - 1];
      Associative([lines[0]], rest[..k - 1], Unselected(lines[k..], ids));
    }
  }

  lemma {:induction false} MergedPrefix(lines: seq<Line>, ids: set<LineId>, composite: Page, pages: seq<Page>, k: nat)
    requires k < |lines| && lines[k].id in ids && forall j :: 0 <= j < k ==> lines[j].id !in ids
    ensures MergedLines(lines, ids, composite, pages, false) ==
            lines[..k] + ([Survivor(lines[k], composite, pages)] + Unselected(lines[k + 1..], ids))
  {
    var tail := [Survivor(lines[k], composite, pages)] + Unselected(lines[k + 1..], ids);
    if k == 0 {
      SurvivedIsUnselected(lines[1..], ids, composite, pages);
      assert lines[..0] + tail == tail;
    } else {
      var rest := lines[1..];
      MergedPrefix(rest, ids, composite, pages, k - 1);
      assert rest[k..] == lines[k + 1..];
      assert lines[..k] == [lines[0]] + rest[..k - 1];
      Associative([lines[0]], rest[..k - 1], tail);
    }
  }

  /** The lines after a merge are those it did not select, with the survivor put back
      where it was. */
  lemma {:induction false} MergedShape(lines: seq<Line>, ids: set<LineId>, composite: Page, pages: seq<Page>, k: nat)
    requires k < |lines| && lines[k].id in ids && forall j :: 0 <= j < k ==> lines[j].id !in ids
    ensures k <= |Unselected(lines, ids)|
    ensures MergedLines(lines, ids, composite, pages, false) ==
            PutBack(Unselected(lines, ids), k, Survivor(lines[k], composite, pages))
  {
    var after := Unselected(lines[k + 1..], ids);
    MergedPrefix(lines, ids, composite, pages, k);
    UnselectedPrefix(lines, ids, k);
    assert Unselected(lines[k..], ids) == [] + after by { assert lines[k..][1..] == lines[k + 1..]; }
    assert Unselected(lines, ids) == lines[..k] + after;
    Associative(lines[..k], [Survivor(lines[k], composite, pages)], after);
  }

  lemma {:induction false} SelectedExists(lines: seq<Line>, ids: set<LineId>)
    requires Selected(lines, ids) != []
    ensures exists l :: l in lines && l.id in ids
  {
    assert Selected(lines, ids)[0] in Selected(lines, ids);
  }

  lemma {:induction false} PagesAround(before: seq<Line>, l: Line, after: seq<Line>)
    ensures PagesOf(before + [l] + after) == PagesOf(before) + LinePages(l) + PagesOf(after)
  {
    PagesSplice(before, [l], after);
    PagesCons(l, []);
    assert [l] + [] == [l];
    assert LinePages(l) + PagesOf([]) == LinePages(l);
  }

  lemma Shuffled<T>(a: seq<T>, b: seq<T>, c: seq<T>)
    ensures multiset(a + b + c) == multiset(b) + multiset(a + c)
  {
    MultisetOfBoth(a + b, c);
    MultisetOfBoth(a, b);
    MultisetOfBoth(a, c);
  }

  /** A line put back among others. */
  function PutBack(others: seq<Line>, k: nat, l: Line): seq<Line>
    requires k <= |others|
  {
    others[..k] + [l] + others[k..]
  }

  lemma {:induction false} PutBackPages(others: seq<Line>, k: nat, l: Line)
    requires k <= |others|
    ensures multiset(PagesOf(PutBack(others, k, l))) == multiset(LinePages(l)) + multiset(PagesOf(others))
  {
    var before, after := others[..k], others[k..];
    assert others == before + after;
    AroundPages(before, l, after);
  }

  lemma {:induction false} AroundPages(before: seq<Line>, l: Line, after: seq<Line>)
    ensures multiset(PagesOf(before + [l] + after)) == multiset(LinePages(l)) + multiset(PagesOf(before + after))
  {
    PagesAround(before, l, after);
    PagesAppend(before, after);
    Shuffled(PagesOf(before), LinePages(l), PagesOf(after));
  }

  lemma PutBackAt(others: seq<Line>, k: nat, l: Line, j: nat)
    requires k <= |others| && j <= |others|
    ensures |PutBack(others, k, l)| == |others| + 1
    ensures PutBack(others, k, l)[j] == if j < k then others[j] else if j == k then l else others[j - 1]
  {
  }

  lemma {:induction false} MergedPages(lines: seq<Line>, ids: set<LineId>, composite: Page, k: nat)
    requires k < |lines| && lines[k].id in ids && forall j :: 0 <= j < k ==> lines[j].id !in ids
    requires PagesOf(Selected(lines, ids)) != []
    ensures multiset(PagesOf(MergedLines(lines, ids, composite, PagesOf(Selected(lines, ids)), false))) ==
      multiset(PagesOf(lines))
  {
    var pages, others := PagesOf(Selected(lines, ids)), Unselected(lines, ids);
    MergedShape(lines, ids, composite, pages, k);
    PutBackPages(others, k, Survivor(lines[k], composite, pages));
    PagesBySelection(lines, ids);
  }

  /** The line a merge keeps. */
  function SurvivorAt(c: Claim, ids: set<LineId>, composite: Page): (k: nat)
    requires Merge(c, ids, composite).Ok?
    ensures k < |c.lines| && c.lines[k].id in ids && forall j :: 0 <= j < k ==> c.lines[j].id !in ids
  {
    SelectedExists(c.lines, ids);
    FirstSelected(c.lines, ids)
  }

  /** Line k holds the selected pages in line order; the rest are the lines not selected,
      left alone. */
  predicate MergeShape(lines: seq<Line>, ids: set<LineId>, k: nat, after: seq<Line>)
    requires k < |lines|
  {
    var others := Unselected(lines, ids);
    && |after| == |others| + 1 && k < |after|
    && after[k].id == lines[k].id && LinePages(after[k]) == PagesOf(Selected(lines, ids))
    && (forall j :: 0 <= j < k ==> after[j] == Numbered(others[j], j + 1))
    && (forall j :: k < j < |after| ==> after[j] == Numbered(others[j - 1], j + 1))
  }

  lemma {:induction false} MergedHasShape(lines: seq<Line>, ids: set<LineId>, composite: Page, k: nat)
    requires k < |lines| && lines[k].id in ids && forall j :: 0 <= j < k ==> lines[j].id !in ids
    requires PagesOf(Selected(lines, ids)) != []
    ensures MergeShape(lines, ids, k,
                       Renumber(MergedLines(lines, ids, composite, PagesOf(Selected(lines, ids)), false)))
  {
    var pages := PagesOf(Selected(lines, ids));
    var others := Unselected(lines, ids);
    MergedShape(lines, ids, composite, pages, k);
    PutBackShape(lines, ids, k, others, Survivor(lines[k], composite, pages));
  }

  lemma {:induction false} PutBackShape(lines: seq<Line>, ids: set<LineId>, k: nat, others: seq<Line>, l: Line)
    requires k < |lines| && k <= |others| && others == Unselected(lines, ids)
    requires l.id == lines[k].id && LinePages(l) == PagesOf(Selected(lines, ids))
    ensures MergeShape(lines, ids, k, Renumber(PutBack(others, k, l)))
  {
    PutBackNumbered(others, k, l);
    NumberedPages(l, k + 1);
  }

  lemma {:induction false} PutBackNumbered(others: seq<Line>, k: nat, l: Line)
    requires k <= |others|
    ensures
      var after := Renumber(PutBack(others, k, l));
      && |after| == |others| + 1 && after[k] == Numbered(l, k + 1)
      && (forall j :: 0 <= j < k ==> after[j] == Numbered(others[j], j + 1))
      && (forall j :: k < j < |after| ==> after[j] == Numbered(others[j - 1], j + 1))
  {
    var after := Renumber(PutBack(others, k, l));
    PutBackAt(others, k, l, k);
    forall j | 0 <= j < k ensures after[j] == Numbered(others[j], j + 1) {
      PutBackAt(others, k, l, j);
    }
    forall j | k < j < |after| ensures after[j] == Numbered(others[j - 1], j + 1) {
      PutBackAt(others, k, l, j);
    }
  }

  /** A merge keeps every page of the claim exactly once, the first selected line takes over
      the selected ones, and all lines are numbered 1 to n. */
  lemma MergeKeepsEvidence(c: Claim, ids: set<LineId>, composite: Page)
    requires Merge(c, ids, composite).Ok?
    ensures
      var after := Merge(c, ids, composite).value.lines;
      && multiset(PagesOf(after)) == multiset(PagesOf(c.lines))
      && MergeShape(c.lines, ids, SurvivorAt(c, ids, composite), after) && InOrder(after)
  {
    var k := SurvivorAt(c, ids, composite);
    var merged := MergedLines(c.lines, ids, composite, PagesOf(Selected(c.lines, ids)), false);
    MergedHasShape(c.lines, ids, composite, k);
    MergedPages(c.lines, ids, composite, k);
    RenumberKeepsPages(merged);
    RenumberInOrder(merged);
  }

  lemma {:induction false} SinglePages(lines: seq<Line>)
    requires forall l :: l in lines ==> |LinePages(l)| == 1
    ensures |PagesOf(lines)| == |lines|
  {
    if lines != [] { SinglePages(lines[1..]); }
  }

  lemma {:induction false} SelectionCounts(lines: seq<Line>, ids: set<LineId>)
    ensures |Selected(lines, ids)| + |Unselected(lines, ids)| == |lines|
    ensures forall l :: l in Unselected(lines, ids) ==> l in lines
  {
    if lines != [] { SelectionCounts(lines[1..], ids); }
  }

  lemma {:induction false} IndexIsUnique(lines: seq<Line>, k: nat)
    requires k < |lines| && forall i, j :: 0 <= i < j < |lines| ==> lines[i].id != lines[j].id
    ensures IndexOf(lines, lines[k].id) == Some(k)
  {
    forall i | 0 <= i < |lines| && i != k ensures lines[i].id != lines[k].id {
      if i < k { assert lines[i].id != lines[k].id; } else { assert lines[k].id != lines[i].id; }
    }
    var r := IndexOf(lines, lines[k].id);
    assert lines[k].id == lines[k].id;
  }

  lemma {:induction false} MergedIsSplittable(cid: ClaimId, c: Claim, ids: set<LineId>, composite: Page)
    requires LinesOk(cid, c.lines, c.serials) && Merge(c, ids, composite).Ok?
    ensures
      var merged, k := Merge(c, ids, composite).value, SurvivorAt(c, ids, composite);
      && IndexOf(merged.lines, c.lines[k].id) == Some(k) && k < |merged.lines|
      && LinePages(merged.lines[k]) == PagesOf(Selected(c.lines, ids))
      && Split(merged, c.lines[k].id).Ok?
  {
    var merged, k := Merge(c, ids, composite).value, SurvivorAt(c, ids, composite);
    MergeKeepsEvidence(c, ids, composite);
    MergeKeepsLines(cid, c.lines, ids, composite, PagesOf(Selected(c.lines, ids)), c.serials);
    IdsDistinct(cid, merged.lines, c.serials);
    IndexIsUnique(merged.lines, k);
  }

  predicate OnePage(line: Line) {
    |LinePages(line)| == 1
  }

  lemma NumberedPages(line: Line, no: int)
    ensures LinePages(Numbered(line, no)) == LinePages(line)
  {
  }

  lemma MergedOnePages(lines: seq<Line>, ids: set<LineId>, k: nat, merged: seq<Line>)
    requires k < |lines| && MergeShape(lines, ids, k, merged) && forall l :: l in lines ==> OnePage(l)
    ensures |merged| + |LinePages(merged[k])| - 1 == |lines|
    ensures forall j :: 0 <= j < |merged| && j != k ==> OnePage(merged[j])
  {
    var others := Unselected(lines, ids);
    SinglePages(Selected(lines, ids));
    SelectionCounts(lines, ids);
    forall j | 0 <= j < |merged| && j != k ensures OnePage(merged[j]) {
      var at := if j < k then j else j - 1;
      assert others[at] in others;
      NumberedPages(others[at], j + 1);
    }
  }

  lemma SplitOnePages(merged: seq<Line>, k: nat, after: seq<Line>)
    requires k < |merged| && SplitShape(merged, k, after)
    requires forall j :: 0 <= j < |merged| && j != k ==> OnePage(merged[j])
    ensures forall j :: 0 <= j < |after| ==> OnePage(after[j])
  {
    var n := |LinePages(merged[k])|;
    forall j | 0 <= j < |after| ensures OnePage(after[j]) {
      if j < k {
        NumberedPages(merged[j], j + 1);
      } else if j >= k + n {
        NumberedPages(merged[j - n + 1], j + 1);
      }
    }
  }

  /** Splitting what was just merged, on a claim of single-page lines, gives back one line
      for every page. */
  lemma MergeThenSplit(cid: ClaimId, c: Claim, ids: set<LineId>, composite: Page)
    requires LinesOk(cid, c.lines, c.serials) && Merge(c, ids, composite).Ok?
    requires forall l :: l in c.lines ==> OnePage(l)
    ensures
      var merged, survivor := Merge(c, ids, composite).value, c.lines[SurvivorAt(c, ids, composite)].id;
      && Split(merged, survivor).Ok?
      && var after := Split(merged, survivor).value.lines;
         && |after| == |c.lines| && InOrder(after) && (forall j :: 0 <= j < |after| ==> OnePage(after[j]))
         && multiset(PagesOf(after)) == multiset(PagesOf(c.lines))
  {
    var merged, k := Merge(c, ids, composite).value, SurvivorAt(c, ids, composite);
    MergeKeepsEvidence(c, ids, composite);
    MergedIsSplittable(cid, c, ids, composite);
    SplitKeepsEvidence(merged, c.lines[k].id);
    MergedOnePages(c.lines, ids, k, merged.lines);
    SplitOnePages(merged.lines, k, Split(merged, c.lines[k].id).value.lines);
  }

  // -- renumbering, write by write ---------------------------------------------------------

  /** UNIQUE(claim, line_no). */
  predicate Distinct(numbers: seq<int>) {
    forall i, j :: 0 <= i < j < |numbers| ==> numbers[i] != numbers[j]
  }

  /** The numbers on disk once the rows in `done` are written. */
  function Halfway(before: seq<int>, target: seq<int>, done: set<nat>): (r: seq<int>)
    requires |before| == |target|
    ensures |r| == |before| && forall i :: 0 <= i < |r| ==> r[i] == if i in done then target[i] else before[i]
  {
    seq(|before|, i requires 0 <= i < |before| => if i in done then target[i] else before[i])
  }

  /** The first n rows. */
  function UpTo(n: nat): (r: set<nat>)
    ensures forall i: nat :: i in r <==> i < n
  {
    if n == 0 then {} else UpTo(n - 1) + {n - 1}
  }

  /** A flush may write its rows one by one in any order without tripping the constraint. */
  ghost predicate FlushIsSafe(before: seq<int>, target: seq<int>)
    requires |before| == |target|
  {
    forall done: set<nat> :: Distinct(Halfway(before, target, done))
  }

  predicate NoClash(before: seq<int>, target: seq<int>)
    requires |before| == |target|
  {
    forall i, j :: 0 <= i < |before| && 0 <= j < |target| && i != j ==> before[i] != target[j]
  }

  lemma FlushIsSafeIff(before: seq<int>, target: seq<int>)
    requires |before| == |target|
    ensures FlushIsSafe(before, target) <==> Distinct(before) && Distinct(target) && NoClash(before, target)
  {
    if Distinct(before) && Distinct(target) && NoClash(before, target) {
      forall done: set<nat> ensures Distinct(Halfway(before, target, done)) {
        var now := Halfway(before, target, done);
        forall i, j | 0 <= i < j < |now| ensures now[i] != now[j] {
          assert before[i] != before[j] && target[i] != target[j] && before[i] != target[j] && before[j] != target[i];
        }
      }
    }
    if FlushIsSafe(before, target) {
      assert Halfway(before, target, {}) == before;
      var every := UpTo(|before|);
      assert Distinct(Halfway(before, target, every));
      assert Halfway(before, target, every) == target;
      forall i, j | 0 <= i < |before| && 0 <= j < |target| && i != j ensures before[i] != target[j] {
        var now := Halfway(before, target, {j});
        assert Distinct(now);
        if i < j { assert now[i] != now[j]; } else { assert now[j] != now[i]; }
      }
    }
  }

  function Negatives(n: nat): (r: seq<int>)
    ensures |r| == n && forall i :: 0 <= i < n ==> r[i] == -(i + 1)
  {
    seq(n, i requires 0 <= i < n => -(i + 1))
  }

  function Positives(n: nat): (r: seq<int>)
    ensures |r| == n && forall i :: 0 <= i < n ==> r[i] == i + 1
  {
    seq(n, i requires 0 <= i < n => i + 1)
  }

  /** The numbers a split flushes first: the lines it found keep theirs, the k-th line it
      added after position `at` carries -(1000 + k). */
  function SplitNumbers(found: seq<int>, at: nat, added: nat): (r: seq<int>)
    requires at < |found|
    ensures |r| == |found| + added
    ensures forall i :: 0 <= i < |r| ==>
      r[i] == if i <= at then found[i] else if i <= at + added then -(1000 + (i - at)) else found[i - added]
  {
    found[..at + 1] + seq(added, i requires 0 <= i < added => -(1001 + i)) + found[at + 1..]
  }

  /** From positive distinct numbers both flushes of a renumbering are safe. */
  lemma MergeRenumberIsSafe(found: seq<int>)
    requires Distinct(found) && forall i :: 0 <= i < |found| ==> found[i] > 0
    ensures FlushIsSafe(found, Negatives(|found|)) && FlushIsSafe(Negatives(|found|), Positives(|found|))
  {
    FlushIsSafeIff(found, Negatives(|found|));
    FlushIsSafeIff(Negatives(|found|), Positives(|found|));
  }

  lemma SplitNumbersDistinct(found: seq<int>, at: nat, added: nat)
    requires Distinct(found) && (forall i :: 0 <= i < |found| ==> found[i] > 0) && at < |found|
    ensures Distinct(SplitNumbers(found, at, added))
  {
    var before := SplitNumbers(found, at, added);
    forall i, j | 0 <= i < j < |before| ensures before[i] != before[j] {
      if i <= at && j > at + added { assert found[i] != found[j - added]; }
    }
  }

  /** The parking numbers start below -1000, so up to 1000 lines none is a target. */
  lemma SplitAvoidsNegatives(found: seq<int>, at: nat, added: nat)
    requires (forall i :: 0 <= i < |found| ==> found[i] > 0) && at < |found|
    requires |found| + added <= 1000 || at == 999
    ensures NoClash(SplitNumbers(found, at, added), Negatives(|found| + added))
  {
    var before, target := SplitNumbers(found, at, added), Negatives(|found| + added);
    forall i, j | 0 <= i < |before| && 0 <= j < |target| && i != j ensures before[i] != target[j] {
      assert target[j] == -(j + 1);
    }
  }

  /** After a split into two or more pages they are safe exactly up to 1000 lines, or when
      the split line is the thousandth: beyond that the first flush trips the constraint in
      some write order. */
  lemma SplitRenumberIsSafeIff(found: seq<int>, at: nat, added: nat)
    requires Distinct(found) && (forall i :: 0 <= i < |found| ==> found[i] > 0) && at < |found| && added >= 1
    ensures FlushIsSafe(Negatives(|found| + added), Positives(|found| + added))
    ensures FlushIsSafe(SplitNumbers(found, at, added), Negatives(|found| + added)) <==>
      |found| + added <= 1000 || at == 999
  {
    var n := |found| + added;
    var before := SplitNumbers(found, at, added);
    FlushIsSafeIff(Negatives(n), Positives(n));
    FlushIsSafeIff(before, Negatives(n));
    SplitNumbersDistinct(found, at, added);
    if n <= 1000 || at == 999 {
      SplitAvoidsNegatives(found, at, added);
    } else {
      assert before[at + 1] == -1001 && Negatives(n)[1000] == -1001;
    }
  }

  lemma NextWrite(before: seq<int>, target: seq<int>, i: nat)
    requires |before| == |target| && i < |target|
    ensures Halfway(before, target, UpTo(i))[i := target[i]] == Halfway(before, target, UpTo(i + 1))
  {
  }

  /** One row was written between the two. */
  predicate OneWrite(a: seq<int>, b: seq<int>) {
    |a| == |b| && exists i :: 0 <= i < |a| && b == a[i := b[i]]
  }

  /** What the table held after every write: never a number twice. */
  ghost predicate IsWriting(states: seq<seq<int>>, from: seq<int>, target: seq<int>) {
    && states != [] && states[0] == from && states[|states| - 1] == target
    && (forall k :: 0 <= k < |states| ==> Distinct(states[k]))
    && forall k :: 0 < k < |states| ==> OneWrite(states[k - 1], states[k])
  }

  /** One flush, row by row, with the constraint checked after every write. */
  method Flush(numbers: array<int>, target: seq<int>) returns (ghost states: seq<seq<int>>)
    requires numbers.Length == |target|
    requires Distinct(numbers[..]) && Distinct(target) && NoClash(numbers[..], target)
    modifies numbers
    ensures numbers[..] == target && IsWriting(states, old(numbers[..]), target)
  {
    ghost var before := numbers[..];
    FlushIsSafeIff(before, target);
    states := [before];
    var i := 0;
    while i < numbers.Length
      invariant 0 <= i <= numbers.Length
      invariant numbers[..] == Halfway(before, target, UpTo(i))
      invariant IsWriting(states, before, numbers[..])
    {
      ghost var now := numbers[..];
      numbers[i] := target[i];
      NextWrite(before, target, i);
      assert numbers[..] == now[i := target[i]];
      assert OneWrite(now, numbers[..]);
      states := states + [numbers[..]];
      i := i + 1;
    }
  }

  /** `_renumber`: negatives first, then 1 to n, and no number twice after any write. */
  method RenumberInPlace(numbers: array<int>) returns (ghost states: seq<seq<int>>)
    requires Distinct(numbers[..]) && NoClash(numbers[..], Negatives(numbers.Length))
    modifies numbers
    ensures numbers[..] == Positives(numbers.Length) && IsWriting(states, old(numbers[..]), Positives(numbers.Length))
  {
    ghost var first := Flush(numbers, Negatives(numbers.Length));
    ghost var second := Flush(numbers, Positives(numbers.Length));
    states := first + second[1..];
  }
}
