/** The deterministic batch hash: items sorted by a key, then hashed as one list
    (src/core/release.py, src/erpsync/release/gate.py). The hash is ideal: it is the list. */
module CanonicalHash {
  import opened Prelude

  datatype Digest<T> = Sha(items: seq<T>)

  ghost predicate TotalOrder<K(!new)>(le: (K, K) -> bool) {
    && (forall a, b :: le(a, b) || le(b, a))
    && (forall a, b :: le(a, b) && le(b, a) ==> a == b)
    && (forall a, b, c :: le(a, b) && le(b, c) ==> le(a, c))
  }

  /** A stable sort. */
  function SortBy<T, K>(items: seq<T>, key: T -> K, le: (K, K) -> bool): (r: seq<T>) {
    if items == [] then [] else Insert(items[0], SortBy(items[1..], key, le), key, le)
  }

  function Insert<T, K>(x: T, sorted: seq<T>, key: T -> K, le: (K, K) -> bool): (r: seq<T>) {
    if sorted == [] || le(key(x), key(sorted[0])) then [x] + sorted else [sorted[0]] + Insert(x, sorted[1..], key, le)
  }

  /** `canonical_hash`. */
  function Hash<T, K>(items: seq<T>, key: T -> K, le: (K, K) -> bool): Digest<T> {
    Sha(SortBy(items, key, le))
  }

  lemma {:induction false} InsertKeeps<T, K>(x: T, sorted: seq<T>, key: T -> K, le: (K, K) -> bool)
    ensures multiset(Insert(x, sorted, key, le)) == multiset{x} + multiset(sorted)
  {
    if sorted != [] && !le(key(x), key(sorted[0])) {
      InsertKeeps(x, sorted[1..], key, le);
      assert sorted == [sorted[0]] + sorted[1..];
    }
  }

  lemma {:induction false} SortKeeps<T, K>(items: seq<T>, key: T -> K, le: (K, K) -> bool)
    ensures multiset(SortBy(items, key, le)) == multiset(items)
  {
    if items != [] {
      SortKeeps(items[1..], key, le);
      InsertKeeps(items[0], SortBy(items[1..], key, le), key, le);
      assert items == [items[0]] + items[1..];
    }
  }

  ghost predicate Sorted<T, K>(s: seq<T>, key: T -> K, le: (K, K) -> bool) {
    forall i, j :: 0 <= i < j < |s| ==> le(key(s[i]), key(s[j]))
  }

  lemma {:induction false} InsertSorted<T, K(!new)>(x: T, sorted: seq<T>, key: T -> K, le: (K, K) -> bool)
    requires TotalOrder(le) && Sorted(sorted, key, le)
    ensures Sorted(Insert(x, sorted, key, le), key, le)
  {
    var r := Insert(x, sorted, key, le);
    if sorted == [] || le(key(x), key(sorted[0])) {
      forall i | 0 <= i < |sorted| ensures le(key(x), key(sorted[i])) {}
    } else {
      var rest := sorted[1..];
      InsertSorted(x, rest, key, le);
      var tail := Insert(x, rest, key, le);
      InsertKeeps(x, rest, key, le);
      forall j | 0 <= j < |tail| ensures le(key(sorted[0]), key(tail[j])) {
        assert tail[j] in multiset(tail);
        if tail[j] != x {
          assert tail[j] in multiset(rest);
          var k :| 0 <= k < |rest| && rest[k] == tail[j];
          assert rest[k] == sorted[k + 1];
        }
      }
    }
  }

  lemma {:induction false} SortSorted<T, K(!new)>(items: seq<T>, key: T -> K, le: (K, K) -> bool)
    requires TotalOrder(le)
    ensures Sorted(SortBy(items, key, le), key, le)
  {
    if items != [] {
      SortSorted(items[1..], key, le);
      InsertSorted(items[0], SortBy(items[1..], key, le), key, le);
    }
  }

  /** No two different items share a key. */
  ghost predicate Separates<T(!new), K>(items: seq<T>, key: T -> K) {
    forall x, y :: x in items && y in items && key(x) == key(y) ==> x == y
  }

  lemma HeadsAgree<T(!new), K(!new)>(a: seq<T>, b: seq<T>, key: T -> K, le: (K, K) -> bool)
    requires TotalOrder(le) && Sorted(a, key, le) && Sorted(b, key, le) && Separates(a, key)
    requires a != [] && b != [] && forall x :: x in a <==> x in b
    ensures a[0] == b[0]
  {
    assert a[0] in b && b[0] in a;
    var j :| 0 <= j < |b| && b[j] == a[0];
    var k :| 0 <= k < |a| && a[k] == b[0];
    assert j > 0 ==> le(key(b[0]), key(b[j]));
    assert k > 0 ==> le(key(a[0]), key(a[k]));
    assert a[k] in a && a[0] in a;
  }

  lemma TailsAgree<T>(a: seq<T>, b: seq<T>)
    requires a != [] && b != [] && a[0] == b[0] && multiset(a) == multiset(b)
    ensures multiset(a[1..]) == multiset(b[1..])
  {
    assert a == [a[0]] + a[1..] && b == [b[0]] + b[1..];
    assert multiset(a) == multiset{a[0]} + multiset(a[1..]);
    assert multiset(b) == multiset{b[0]} + multiset(b[1..]);
    assert multiset(a[1..]) == multiset(a) - multiset{a[0]};
  }

  lemma {:induction false} SortedIsUnique<T(!new), K(!new)>(a: seq<T>, b: seq<T>, key: T -> K, le: (K, K) -> bool)
    requires TotalOrder(le) && Sorted(a, key, le) && Sorted(b, key, le)
    requires multiset(a) == multiset(b) && Separates(a, key)
    ensures a == b
  {
    assert |a| == |multiset(a)| == |multiset(b)| == |b|;
    if a != [] {
      SameMembers(a, b);
      HeadsAgree(a, b, key, le);
      TailsAgree(a, b);
      SortedIsUnique(a[1..], b[1..], key, le);
    }
  }

  /** The digest does not depend on the order the items came in. */
  ghost predicate OrderFree<T(!new), K>(items: seq<T>, key: T -> K, le: (K, K) -> bool) {
    forall other :: multiset(other) == multiset(items) ==> Hash(other, key, le) == Hash(items, key, le)
  }

  /** When the key separates the items, equal digests mean equal contents, both ways. */
  lemma DigestIsContents<T(!new), K(!new)>(a: seq<T>, b: seq<T>, key: T -> K, le: (K, K) -> bool)
    requires TotalOrder(le) && Separates(a, key)
    ensures Hash(a, key, le) == Hash(b, key, le) <==> multiset(a) == multiset(b)
  {
    SortKeeps(a, key, le);
    SortKeeps(b, key, le);
    if multiset(a) == multiset(b) {
      SortSorted(a, key, le);
      SortSorted(b, key, le);
      SameMembers(a, SortBy(a, key, le));
      SortedIsUnique(SortBy(a, key, le), SortBy(b, key, le), key, le);
    }
  }

  lemma SameMembers<T(!new)>(a: seq<T>, b: seq<T>)
    requires multiset(a) == multiset(b)
    ensures forall x :: x in a <==> x in b
  {
    forall x ensures x in a <==> x in b {
      assert x in a <==> x in multiset(a);
      assert x in b <==> x in multiset(b);
    }
  }

  /** An item moved to the front of the same items. */
  lemma {:induction false} MoveToFront<T(!new)>(items: seq<T>, x: T) returns (rest: seq<T>)
    requires x in items
    ensures multiset([x] + rest) == multiset(items)
    ensures forall z :: z in items && z != x ==> z in rest
  {
    if items[0] == x {
      rest := items[1..];
      assert items == [x] + rest;
    } else {
      assert x in items[1..];
      var tail := MoveToFront(items[1..], x);
      rest := [items[0]] + tail;
      assert items == [items[0]] + items[1..];
      assert [x] + rest == [x] + [items[0]] + tail;
      assert multiset([x] + rest) == multiset{x} + multiset{items[0]} + multiset(tail);
      assert multiset([x] + tail) == multiset{x} + multiset(tail);
    }
  }

  /** In a sort of items that begin with x then y, of equal keys, x comes before y. */
  function Position<T(==)>(s: seq<T>, x: T): (k: nat)
    requires x in s
    ensures k < |s| && s[k] == x && forall j :: 0 <= j < k ==> s[j] != x
  {
    if s[0] == x then 0 else 1 + Position(s[1..], x)
  }

  lemma {:induction false} InsertBefore<T(!new), K(!new)>(x: T, y: T, sorted: seq<T>, key: T -> K, le: (K, K) -> bool)
    requires TotalOrder(le) && Sorted(sorted, key, le) && key(x) == key(y) && x != y && y in sorted
    ensures x in Insert(x, sorted, key, le) && y in Insert(x, sorted, key, le)
    ensures Position(Insert(x, sorted, key, le), x) < Position(Insert(x, sorted, key, le), y)
  {
    var r := Insert(x, sorted, key, le);
    if le(key(x), key(sorted[0])) {
      assert r[0] == x;
      assert y in sorted && r[1..] == sorted;
    } else {
      var j :| 0 <= j < |sorted| && sorted[j] == y;
      assert sorted[0] != x && sorted[0] != y;
      assert y in sorted[1..];
      InsertBefore(x, y, sorted[1..], key, le);
      assert r[1..] == Insert(x, sorted[1..], key, le);
    }
  }

  lemma {:induction false} FirstComesFirst<T(!new), K(!new)>(x: T, y: T, rest: seq<T>, key: T -> K, le: (K, K) -> bool)
    requires TotalOrder(le) && key(x) == key(y) && x != y
    ensures
      var r := SortBy([x, y] + rest, key, le);
      x in r && y in r && Position(r, x) < Position(r, y)
  {
    var tail := [y] + rest;
    assert ([x, y] + rest)[1..] == tail;
    SortSorted(tail, key, le);
    SortKeeps(tail, key, le);
    assert y in tail;
    SameMembers(SortBy(tail, key, le), tail);
    InsertBefore(x, y, SortBy(tail, key, le), key, le);
  }

  lemma BothInFront<T(!new)>(items: seq<T>, x: T, y: T) returns (rest: seq<T>)
    requires x in items && y in items && x != y
    ensures multiset([x, y] + rest) == multiset(items) && multiset([y, x] + rest) == multiset(items)
  {
    var others := MoveToFront(items, x);
    rest := MoveToFront(others, y);
    assert [x, y] + rest == [x] + ([y] + rest);
    assert multiset([x] + ([y] + rest)) == multiset{x} + multiset([y] + rest);
    assert multiset([x] + others) == multiset{x} + multiset(others);
    assert [y, x] + rest == [y] + ([x] + rest);
    assert multiset([y] + ([x] + rest)) == multiset{y} + multiset([x] + rest);
    assert multiset([x] + rest) == multiset{x} + multiset(rest) && multiset([y] + rest) == multiset{y} + multiset(rest);
  }

  lemma {:induction false} DifferentSorts<T(!new), K(!new)>(x: T, y: T, rest: seq<T>, key: T -> K, le: (K, K) -> bool)
    requires TotalOrder(le) && key(x) == key(y) && x != y
    ensures SortBy([x, y] + rest, key, le) != SortBy([y, x] + rest, key, le)
  {
    FirstComesFirst(x, y, rest, key, le);
    FirstComesFirst(y, x, rest, key, le);
  }

  lemma SameKeyShowsOrder<T(!new), K(!new)>(items: seq<T>, x: T, y: T, key: T -> K, le: (K, K) -> bool)
    requires TotalOrder(le) && x in items && y in items && key(x) == key(y) && x != y
    ensures !OrderFree(items, key, le)
  {
    var rest := BothInFront(items, x, y);
    DifferentSorts(x, y, rest, key, le);
    assert Hash([x, y] + rest, key, le) != Hash([y, x] + rest, key, le);
  }

  /** The digest is independent of input order exactly when the sort key separates the
      items: two different items with one key can be told apart by their order. */
  lemma OrderFreeIff<T(!new), K(!new)>(items: seq<T>, key: T -> K, le: (K, K) -> bool)
    requires TotalOrder(le)
    ensures OrderFree(items, key, le) <==> Separates(items, key)
  {
    if Separates(items, key) {
      forall other | multiset(other) == multiset(items) ensures Hash(other, key, le) == Hash(items, key, le) {
        DigestIsContents(items, other, key, le);
      }
    } else {
      var x, y :| x in items && y in items && key(x) == key(y) && x != y;
      SameKeyShowsOrder(items, x, y, key, le);
    }
  }

  /** The default key is the item's own canonical text: it separates any items. */
  lemma DefaultIsOrderFree<T(!new), K(!new)>(items: seq<T>, text: T -> K, le: (K, K) -> bool)
    requires TotalOrder(le) && forall x, y :: text(x) == text(y) ==> x == y
    ensures OrderFree(items, text, le)
  {
    OrderFreeIff(items, text, le);
  }
}
