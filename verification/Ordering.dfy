/** Sorting by a key, as the allocators use it: stable ties are broken by putting an index into the key. */
module Ordering {

  /** Keys compare like tuples: first component first. */
  datatype Key = Key(first: int, second: int, third: int)

  predicate AtMost(a: Key, b: Key) {
    || a.first < b.first
    || (a.first == b.first && a.second < b.second)
    || (a.first == b.first && a.second == b.second && a.third <= b.third)
  }

  function Insert(x: int, sorted: seq<int>, key: int -> Key): seq<int> {
    if sorted == [] || AtMost(key(x), key(sorted[0])) then [x] + sorted else [sorted[0]] + Insert(x, sorted[1..], key)
  }

  function SortBy(items: seq<int>, key: int -> Key): seq<int> {
    if items == [] then [] else Insert(items[0], SortBy(items[1..], key), key)
  }

  ghost predicate SortedBy(items: seq<int>, key: int -> Key) {
    forall i, j :: 0 <= i < j < |items| ==> AtMost(key(items[i]), key(items[j]))
  }

  predicate Distinct(items: seq<int>) {
    forall i, j | 0 <= i < j < |items| :: items[i] != items[j]
  }

  lemma {:induction false} InsertKeepsItems(x: int, sorted: seq<int>, key: int -> Key)
    ensures multiset(Insert(x, sorted, key)) == multiset(sorted) + multiset{x}
    decreases |sorted|
  {
    if sorted != [] && !AtMost(key(x), key(sorted[0])) {
      InsertKeepsItems(x, sorted[1..], key);
      assert sorted == [sorted[0]] + sorted[1..];
    }
  }

  lemma {:induction false} InsertSorts(x: int, sorted: seq<int>, key: int -> Key)
    requires SortedBy(sorted, key)
    ensures SortedBy(Insert(x, sorted, key), key)
    decreases |sorted|
  {
    if sorted != [] && !AtMost(key(x), key(sorted[0])) {
      var rest := Insert(x, sorted[1..], key);
      InsertSorts(x, sorted[1..], key);
      InsertKeepsItems(x, sorted[1..], key);
      forall j | 0 <= j < |rest| ensures AtMost(key(sorted[0]), key(rest[j])) {
        assert rest[j] in multiset(rest);
        if rest[j] != x {
          assert rest[j] in multiset(sorted[1..]);
          assert rest[j] in sorted[1..];
        }
      }
    }
  }

  /** The result is sorted and holds the same items. */
  lemma {:induction false} SortSorts(items: seq<int>, key: int -> Key)
    ensures SortedBy(SortBy(items, key), key)
    ensures multiset(SortBy(items, key)) == multiset(items)
    ensures |SortBy(items, key)| == |items|
    decreases |items|
  {
    if items != [] {
      SortSorts(items[1..], key);
      InsertSorts(items[0], SortBy(items[1..], key), key);
      InsertKeepsItems(items[0], SortBy(items[1..], key), key);
      assert items == [items[0]] + items[1..];
    }
    assert |multiset(SortBy(items, key))| == |multiset(items)|;
  }

  lemma SortedItems(items: seq<int>, key: int -> Key)
    ensures forall x :: x in SortBy(items, key) <==> x in items
  {
    SortSorts(items, key);
    forall x ensures x in SortBy(items, key) <==> x in items {
      assert x in multiset(SortBy(items, key)) <==> x in multiset(items);
    }
  }

  lemma DistinctByCount(items: seq<int>)
    requires forall x :: x in items ==> multiset(items)[x] == 1
    ensures Distinct(items)
  {
    forall i, j | 0 <= i < j < |items| ensures items[i] != items[j] {
      var x := items[j];
      assert items == items[..j] + [x] + items[j + 1..];
      assert multiset(items)[x] == multiset(items[..j])[x] + 1 + multiset(items[j + 1..])[x];
      assert x in items && x !in items[..j];
      assert items[..j][i] == items[i];
    }
  }

  lemma {:induction false} CountOfDistinct(items: seq<int>, x: int)
    requires Distinct(items) && x in items
    ensures multiset(items)[x] == 1
    decreases |items|
  {
    var n := |items| - 1;
    assert items == items[..n] + [items[n]];
    if items[n] == x {
      assert x !in items[..n];
    } else {
      CountOfDistinct(items[..n], x);
    }
  }

  lemma SortKeepsDistinct(items: seq<int>, key: int -> Key)
    requires Distinct(items)
    ensures Distinct(SortBy(items, key))
  {
    SortSorts(items, key);
    var sorted := SortBy(items, key);
    forall x | x in sorted ensures multiset(sorted)[x] == 1 {
      assert x in multiset(items);
      CountOfDistinct(items, x);
    }
    DistinctByCount(sorted);
  }
}
