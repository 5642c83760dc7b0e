/** Small shared vocabulary: optional values and the guard that turns a refused check into "no result". */
module Prelude {

  /** A value that may be absent; a SQL NULL, or the outcome of a refused statement. */
  datatype Option<+T> = None | Some(value: T) {
    predicate IsFailure() {
      None?
    }

    function PropagateFailure<U>(): Option<U>
      requires None?
    {
      None
    }

    function Extract(): T
      requires Some?
    {
      value
    }
  }

  /** The outcome of one check inside a statement. */
  datatype Check = Passed | Refused {
    predicate IsFailure() {
      Refused?
    }

    function PropagateFailure<U>(): Option<U>
      requires Refused?
    {
      None
    }
  }

  function Need(condition: bool): Check {
    if condition then Passed else Refused
  }

  function Min(x: int, y: int): int {
    if x <= y then x else y
  }

  function Max(x: int, y: int): int {
    if x <= y then y else x
  }
}

/** Sums over finite maps: the arithmetic behind the storage counters and the measured rows. */
module MapSums {

  /** The sum of all values of a map. The choice of key does not matter: see TotalRemove. */
  ghost function Total<K(!new)>(m: map<K, int>): int {
    if m == map[] then 0 else
      var k :| k in m;
      m[k] + Total(m - {k})
  }

  lemma EmptyTotal<K(!new)>(m: map<K, int>)
    requires m.Keys == {}
    ensures Total(m) == 0
  {
    assert m == map[];
  }

  lemma {:induction false} TotalRemove<K(!new)>(m: map<K, int>, k: K)
    requires k in m
    ensures Total(m) == m[k] + Total(m - {k})
    decreases |m|
  {
    var c :| c in m && Total(m) == m[c] + Total(m - {c});
    if c != k {
      TotalRemove(m - {c}, k);
      TotalRemove(m - {k}, c);
      assert m - {c} - {k} == m - {k} - {c};
    }
  }

  lemma TotalUpdate<K(!new)>(m: map<K, int>, k: K, v: int)
    ensures Total(m[k := v]) == Total(m) + v - (if k in m then m[k] else 0)
  {
    var n := m[k := v];
    TotalRemove(n, k);
    if k in m {
      TotalRemove(m, k);
      assert n - {k} == m - {k};
    } else {
      assert n - {k} == m;
    }
  }

  /** `m` is `a` and `b` side by side. */
  ghost predicate Splits<K(!new)>(m: map<K, int>, a: map<K, int>, b: map<K, int>) {
    && m.Keys == a.Keys + b.Keys
    && a.Keys !! b.Keys
    && (forall k :: k in a ==> m[k] == a[k])
    && (forall k :: k in b ==> m[k] == b[k])
  }

  /** Splitting the keys in two splits the sum. */
  lemma {:induction false} TotalSplit<K(!new)>(m: map<K, int>, a: map<K, int>, b: map<K, int>)
    requires Splits(m, a, b)
    ensures Total(m) == Total(a) + Total(b)
    decreases |a|
  {
    if a == map[] {
      assert m == b;
    } else {
      var k :| k in a;
      SplitsWithout(m, a, b, k);
      TotalSplit(m - {k}, a - {k}, b);
      TotalRemove(a, k);
      TotalRemove(m, k);
    }
  }

  lemma SplitsWithout<K(!new)>(m: map<K, int>, a: map<K, int>, b: map<K, int>, k: K)
    requires Splits(m, a, b) && k in a
    ensures Splits(m - {k}, a - {k}, b) && k in m && m[k] == a[k]
  {
    assert (m - {k}).Keys == (a - {k}).Keys + b.Keys;
  }

  lemma {:induction false} TotalNonNegative<K(!new)>(m: map<K, int>)
    requires forall k :: k in m ==> m[k] >= 0
    ensures Total(m) >= 0
    ensures forall k :: k in m ==> m[k] <= Total(m)
    decreases |m|
  {
    if m != map[] {
      forall k | k in m ensures m[k] <= Total(m) && Total(m) >= 0 {
        TotalRemove(m, k);
        TotalNonNegative(m - {k});
      }
      var k :| k in m;
      assert m[k] <= Total(m);
    }
  }

  lemma {:induction false} TotalNonPositive<K(!new)>(m: map<K, int>)
    requires forall k :: k in m ==> m[k] <= 0
    ensures Total(m) <= 0
    decreases |m|
  {
    if m != map[] {
      var k :| k in m;
      TotalRemove(m, k);
      TotalNonPositive(m - {k});
    }
  }

  lemma {:induction false} TotalOfOnes<K(!new)>(m: map<K, int>)
    requires forall k :: k in m ==> m[k] == 1
    ensures Total(m) == |m|
    decreases |m|
  {
    if m != map[] {
      var k :| k in m;
      TotalRemove(m, k);
      TotalOfOnes(m - {k});
      assert |m - {k}| == |m| - 1 by {
        assert (m - {k}).Keys == m.Keys - {k};
      }
    }
  }

  /** A map whose values are all at most one sums to at most the number of its keys. */
  lemma {:induction false} TotalAtMostSize<K(!new)>(m: map<K, int>)
    requires forall k :: k in m ==> m[k] <= 1
    ensures Total(m) <= |m|
    decreases |m|
  {
    if m != map[] {
      var k :| k in m;
      TotalRemove(m, k);
      TotalAtMostSize(m - {k});
      assert |m - {k}| == |m| - 1 by {
        assert (m - {k}).Keys == m.Keys - {k};
      }
    }
  }

  /** Dominated values give a dominated sum, key by key. */
  lemma {:induction false} TotalMonotone<K(!new)>(m: map<K, int>, n: map<K, int>)
    requires m.Keys == n.Keys
    requires forall k :: k in m ==> m[k] <= n[k]
    ensures Total(m) <= Total(n)
    decreases |m|
  {
    if m == map[] {
      assert n == map[];
    } else {
      var k :| k in m;
      TotalRemove(m, k);
      TotalRemove(n, k);
      TotalMonotone(m - {k}, n - {k});
    }
  }
}

/** Counting finite sets against each other and against lists. */
module FiniteSets {

  lemma Pick<T>(s: set<T>) returns (x: T)
    requires s != {}
    ensures x in s
  {
    x :| x in s;
  }

  lemma {:induction false} SubsetOfSameSize<T>(a: set<T>, b: set<T>)
    requires a <= b && |a| == |b|
    ensures a == b
    decreases |a|
  {
    if a != {} {
      var x :| x in a;
      SubsetOfSameSize(a - {x}, b - {x});
      assert a == (a - {x}) + {x} && b == (b - {x}) + {x};
    }
  }

  lemma {:induction false} AtMostSize<T>(items: set<T>, list: seq<T>)
    requires forall x :: x in items ==> x in list
    ensures |items| <= |list|
    decreases |list|
  {
    if list != [] {
      var n := |list| - 1;
      AtMostSize(items - {list[n]}, list[..n]);
    } else {
      assert items == {};
    }
  }

  lemma {:induction false} AtLeastSize<T>(items: set<T>, list: seq<T>)
    requires (forall i, j | 0 <= i < j < |list| :: list[i] != list[j]) && forall x :: x in list ==> x in items
    ensures |items| >= |list|
    decreases |list|
  {
    if list != [] {
      var n := |list| - 1;
      assert list[n] in list && list[n] !in list[..n];
      AtLeastSize(items - {list[n]}, list[..n]);
    }
  }
}
