/** Largest-remainder apportionment of a card target over chunks, in exact arithmetic. */
module Hamilton {
  import opened Prelude
  import opened Chunks
  import opened Ordering

  function Weight(chunk: Chunk): int {
    Max(1, chunk.tokens)
  }

  function Weights(chunks: seq<Chunk>): seq<int> {
    seq(|chunks|, i requires 0 <= i < |chunks| => Weight(chunks[i]))
  }

  /** The exact quota of a chunk is `target * weight / total`; these are its whole part and its remainder over `total`. */
  function Whole(target: int, weight: int, total: int): int
    requires total > 0
  {
    target * weight / total
  }

  function Remainder(target: int, weight: int, total: int): int
    requires total > 0
  {
    target * weight % total
  }

  function Wholes(target: int, weights: seq<int>, total: int): seq<int>
    requires total > 0
  {
    seq(|weights|, i requires 0 <= i < |weights| => Whole(target, weights[i], total))
  }

  function Remainders(target: int, weights: seq<int>, total: int): seq<int>
    requires total > 0
  {
    seq(|weights|, i requires 0 <= i < |weights| => Remainder(target, weights[i], total))
  }

  /** Shares that fill the target, each the whole part of its quota or one more, the extra seats going to the largest remainders. */
  ghost predicate Apportioned(shares: seq<int>, target: int, weights: seq<int>, total: int)
    requires total > 0
  {
    && |shares| == |weights| && Sum(shares) == target
    && (forall i :: 0 <= i < |shares| ==>
          shares[i] == Whole(target, weights[i], total) || shares[i] == Whole(target, weights[i], total) + 1)
    && (forall i, j :: 0 <= i < |shares| && 0 <= j < |shares| ==>
          shares[i] == Whole(target, weights[i], total) && shares[j] == Whole(target, weights[j], total) + 1 ==>
          Precedes(Remainder(target, weights[j], total), j, Remainder(target, weights[i], total), i))
  }

  /** A larger remainder comes first; equal remainders go by position. */
  predicate Precedes(r: int, i: int, s: int, j: int) {
    r > s || (r == s && i < j)
  }

  lemma {:induction false} WeightsPositive(chunks: seq<Chunk>)
    ensures Sum(Weights(chunks)) >= |chunks|
    decreases |chunks|
  {
    if chunks != [] {
      var n := |chunks| - 1;
      WeightsPositive(chunks[..n]);
      assert Weights(chunks)[..n] == Weights(chunks[..n]);
    }
  }

  /** Whole parts and remainders together make up the target exactly. */
  lemma {:induction false} QuotasAddUp(target: int, weights: seq<int>, total: int)
    requires total > 0
    ensures total * Sum(Wholes(target, weights, total)) + Sum(Remainders(target, weights, total)) == target * Sum(weights)
    ensures 0 <= Sum(Remainders(target, weights, total)) <= |weights| * (total - 1)
    decreases |weights|
  {
    if weights != [] {
      hide Whole, Remainder, Sum, Wholes, Remainders;
      var n, w := |weights| - 1, weights[|weights| - 1];
      QuotasAddUp(target, weights[..n], total);
      LastQuota(target, weights, total);
      OneQuota(target, w, total);
      Combine(total, target, Sum(Wholes(target, weights[..n], total)), Whole(target, w, total), Sum(weights[..n]), w,
              Sum(Remainders(target, weights[..n], total)), Remainder(target, w, total), n);
    }
  }

  lemma Combine(total: int, target: int, a: int, b: int, s: int, w: int, q: int, r: int, n: int)
    requires total * a + q == target * s && target * w == total * b + r
    requires q <= n * (total - 1) && r <= total - 1
    ensures total * (a + b) + (q + r) == target * (s + w)
    ensures q + r <= (n + 1) * (total - 1)
  {
    Distribute(total, a, b);
    Distribute(target, s, w);
    Distribute(total - 1, n, 1);
  }

  lemma LastQuota(target: int, weights: seq<int>, total: int)
    requires total > 0 && weights != []
    ensures var n, w := |weights| - 1, weights[|weights| - 1];
            && Sum(weights) == Sum(weights[..n]) + w
            && Sum(Wholes(target, weights, total)) == Sum(Wholes(target, weights[..n], total)) + Whole(target, w, total)
            && Sum(Remainders(target, weights, total)) == Sum(Remainders(target, weights[..n], total)) + Remainder(target, w, total)
  {
    hide Whole, Remainder;
    var n := |weights| - 1;
    assert Wholes(target, weights, total)[..n] == Wholes(target, weights[..n], total);
    assert Remainders(target, weights, total)[..n] == Remainders(target, weights[..n], total);
  }

  lemma OneQuota(target: int, weight: int, total: int)
    requires total > 0
    ensures target * weight == total * Whole(target, weight, total) + Remainder(target, weight, total)
    ensures 0 <= Remainder(target, weight, total) <= total - 1
  {
  }

  lemma Distribute(a: int, b: int, c: int)
    ensures a * (b + c) == a * b + a * c
  {
  }

  lemma FewerThan(total: int, left: int, n: int)
    requires total > 0 && 0 <= total * left <= n * (total - 1) && n > 0
    ensures 0 <= left < n
  {
  }

  /** Fewer seats remain after rounding down than there are chunks. */
  lemma SeatsLeft(target: int, weights: seq<int>, total: int)
    requires total > 0 && total == Sum(weights) && weights != []
    ensures 0 <= target - Sum(Wholes(target, weights, total)) < |weights|
  {
    hide Sum, Wholes, Remainders;
    QuotasAddUp(target, weights, total);
    var whole := Sum(Wholes(target, weights, total));
    Distribute(total, whole, target - whole);
    FewerThan(total, target - whole, |weights|);
  }

  function Positions(n: nat): seq<int> {
    seq(n, i => i)
  }

  /** `allocate_card_targets`; a target below one or an empty document is refused. */
  method AllocateCardTargets(chunks: seq<Chunk>, target: int)
    returns (allocation: Option<map<ChunkId, int>>, ghost shares: seq<int>)
    requires DistinctIds(chunks)
    ensures allocation.None? <==> target < 1 || chunks == []
    ensures allocation.Some? ==>
              && Sum(Weights(chunks)) > 0
              && Apportioned(shares, target, Weights(chunks), Sum(Weights(chunks)))
              && allocation.value.Keys == Ids(chunks)
              && forall i | 0 <= i < |chunks| :: allocation.value[chunks[i].id] == shares[i]
  {
    hide *;
    shares := [];
    if target < 1 || chunks == [] {
      return None, [];
    }
    var weights := Weights(chunks);
    var total := Sum(weights);
    WeightsPositive(chunks);
    OneEach(chunks);
    SeatsLeft(target, weights, total);
    var remaining := target - Sum(Wholes(target, weights, total));
    var order := SortBy(Positions(|chunks|), RankBy(target, weights, total));
    OrderOf(target, weights, total, order);
    var allocations := GiveSeats(target, weights, total, order, remaining);
    var shared := Shared(chunks, allocations);
    return Some(shared), allocations;
  }

  lemma OneEach(chunks: seq<Chunk>)
    ensures |Weights(chunks)| == |chunks|
  {
  }

  /** Rounding down, then one more seat each in order. */
  method GiveSeats(target: int, weights: seq<int>, total: int, order: seq<int>, remaining: nat) returns (allocations: seq<int>)
    requires total > 0 && Ranked(target, weights, total, order) && remaining <= |weights|
    requires remaining == target - Sum(Wholes(target, weights, total))
    ensures |allocations| == |weights| && Apportioned(allocations, target, weights, total)
  {
    allocations := Wholes(target, weights, total);
    hide Wholes, Sum, Whole, Remainder, Precedes;
    for k := 0 to remaining
      invariant |allocations| == |weights|
      invariant Sum(allocations) == Sum(Wholes(target, weights, total)) + k
      invariant forall i | 0 <= i < |weights| ::
                  allocations[i] == Whole(target, weights[i], total) + (if i in order[..k] then 1 else 0)
    {
      var index := order[k];
      NotBefore(order, k);
      SumUpdate(allocations, index, allocations[index] + 1);
      allocations := allocations[index := allocations[index] + 1];
    }
    SeatsGoInOrder(target, weights, total, order, remaining, allocations);
  }

  lemma NotBefore(order: seq<int>, k: nat)
    requires Distinct(order) && k < |order|
    ensures order[k] !in order[..k] && order[..k + 1] == order[..k] + [order[k]]
  {
  }

  method Shared(chunks: seq<Chunk>, shares: seq<int>) returns (allocation: map<ChunkId, int>)
    requires DistinctIds(chunks) && |shares| == |chunks|
    ensures allocation.Keys == Ids(chunks)
    ensures forall i | 0 <= i < |chunks| :: allocation[chunks[i].id] == shares[i]
  {
    allocation := map[];
    for i := 0 to |chunks|
      invariant allocation.Keys == Ids(chunks[..i])
      invariant forall k | 0 <= k < i :: allocation[chunks[k].id] == shares[k]
    {
      assert chunks[..i + 1] == chunks[..i] + [chunks[i]];
      allocation := allocation[chunks[i].id := shares[i]];
    }
    assert chunks[..|chunks|] == chunks;
  }

  function RankKey(target: int, weights: seq<int>, total: int, i: int): Key
    requires total > 0
  {
    if 0 <= i < |weights| then Key(-Remainder(target, weights[i], total), i, 0) else Key(0, i, 0)
  }

  function RankBy(target: int, weights: seq<int>, total: int): int -> Key
    requires total > 0
  {
    i => RankKey(target, weights, total, i)
  }

  /** The order lists every position once, larger remainders first. */
  ghost predicate Ranked(target: int, weights: seq<int>, total: int, order: seq<int>)
    requires total > 0
  {
    && |order| == |weights| && Distinct(order)
    && (forall k :: 0 <= k < |order| ==> 0 <= order[k] < |weights|)
    && (forall i :: 0 <= i < |weights| ==> i in order)
    && (forall a, b :: 0 <= a < b < |order| ==>
          Precedes(Remainder(target, weights[order[a]], total), order[a], Remainder(target, weights[order[b]], total), order[b]))
  }

  lemma OrderOf(target: int, weights: seq<int>, total: int, order: seq<int>)
    requires total > 0 && order == SortBy(Positions(|weights|), RankBy(target, weights, total))
    ensures Ranked(target, weights, total, order)
  {
    hide SortBy, Remainder;
    var key := RankBy(target, weights, total);
    SortSorts(Positions(|weights|), key);
    SortedItems(Positions(|weights|), key);
    SortKeepsDistinct(Positions(|weights|), key);
    forall a, b | 0 <= a < b < |order|
      ensures 0 <= order[a] < |weights| && 0 <= order[b] < |weights|
      ensures Precedes(Remainder(target, weights[order[a]], total), order[a], Remainder(target, weights[order[b]], total), order[b])
    {
      assert order[a] in order && order[b] in order;
      assert AtMost(key(order[a]), key(order[b])) && order[a] in Positions(|weights|) && order[b] in Positions(|weights|);
    }
    forall k | 0 <= k < |order| ensures 0 <= order[k] < |weights| {
      assert order[k] in order && order[k] in Positions(|weights|);
    }
    forall i | 0 <= i < |weights| ensures i in order {
      assert Positions(|weights|)[i] == i;
    }
  }

  lemma SeatsGoInOrder(target: int, weights: seq<int>, total: int, order: seq<int>, seats: nat, shares: seq<int>)
    requires total > 0 && Ranked(target, weights, total, order) && seats <= |order|
    requires |shares| == |weights| && Sum(shares) == target
    requires forall i | 0 <= i < |weights| :: shares[i] == Whole(target, weights[i], total) + (if i in order[..seats] then 1 else 0)
    ensures Apportioned(shares, target, weights, total)
  {
    hide Sum, Whole, Remainder, Precedes, Distinct;
    forall b | 0 <= b < seats ensures order[b] in order[..seats] {
      assert order[..seats][b] == order[b];
    }
    forall i, j | 0 <= i < |shares| && 0 <= j < |shares|
      && shares[i] == Whole(target, weights[i], total) && shares[j] == Whole(target, weights[j], total) + 1
      ensures Precedes(Remainder(target, weights[j], total), j, Remainder(target, weights[i], total), i)
    {
      var a :| 0 <= a < seats && order[a] == j;
      assert i in order;
      var b :| 0 <= b < |order| && order[b] == i;
    }
  }
}
