/** Adaptive allocation: new evidence first, round-robin over pages, then the evidence that has been productive. */
module Adaptive {
  import opened Prelude
  import opened FiniteSets
  import opened Chunks
  import opened Ordering

  type Tally = map<ChunkId, nat>

  function Count(tally: Tally, id: ChunkId): nat {
    if id in tally then tally[id] else 0
  }

  predicate Unseen(chunks: seq<Chunk>, requested: Tally, i: int) {
    0 <= i < |chunks| && Count(requested, chunks[i].id) == 0
  }

  lemma HasElement(s: set<int>)
    requires s != {}
    ensures exists x: int :: x in s
  {
    var x := Pick(s);
  }

  // Grouping by page

  ghost predicate Lists(chunks: seq<Chunk>, pages: map<int, seq<int>>, i: int) {
    0 <= i < |chunks| && chunks[i].page in pages && i in pages[chunks[i].page]
  }

  /** A page lists chunks of its own, each once. */
  ghost predicate PageList(chunks: seq<Chunk>, n: nat, page: int, list: seq<int>)
    requires n <= |chunks|
  {
    Distinct(list) && forall k :: 0 <= k < |list| ==> 0 <= list[k] < n && chunks[list[k]].page == page
  }

  ghost predicate LeastFirst(chunks: seq<Chunk>, requested: Tally, list: seq<int>) {
    forall a, b :: 0 <= a < b < |list| && 0 <= list[a] < |chunks| && 0 <= list[b] < |chunks| ==>
      Count(requested, chunks[list[a]].id) <= Count(requested, chunks[list[b]].id)
  }

  /** Each page lists its chunks among the first `n`. */
  ghost predicate Listed(chunks: seq<Chunk>, n: nat, pages: map<int, seq<int>>)
    requires n <= |chunks|
  {
    && (forall i :: 0 <= i < n ==> Lists(chunks, pages, i))
    && (forall p :: p in pages ==> PageList(chunks, n, p, pages[p]))
  }

  /** Each page lists its chunks once, the least requested first. */
  ghost predicate Grouped(chunks: seq<Chunk>, requested: Tally, pages: map<int, seq<int>>) {
    Listed(chunks, |chunks|, pages) && forall p :: p in pages ==> LeastFirst(chunks, requested, pages[p])
  }

  function PageKey(chunks: seq<Chunk>, requested: Tally): int -> Key {
    i => if 0 <= i < |chunks| then Key(Count(requested, chunks[i].id), i, 0) else Key(0, i, 0)
  }

  method GroupByPage(chunks: seq<Chunk>, requested: Tally) returns (pages: map<int, seq<int>>)
    ensures Grouped(chunks, requested, pages)
  {
    pages := map[];
    for i := 0 to |chunks|
      invariant Listed(chunks, i, pages)
    {
      hide Listed;
      var p := chunks[i].page;
      var listed := if p in pages then pages[p] else [];
      AddToPage(chunks, i, pages);
      pages := pages[p := listed + [i]];
    }
    ghost var unsorted := pages;
    var todo: set<int> := pages.Keys;
    while todo != {}
      invariant todo <= pages.Keys == unsorted.Keys
      invariant forall p :: p in unsorted ==>
                  pages[p] == if p in todo then unsorted[p] else SortBy(unsorted[p], PageKey(chunks, requested))
      decreases |todo|
    {
      HasElement(todo);
      var p: int :| p in todo;
      pages := pages[p := SortBy(pages[p], PageKey(chunks, requested))];
      todo := todo - {p};
    }
    SortedPages(chunks, requested, unsorted, pages);
  }

  lemma AddToPage(chunks: seq<Chunk>, i: nat, pages: map<int, seq<int>>)
    requires i < |chunks| && Listed(chunks, i, pages)
    ensures var p := chunks[i].page; Listed(chunks, i + 1, pages[p := (if p in pages then pages[p] else []) + [i]])
  {
    hide Distinct, PageList, Lists;
    var p: int := chunks[i].page;
    var listed := if p in pages then pages[p] else [];
    var next := pages[p := listed + [i]];
    assert PageList(chunks, i, p, listed) by {
      NoList(chunks, i, p);
    }
    forall k | 0 <= k < i + 1 ensures Lists(chunks, next, k) {
      if k < i {
        assert Lists(chunks, pages, k);
      }
      StillListed(chunks, pages, i, k);
    }
    forall q | q in next ensures PageList(chunks, i + 1, q, next[q]) {
      if q == p {
        LongerList(chunks, i, p, listed);
      } else {
        WiderList(chunks, i, q, pages[q]);
      }
    }
  }

  lemma NoList(chunks: seq<Chunk>, n: nat, page: int)
    requires n <= |chunks|
    ensures PageList(chunks, n, page, [])
  {
  }

  lemma StillListed(chunks: seq<Chunk>, pages: map<int, seq<int>>, i: nat, k: nat)
    requires i < |chunks| && k <= i && (k < i ==> Lists(chunks, pages, k))
    ensures var p := chunks[i].page; Lists(chunks, pages[p := (if p in pages then pages[p] else []) + [i]], k)
  {
    var p: int := chunks[i].page;
    var listed := if p in pages then pages[p] else [];
    assert (listed + [i])[|listed|] == i;
    assert forall x :: x in listed ==> x in listed + [i];
  }

  lemma LongerList(chunks: seq<Chunk>, i: nat, page: int, list: seq<int>)
    requires i < |chunks| && chunks[i].page == page && PageList(chunks, i, page, list)
    ensures PageList(chunks, i + 1, page, list + [i])
  {
  }

  lemma WiderList(chunks: seq<Chunk>, i: nat, page: int, list: seq<int>)
    requires i < |chunks| && PageList(chunks, i, page, list)
    ensures PageList(chunks, i + 1, page, list)
  {
  }

  lemma SortedPages(chunks: seq<Chunk>, requested: Tally, unsorted: map<int, seq<int>>, pages: map<int, seq<int>>)
    requires Listed(chunks, |chunks|, unsorted) && pages.Keys == unsorted.Keys
    requires forall p :: p in pages ==> pages[p] == SortBy(unsorted[p], PageKey(chunks, requested))
    ensures Grouped(chunks, requested, pages)
  {
    hide SortBy, PageList, LeastFirst;
    var key := PageKey(chunks, requested);
    forall p | p in pages
      ensures PageList(chunks, |chunks|, p, pages[p]) && LeastFirst(chunks, requested, pages[p])
      ensures forall x :: x in pages[p] <==> x in unsorted[p]
    {
      SortedPage(chunks, requested, p, unsorted[p]);
    }
    forall i | 0 <= i < |chunks| ensures Lists(chunks, pages, i) {
      assert Lists(chunks, unsorted, i);
    }
  }

  lemma SortedPage(chunks: seq<Chunk>, requested: Tally, page: int, list: seq<int>)
    requires PageList(chunks, |chunks|, page, list)
    ensures var sorted := SortBy(list, PageKey(chunks, requested));
            && PageList(chunks, |chunks|, page, sorted) && LeastFirst(chunks, requested, sorted)
            && forall x :: x in sorted <==> x in list
  {
    hide SortBy, Distinct;
    var key := PageKey(chunks, requested);
    var sorted := SortBy(list, key);
    SortSorts(list, key);
    SortedItems(list, key);
    SortKeepsDistinct(list, key);
    forall k | 0 <= k < |sorted| ensures 0 <= sorted[k] < |chunks| && chunks[sorted[k]].page == page {
      assert sorted[k] in sorted && sorted[k] in list;
    }
    forall a, b | 0 <= a < b < |sorted|
      ensures Count(requested, chunks[sorted[a]].id) <= Count(requested, chunks[sorted[b]].id)
    {
      assert AtMost(key(sorted[a]), key(sorted[b]));
    }
  }

  // Ranks

  function RankIn(list: seq<int>, x: int): nat {
    if list == [] || list[0] == x then 0 else 1 + RankIn(list[1..], x)
  }

  lemma {:induction false} RankAt(list: seq<int>, k: nat)
    requires k < |list| && Distinct(list)
    ensures RankIn(list, list[k]) == k
    decreases |list|
  {
    if k > 0 {
      RankAt(list[1..], k - 1);
    }
  }

  lemma {:induction false} RankFinds(list: seq<int>, x: int)
    requires x in list
    ensures RankIn(list, x) < |list| && list[RankIn(list, x)] == x
    decreases |list|
  {
    if list[0] != x {
      RankFinds(list[1..], x);
    }
  }

  /** A chunk's place in its page's list: the round in which the page offers it. */
  function Rank(chunks: seq<Chunk>, pages: map<int, seq<int>>, x: int): nat {
    if 0 <= x < |chunks| && chunks[x].page in pages then RankIn(pages[chunks[x].page], x) else 0
  }

  lemma RankOf(chunks: seq<Chunk>, requested: Tally, pages: map<int, seq<int>>, p: int, k: nat)
    requires Grouped(chunks, requested, pages) && p in pages && k < |pages[p]|
    ensures 0 <= pages[p][k] < |chunks| && chunks[pages[p][k]].page == p && Rank(chunks, pages, pages[p][k]) == k
  {
    hide LeastFirst, Lists, Distinct;
    assert PageList(chunks, |chunks|, p, pages[p]);
    RankAt(pages[p], k);
  }

  lemma RankLocates(chunks: seq<Chunk>, requested: Tally, pages: map<int, seq<int>>, x: int)
    requires Grouped(chunks, requested, pages) && 0 <= x < |chunks|
    ensures chunks[x].page in pages && Rank(chunks, pages, x) < |pages[chunks[x].page]|
    ensures pages[chunks[x].page][Rank(chunks, pages, x)] == x
  {
    hide PageList, LeastFirst;
    assert Lists(chunks, pages, x);
    RankFinds(pages[chunks[x].page], x);
  }

  // Round robin

  ghost predicate Rising(chunks: seq<Chunk>, pages: map<int, seq<int>>, items: seq<int>) {
    forall a, b :: 0 <= a < b < |items| ==> Rank(chunks, pages, items[a]) <= Rank(chunks, pages, items[b])
  }

  /** Every chunk once, in rounds: no chunk comes after one of a later round. */
  ghost predicate InRounds(chunks: seq<Chunk>, pages: map<int, seq<int>>, ordered: seq<int>) {
    && Distinct(ordered) && Rising(chunks, pages, ordered)
    && forall x :: x in ordered <==> 0 <= x < |chunks|
  }

  function From(list: seq<int>, r: nat): seq<int> {
    if r <= |list| then list[r..] else []
  }

  /** What the pages have left when those in `ahead` have had round `r`, and the others not yet. */
  ghost predicate Remaining(pages: map<int, seq<int>>, rest: map<int, seq<int>>, r: nat, ahead: set<int>) {
    && rest.Keys == pages.Keys
    && forall p :: p in pages ==> rest[p] == From(pages[p], if p in ahead then r + 1 else r)
  }

  ghost predicate HadTurn(chunks: seq<Chunk>, pages: map<int, seq<int>>, r: nat, ahead: set<int>, x: int) {
    0 <= x < |chunks| && Rank(chunks, pages, x) < if chunks[x].page in ahead then r + 1 else r
  }

  /** The chunks that had their turn by then, in rounds. */
  ghost predicate Taken(chunks: seq<Chunk>, pages: map<int, seq<int>>, ordered: seq<int>, r: nat, ahead: set<int>) {
    && Distinct(ordered) && Rising(chunks, pages, ordered)
    && forall x :: x in ordered <==> HadTurn(chunks, pages, r, ahead, x)
  }

  ghost predicate MidRound(chunks: seq<Chunk>, pages: map<int, seq<int>>, rest: map<int, seq<int>>, ordered: seq<int>, r: nat, ahead: set<int>) {
    Remaining(pages, rest, r, ahead) && Taken(chunks, pages, ordered, r, ahead)
  }

  /** A bound on the number of rounds. */
  function Longest(pages: map<int, seq<int>>, order: seq<int>): nat
  {
    if order == [] then 0 else
      var rest, here := Longest(pages, order[1..]), if order[0] in pages then |pages[order[0]]| else 0;
      if rest >= here then rest else here
  }

  lemma {:induction false} LongestBounds(pages: map<int, seq<int>>, order: seq<int>)
    ensures forall p :: p in order && p in pages ==> |pages[p]| <= Longest(pages, order)
    decreases |order|
  {
    if order != [] {
      LongestBounds(pages, order[1..]);
      forall p | p in order && p in pages ensures |pages[p]| <= Longest(pages, order) {
        assert p == order[0] || p in order[1..];
      }
    }
  }

  method RoundRobin(chunks: seq<Chunk>, ghost requested: Tally, pages: map<int, seq<int>>, pageOrder: seq<int>) returns (ordered: seq<int>)
    requires Grouped(chunks, requested, pages)
    requires Distinct(pageOrder) && forall p :: p in pageOrder <==> p in pages
    ensures InRounds(chunks, pages, ordered)
  {
    hide *;
    ordered := [];
    var rest := pages;
    ghost var r: nat, longest := 0, Longest(pages, pageOrder);
    LongestBounds(pages, pageOrder);
    RoundsBegin(chunks, pages);
    while exists p | p in rest :: rest[p] != []
      invariant MidRound(chunks, pages, rest, ordered, r, {})
      decreases longest - r
    {
      StillOffering(chunks, pages, pageOrder, rest, ordered, r);
      ghost var ahead: set<int> := {};
      for j := 0 to |pageOrder|
        invariant forall p :: p in ahead <==> p in pageOrder[..j]
        invariant MidRound(chunks, pages, rest, ordered, r, ahead)
      {
        var p := pageOrder[j];
        NotYetAhead(pageOrder, j);
        Offer(chunks, requested, pages, rest, ordered, r, ahead, p);
        if rest[p] != [] {
          ordered := ordered + [rest[p][0]];
          rest := rest[p := rest[p][1..]];
        }
        ahead := ahead + {p};
        assert pageOrder[..j + 1] == pageOrder[..j] + [p];
      }
      assert pageOrder[..|pageOrder|] == pageOrder;
      RoundOver(chunks, requested, pages, rest, ordered, r, ahead);
      r := r + 1;
    }
    AllOffered(chunks, requested, pages, rest, ordered, r);
  }

  lemma NotYetAhead(order: seq<int>, j: nat)
    requires j < |order| && Distinct(order)
    ensures order[j] in order && order[j] !in order[..j]
  {
  }

  lemma RoundsBegin(chunks: seq<Chunk>, pages: map<int, seq<int>>)
    ensures MidRound(chunks, pages, pages, [], 0, {})
  {
  }

  lemma StillOffering(chunks: seq<Chunk>, pages: map<int, seq<int>>, order: seq<int>, rest: map<int, seq<int>>, ordered: seq<int>, r: nat)
    requires MidRound(chunks, pages, rest, ordered, r, {}) && exists p | p in rest :: rest[p] != []
    requires forall p :: p in order <==> p in pages
    requires forall p :: p in order && p in pages ==> |pages[p]| <= Longest(pages, order)
    ensures r < Longest(pages, order)
  {
    hide Longest, Rank, Rising;
    var p :| p in rest && rest[p] != [];
    assert rest[p] == From(pages[p], r);
    assert p in order;
  }

  /** One page's turn in round `r`: it offers its chunk of that rank, if it has one. */
  lemma Offer(chunks: seq<Chunk>, requested: Tally, pages: map<int, seq<int>>, rest: map<int, seq<int>>, ordered: seq<int>, r: nat,
              ahead: set<int>, p: int)
    requires Grouped(chunks, requested, pages) && MidRound(chunks, pages, rest, ordered, r, ahead)
    requires p in pages && p !in ahead
    ensures p in rest
    ensures rest[p] == [] ==> MidRound(chunks, pages, rest, ordered, r, ahead + {p})
    ensures rest[p] != [] ==>
              MidRound(chunks, pages, rest[p := rest[p][1..]], ordered + [rest[p][0]], r, ahead + {p})
  {
    hide Rank, Distinct, Grouped, Rising, HadTurn, Taken;
    assert rest[p] == From(pages[p], r);
    if rest[p] == [] {
      NothingOfRank(chunks, requested, pages, p, r);
      SameTurns(chunks, pages, ordered, r, ahead, p);
    } else {
      OnlyOneOfRank(chunks, requested, pages, p, r);
      NextTurn(chunks, pages, ordered, r, ahead, p);
    }
  }

  lemma SameTurns(chunks: seq<Chunk>, pages: map<int, seq<int>>, ordered: seq<int>, r: nat, ahead: set<int>, p: int)
    requires Taken(chunks, pages, ordered, r, ahead) && p !in ahead
    requires forall x :: 0 <= x < |chunks| && chunks[x].page == p ==> Rank(chunks, pages, x) < r
    ensures Taken(chunks, pages, ordered, r, ahead + {p})
  {
    hide Rank, Distinct, Rising;
    forall x ensures HadTurn(chunks, pages, r, ahead, x) <==> HadTurn(chunks, pages, r, ahead + {p}, x) {
    }
  }

  lemma NextTurn(chunks: seq<Chunk>, pages: map<int, seq<int>>, ordered: seq<int>, r: nat, ahead: set<int>, p: int)
    requires Taken(chunks, pages, ordered, r, ahead) && p !in ahead && p in pages && r < |pages[p]|
    requires var y := pages[p][r]; 0 <= y < |chunks| && chunks[y].page == p && Rank(chunks, pages, y) == r
    requires forall x :: 0 <= x < |chunks| && chunks[x].page == p && Rank(chunks, pages, x) == r ==> x == pages[p][r]
    ensures Taken(chunks, pages, ordered + [pages[p][r]], r, ahead + {p})
  {
    hide Rank, Distinct, Rising;
    var y := pages[p][r];
    forall x ensures HadTurn(chunks, pages, r, ahead + {p}, x) <==> HadTurn(chunks, pages, r, ahead, x) || x == y {
    }
    assert !HadTurn(chunks, pages, r, ahead, y);
    AppendNew(ordered, y);
    RisesTo(chunks, pages, ordered, y, r, ahead);
    forall x ensures x in ordered + [y] <==> x in ordered || x == y {
    }
  }

  lemma NothingOfRank(chunks: seq<Chunk>, requested: Tally, pages: map<int, seq<int>>, p: int, r: nat)
    requires Grouped(chunks, requested, pages) && p in pages && From(pages[p], r) == []
    ensures forall x :: 0 <= x < |chunks| && chunks[x].page == p ==> Rank(chunks, pages, x) < r
    ensures From(pages[p], r + 1) == []
  {
    hide Rank;
    forall x | 0 <= x < |chunks| && chunks[x].page == p ensures Rank(chunks, pages, x) < r {
      RankLocates(chunks, requested, pages, x);
    }
  }

  lemma OnlyOneOfRank(chunks: seq<Chunk>, requested: Tally, pages: map<int, seq<int>>, p: int, r: nat)
    requires Grouped(chunks, requested, pages) && p in pages && From(pages[p], r) != []
    ensures r < |pages[p]| && 0 <= pages[p][r] < |chunks| && chunks[pages[p][r]].page == p
    ensures Rank(chunks, pages, pages[p][r]) == r
    ensures forall x :: 0 <= x < |chunks| && chunks[x].page == p && Rank(chunks, pages, x) == r ==> x == pages[p][r]
    ensures From(pages[p], r)[0] == pages[p][r] && From(pages[p], r)[1..] == From(pages[p], r + 1)
  {
    hide Rank;
    RankOf(chunks, requested, pages, p, r);
    forall x | 0 <= x < |chunks| && chunks[x].page == p && Rank(chunks, pages, x) == r ensures x == pages[p][r] {
      RankLocates(chunks, requested, pages, x);
    }
  }

  lemma RisesTo(chunks: seq<Chunk>, pages: map<int, seq<int>>, ordered: seq<int>, y: int, r: nat, ahead: set<int>)
    requires Rising(chunks, pages, ordered) && Rank(chunks, pages, y) == r
    requires forall x :: x in ordered <==> HadTurn(chunks, pages, r, ahead, x)
    ensures Rising(chunks, pages, ordered + [y])
  {
    hide Rank;
    var next := ordered + [y];
    forall a, b | 0 <= a < b < |next| ensures Rank(chunks, pages, next[a]) <= Rank(chunks, pages, next[b]) {
      if b == |ordered| {
        assert next[a] in ordered && HadTurn(chunks, pages, r, ahead, next[a]);
      }
    }
  }

  lemma AppendNew(items: seq<int>, x: int)
    ensures Distinct(items) && x !in items ==> Distinct(items + [x])
  {
  }

  lemma RoundOver(chunks: seq<Chunk>, requested: Tally, pages: map<int, seq<int>>, rest: map<int, seq<int>>, ordered: seq<int>, r: nat, ahead: set<int>)
    requires Grouped(chunks, requested, pages) && MidRound(chunks, pages, rest, ordered, r, ahead)
    requires forall p :: p in ahead <==> p in pages
    ensures MidRound(chunks, pages, rest, ordered, r + 1, {})
  {
    hide Rank, Distinct, Rising, Lists, PageList, LeastFirst;
    forall x ensures HadTurn(chunks, pages, r, ahead, x) <==> HadTurn(chunks, pages, r + 1, {}, x) {
      if 0 <= x < |chunks| {
        ListedPage(chunks, pages, x);
      }
    }
  }

  lemma ListedPage(chunks: seq<Chunk>, pages: map<int, seq<int>>, x: int)
    requires Listed(chunks, |chunks|, pages) && 0 <= x < |chunks|
    ensures chunks[x].page in pages
  {
    hide PageList;
    assert Lists(chunks, pages, x);
  }

  lemma AllOffered(chunks: seq<Chunk>, requested: Tally, pages: map<int, seq<int>>, rest: map<int, seq<int>>, ordered: seq<int>, r: nat)
    requires Grouped(chunks, requested, pages) && MidRound(chunks, pages, rest, ordered, r, {})
    requires !(exists p | p in rest :: rest[p] != [])
    ensures InRounds(chunks, pages, ordered)
  {
    hide Rank, Distinct, Rising;
    forall x | 0 <= x < |chunks| ensures x in ordered {
      RankLocates(chunks, requested, pages, x);
      assert rest[chunks[x].page] == [];
    }
  }

  // Priorities

  /** The items for which `keep` holds, in order. */
  function Select(items: seq<int>, keep: int -> bool): seq<int> {
    if items == [] then [] else
      var before, last := Select(items[..|items| - 1], keep), items[|items| - 1];
      if keep(last) then before + [last] else before
  }

  lemma {:induction false} SelectKeeps(chunks: seq<Chunk>, pages: map<int, seq<int>>, items: seq<int>, keep: int -> bool)
    requires Distinct(items) && Rising(chunks, pages, items)
    ensures forall x :: x in Select(items, keep) <==> x in items && keep(x)
    ensures Distinct(Select(items, keep)) && Rising(chunks, pages, Select(items, keep))
    decreases |items|
  {
    hide Rank;
    if items != [] {
      var n := |items| - 1;
      assert items == items[..n] + [items[n]];
      SelectKeeps(chunks, pages, items[..n], keep);
      var before := Select(items[..n], keep);
      assert items[n] !in items[..n];
      forall a | 0 <= a < |before| ensures Rank(chunks, pages, before[a]) <= Rank(chunks, pages, items[n]) {
        assert before[a] in before && before[a] in items[..n];
      }
    }
  }

  /** The order in which chunks get slots: the unseen in rounds, then all others. */
  ghost predicate Prioritised(chunks: seq<Chunk>, requested: Tally, pages: map<int, seq<int>>, unseen: seq<int>, seen: seq<int>) {
    && Distinct(unseen) && Rising(chunks, pages, unseen)
    && (forall x :: x in unseen <==> Unseen(chunks, requested, x))
    && Distinct(seen)
    && (forall x :: x in seen <==> 0 <= x < |chunks| && !Unseen(chunks, requested, x))
  }

  function SeenKey(chunks: seq<Chunk>, requested: Tally, accepted: Tally, ordered: seq<int>): int -> Key {
    i => if 0 <= i < |chunks|
         then Key(0 - Count(accepted, chunks[i].id), Count(requested, chunks[i].id), RankIn(ordered, i))
         else Key(0, 0, i)
  }

  method SortedPageNumbers(pages: map<int, seq<int>>) returns (order: seq<int>)
    ensures Distinct(order) && forall p :: p in order <==> p in pages
  {
    hide SortBy;
    var todo, found: seq<int> := pages.Keys, [];
    while todo != {}
      invariant Distinct(found) && forall p :: p in pages <==> p in found || p in todo
      invariant forall p :: p in found ==> p !in todo
      decreases |todo|
    {
      HasElement(todo);
      var p: int :| p in todo;
      AppendNew(found, p);
      todo, found := todo - {p}, found + [p];
    }
    order := SortBy(found, (p: int) => Key(p, 0, 0));
    SortedItems(found, (p: int) => Key(p, 0, 0));
    SortKeepsDistinct(found, (p: int) => Key(p, 0, 0));
  }

  /** Slots are dealt in turn: after `dealt` slots over `n` chunks, this many went to the `k`-th. */
  function Dealt(dealt: nat, n: nat, k: nat): nat
    requires n > 0
  {
    dealt / n + (if k < dealt % n then 1 else 0)
  }

  lemma DealtNext(dealt: nat, n: nat, k: nat)
    requires n > 0 && k < n
    ensures Dealt(dealt + 1, n, k) == Dealt(dealt, n, k) + (if k == dealt % n then 1 else 0)
  {
    Divided(dealt + 1, n, dealt / n + (if dealt % n == n - 1 then 1 else 0), if dealt % n == n - 1 then 0 else dealt % n + 1);
  }

  lemma Divided(a: nat, n: nat, q: nat, r: nat)
    requires n > 0 && r < n && a == n * q + r
    ensures a / n == q && a % n == r
  {
    var d := a / n - q;
    assert n * (a / n) + a % n == a;
    assert n * (q + d) == n * q + n * d;
    SmallMultiple(n, d);
  }

  lemma SmallMultiple(n: nat, d: int)
    requires 0 - n < n * d < n
    ensures d == 0
  {
  }

  function Shares(chunks: seq<Chunk>, allocation: map<ChunkId, int>): seq<int>
    requires Ids(chunks) <= allocation.Keys
  {
    seq(|chunks|, i requires 0 <= i < |chunks| => (assert chunks[i].id in Ids(chunks); allocation[chunks[i].id]))
  }

  predicate Everyone(chunks: seq<Chunk>, priorities: seq<int>) {
    && Distinct(priorities) && priorities != []
    && (forall k | 0 <= k < |priorities| :: 0 <= priorities[k] < |chunks|)
    && (forall i | 0 <= i < |chunks| :: i in priorities)
  }

  /** After `dealt` slots: every chunk has its turns, and together they have all the slots. */
  ghost predicate Deals(chunks: seq<Chunk>, priorities: seq<int>, allocation: map<ChunkId, int>, dealt: nat)
    requires Everyone(chunks, priorities)
  {
    && allocation.Keys == Ids(chunks)
    && (forall k :: 0 <= k < |priorities| ==>
          chunks[priorities[k]].id in allocation && allocation[chunks[priorities[k]].id] == Dealt(dealt, |priorities|, k))
    && Sum(Shares(chunks, allocation)) == dealt
  }

  lemma DealOne(chunks: seq<Chunk>, priorities: seq<int>, allocation: map<ChunkId, int>, dealt: nat)
    requires DistinctIds(chunks) && Everyone(chunks, priorities) && Deals(chunks, priorities, allocation, dealt)
    ensures chunks[priorities[dealt % |priorities|]].id in allocation
    ensures var id := chunks[priorities[dealt % |priorities|]].id;
            Deals(chunks, priorities, allocation[id := allocation[id] + 1], dealt + 1)
  {
    hide Dealt, Sum;
    var n, turn := |priorities|, dealt % |priorities|;
    var index := priorities[turn];
    var id := chunks[index].id;
    var next := allocation[id := allocation[id] + 1];
    forall k | 0 <= k < n ensures next[chunks[priorities[k]].id] == Dealt(dealt + 1, n, k) {
      DealtNext(dealt, n, k);
      if k != turn {
        assert priorities[k] != index;
        assert chunks[priorities[k]].id != id;
      }
    }
    assert next.Keys == Ids(chunks);
    assert Shares(chunks, next) == Shares(chunks, allocation)[index := allocation[id] + 1];
    SumUpdate(Shares(chunks, allocation), index, allocation[id] + 1);
  }

  function NoShares(chunks: seq<Chunk>): map<ChunkId, int> {
    map id | id in Ids(chunks) :: 0
  }

  lemma NothingDealt(chunks: seq<Chunk>, priorities: seq<int>, allocation: map<ChunkId, int>)
    requires Everyone(chunks, priorities) && allocation == NoShares(chunks)
    ensures Deals(chunks, priorities, allocation, 0)
  {
    AllZeroSum(Shares(chunks, allocation));
    forall k | 0 <= k < |priorities| ensures chunks[priorities[k]].id in Ids(chunks) {
    }
  }

  lemma {:induction false} AllZeroSum(s: seq<int>)
    requires forall i | 0 <= i < |s| :: s[i] == 0
    ensures Sum(s) == 0
    decreases |s|
  {
    if s != [] {
      AllZeroSum(s[..|s| - 1]);
    }
  }

  // Fairness

  function Share(chunks: seq<Chunk>, allocation: map<ChunkId, int>, i: int): int {
    if 0 <= i < |chunks| && chunks[i].id in allocation then allocation[chunks[i].id] else 0
  }

  /** The unseen chunks of a page that got a slot. */
  function ServedNew(chunks: seq<Chunk>, requested: Tally, allocation: map<ChunkId, int>, page: int): set<int> {
    set i | 0 <= i < |chunks| && chunks[i].page == page && Unseen(chunks, requested, i) && Share(chunks, allocation, i) >= 1
  }

  predicate Waiting(chunks: seq<Chunk>, requested: Tally, allocation: map<ChunkId, int>, page: int, i: int) {
    0 <= i < |chunks| && chunks[i].page == page && Unseen(chunks, requested, i) && Share(chunks, allocation, i) == 0
  }

  /**
   * The shares fill the target exactly and differ by at most one; a chunk that has been asked before never
   * gets more than a new one; and no page is two new chunks ahead of a page that still waits.
   */
  ghost predicate Fair(chunks: seq<Chunk>, requested: Tally, target: int, allocation: map<ChunkId, int>) {
    && allocation.Keys == Ids(chunks)
    && Sum(Shares(chunks, allocation)) == target
    && (forall i, j :: 0 <= i < |chunks| && 0 <= j < |chunks| ==>
          0 <= Share(chunks, allocation, i) <= Share(chunks, allocation, j) + 1)
    && (forall i, j :: 0 <= i < |chunks| && !Unseen(chunks, requested, i) && Unseen(chunks, requested, j) ==>
          Share(chunks, allocation, i) <= Share(chunks, allocation, j))
    && (forall p, q, i :: Waiting(chunks, requested, allocation, q, i) ==>
          |ServedNew(chunks, requested, allocation, p)| <= |ServedNew(chunks, requested, allocation, q)| + 1)
  }

  function IsUnseen(chunks: seq<Chunk>, requested: Tally): int -> bool {
    i => Unseen(chunks, requested, i)
  }

  function IsSeen(chunks: seq<Chunk>, requested: Tally): int -> bool {
    i => 0 <= i < |chunks| && !Unseen(chunks, requested, i)
  }

  lemma InTurn(k: nat, n: nat)
    requires k < n
    ensures k % n == k
  {
  }

  lemma Wraps(extra: nat, n: nat)
    requires n > 0
    ensures (n + extra) % n == extra % n && extra % n < n
  {
    Divided(n + extra, n, extra / n + 1, extra % n);
  }

  lemma Priorities(chunks: seq<Chunk>, requested: Tally, accepted: Tally, pages: map<int, seq<int>>, ordered: seq<int>,
                   unseen: seq<int>, seen: seq<int>)
    requires chunks != [] && InRounds(chunks, pages, ordered)
    requires unseen == Select(ordered, IsUnseen(chunks, requested))
    requires seen == SortBy(Select(ordered, IsSeen(chunks, requested)), SeenKey(chunks, requested, accepted, ordered))
    ensures Prioritised(chunks, requested, pages, unseen, seen)
    ensures Everyone(chunks, unseen + seen)
  {
    hide Rank, Rising, SortBy, Select;
    SelectKeeps(chunks, pages, ordered, IsUnseen(chunks, requested));
    SelectKeeps(chunks, pages, ordered, IsSeen(chunks, requested));
    var key, before := SeenKey(chunks, requested, accepted, ordered), Select(ordered, IsSeen(chunks, requested));
    SortedItems(before, key);
    SortKeepsDistinct(before, key);
    var all := unseen + seen;
    forall x ensures x in all <==> x in unseen || x in seen {
    }
    assert 0 in all;
    forall i, j | 0 <= i < j < |all| ensures all[i] != all[j] {
      assert all[i] in all && all[j] in all;
      if i < |unseen| <= j {
        assert all[i] in unseen && all[j] in seen;
      }
    }
    forall k | 0 <= k < |all| ensures 0 <= all[k] < |chunks| {
      assert all[k] in all;
    }
  }

  lemma ShareOf(chunks: seq<Chunk>, priorities: seq<int>, allocation: map<ChunkId, int>, dealt: nat, k: nat)
    requires Everyone(chunks, priorities) && Deals(chunks, priorities, allocation, dealt) && k < |priorities|
    ensures Share(chunks, allocation, priorities[k]) == Dealt(dealt, |priorities|, k) >= 0
  {
    hide Dealt, Sum;
  }

  lemma DealtSpread(dealt: nat, n: nat, j: nat, k: nat)
    requires j < n && k < n
    ensures Dealt(dealt, n, j) <= Dealt(dealt, n, k) + 1
    ensures j <= k ==> Dealt(dealt, n, j) >= Dealt(dealt, n, k)
  {
  }

  /** Equal turns in order of priority make the first three promises. */
  lemma DealtEvenly(chunks: seq<Chunk>, requested: Tally, pages: map<int, seq<int>>, unseen: seq<int>, seen: seq<int>,
                    target: nat, allocation: map<ChunkId, int>)
    requires Prioritised(chunks, requested, pages, unseen, seen) && Everyone(chunks, unseen + seen)
    requires Deals(chunks, unseen + seen, allocation, target)
    ensures forall i, j :: 0 <= i < |chunks| && 0 <= j < |chunks| ==>
              0 <= Share(chunks, allocation, i) <= Share(chunks, allocation, j) + 1
    ensures forall i, j :: 0 <= i < |chunks| && !Unseen(chunks, requested, i) && Unseen(chunks, requested, j) ==>
              Share(chunks, allocation, i) <= Share(chunks, allocation, j)
  {
    hide Deals, Dealt, Share, Rising, Distinct;
    var all := unseen + seen;
    forall i, j | 0 <= i < |chunks| && 0 <= j < |chunks|
      ensures 0 <= Share(chunks, allocation, i) <= Share(chunks, allocation, j) + 1
    {
      assert i in all && j in all;
      var a :| 0 <= a < |all| && all[a] == i;
      var b :| 0 <= b < |all| && all[b] == j;
      ShareOf(chunks, all, allocation, target, a);
      ShareOf(chunks, all, allocation, target, b);
      DealtSpread(target, |all|, a, b);
    }
    forall i, j | 0 <= i < |chunks| && !Unseen(chunks, requested, i) && Unseen(chunks, requested, j)
      ensures Share(chunks, allocation, i) <= Share(chunks, allocation, j)
    {
      assert i in seen && j in unseen;
      var a :| 0 <= a < |seen| && seen[a] == i;
      var b :| 0 <= b < |unseen| && unseen[b] == j;
      assert all[|unseen| + a] == i && all[b] == j;
      ShareOf(chunks, all, allocation, target, |unseen| + a);
      ShareOf(chunks, all, allocation, target, b);
      DealtSpread(target, |all|, b, |unseen| + a);
    }
  }

  // Pages in turn

  /** The first chunk of a page's list that still waits, given that some chunk does. */
  lemma {:induction false} FirstWaiting(chunks: seq<Chunk>, requested: Tally, allocation: map<ChunkId, int>, pages: map<int, seq<int>>,
                                        page: int, k: nat) returns (r: nat)
    requires Grouped(chunks, requested, pages) && page in pages && k < |pages[page]|
    requires Waiting(chunks, requested, allocation, page, pages[page][k])
    ensures r <= k && Waiting(chunks, requested, allocation, page, pages[page][r])
    ensures forall j :: 0 <= j < r ==> !Waiting(chunks, requested, allocation, page, pages[page][j])
    decreases k
  {
    if j :| 0 <= j < k && Waiting(chunks, requested, allocation, page, pages[page][j]) {
      r := FirstWaiting(chunks, requested, allocation, pages, page, j);
    } else {
      r := k;
    }
  }

  /** A chunk that waits comes after every new chunk that is served, so it is not in an earlier round. */
  lemma ServedBefore(chunks: seq<Chunk>, requested: Tally, pages: map<int, seq<int>>, unseen: seq<int>, seen: seq<int>,
                     target: nat, allocation: map<ChunkId, int>, x: int, y: int)
    requires Prioritised(chunks, requested, pages, unseen, seen) && Everyone(chunks, unseen + seen)
    requires Deals(chunks, unseen + seen, allocation, target)
    requires Unseen(chunks, requested, x) && Share(chunks, allocation, x) >= 1
    requires Unseen(chunks, requested, y) && Share(chunks, allocation, y) == 0
    ensures Rank(chunks, pages, x) <= Rank(chunks, pages, y)
  {
    hide Deals, Dealt, Share, Rank, Distinct;
    var all := unseen + seen;
    assert x in unseen && y in unseen;
    var a :| 0 <= a < |unseen| && unseen[a] == x;
    var b :| 0 <= b < |unseen| && unseen[b] == y;
    assert all[a] == x && all[b] == y;
    ShareOf(chunks, all, allocation, target, a);
    ShareOf(chunks, all, allocation, target, b);
    DealtSpread(target, |all|, b, a);
  }

  lemma PagesInTurn(chunks: seq<Chunk>, requested: Tally, pages: map<int, seq<int>>, unseen: seq<int>, seen: seq<int>,
                    target: nat, allocation: map<ChunkId, int>, p: int, q: int, i: int)
    requires Grouped(chunks, requested, pages) && Prioritised(chunks, requested, pages, unseen, seen)
    requires Everyone(chunks, unseen + seen) && Deals(chunks, unseen + seen, allocation, target)
    requires Waiting(chunks, requested, allocation, q, i)
    ensures |ServedNew(chunks, requested, allocation, p)| <= |ServedNew(chunks, requested, allocation, q)| + 1
  {
    hide Deals, Share, Rank, Prioritised, Everyone;
    RankLocates(chunks, requested, pages, i);
    var r := FirstWaiting(chunks, requested, allocation, pages, q, Rank(chunks, pages, i));
    var y, list := pages[q][r], pages[q][..r];
    RankOf(chunks, requested, pages, q, r);
    SharesNonNegative(chunks, requested, pages, unseen, seen, target, allocation);
    forall x | x in list ensures x in ServedNew(chunks, requested, allocation, q) {
      var j :| 0 <= j < r && pages[q][j] == x;
      assert !Waiting(chunks, requested, allocation, q, x);
      assert Count(requested, chunks[x].id) <= Count(requested, chunks[y].id);
    }
    AtLeastSize(ServedNew(chunks, requested, allocation, q), list);
    if p in pages {
      var early := if r + 1 <= |pages[p]| then pages[p][..r + 1] else pages[p];
      forall x | x in ServedNew(chunks, requested, allocation, p) ensures x in early {
        ServedBefore(chunks, requested, pages, unseen, seen, target, allocation, x, y);
        RankLocates(chunks, requested, pages, x);
        assert early[Rank(chunks, pages, x)] == x;
      }
      AtMostSize(ServedNew(chunks, requested, allocation, p), early);
    } else {
      forall x | 0 <= x < |chunks| ensures chunks[x].page != p {
        ListedPage(chunks, pages, x);
      }
      assert ServedNew(chunks, requested, allocation, p) == {};
    }
  }

  lemma SharesNonNegative(chunks: seq<Chunk>, requested: Tally, pages: map<int, seq<int>>, unseen: seq<int>, seen: seq<int>,
                          target: nat, allocation: map<ChunkId, int>)
    requires Prioritised(chunks, requested, pages, unseen, seen)
    requires Everyone(chunks, unseen + seen) && Deals(chunks, unseen + seen, allocation, target)
    ensures forall x :: 0 <= x < |chunks| ==> Share(chunks, allocation, x) >= 0
  {
    hide Deals, Share, Prioritised, Everyone;
    DealtEvenly(chunks, requested, pages, unseen, seen, target, allocation);
  }

  lemma DealtFairly(chunks: seq<Chunk>, requested: Tally, pages: map<int, seq<int>>, unseen: seq<int>, seen: seq<int>,
                    target: nat, allocation: map<ChunkId, int>)
    requires Grouped(chunks, requested, pages) && Prioritised(chunks, requested, pages, unseen, seen)
    requires Everyone(chunks, unseen + seen) && Deals(chunks, unseen + seen, allocation, target)
    ensures Fair(chunks, requested, target, allocation)
  {
    hide Share, ServedNew, Waiting, Grouped, Prioritised, Everyone, Sum, Dealt, Unseen;
    DealtEvenly(chunks, requested, pages, unseen, seen, target, allocation);
    forall p, q, i | Waiting(chunks, requested, allocation, q, i)
      ensures |ServedNew(chunks, requested, allocation, p)| <= |ServedNew(chunks, requested, allocation, q)| + 1
    {
      PagesInTurn(chunks, requested, pages, unseen, seen, target, allocation, p, q, i);
    }
  }

  /** Of two chunks asked before, this one comes first: more cards accepted from it, or as many from fewer requests. */
  predicate MoreProductive(chunks: seq<Chunk>, requested: Tally, accepted: Tally, i: int, j: int) {
    && 0 <= i < |chunks| && 0 <= j < |chunks| && !Unseen(chunks, requested, i) && !Unseen(chunks, requested, j)
    && var x, y := chunks[i].id, chunks[j].id;
    Count(accepted, x) > Count(accepted, y) || (Count(accepted, x) == Count(accepted, y) && Count(requested, x) < Count(requested, y))
  }

  /** Evidence that has been productive is asked at least as often as evidence that has been less so. */
  ghost predicate ProductiveFirst(chunks: seq<Chunk>, requested: Tally, accepted: Tally, allocation: map<ChunkId, int>) {
    forall i, j :: MoreProductive(chunks, requested, accepted, i, j) ==> Share(chunks, allocation, i) >= Share(chunks, allocation, j)
  }

  lemma DealtProductively(chunks: seq<Chunk>, requested: Tally, accepted: Tally, pages: map<int, seq<int>>, ordered: seq<int>,
                          unseen: seq<int>, seen: seq<int>, target: nat, allocation: map<ChunkId, int>)
    requires seen == SortBy(Select(ordered, IsSeen(chunks, requested)), SeenKey(chunks, requested, accepted, ordered))
    requires Prioritised(chunks, requested, pages, unseen, seen) && Everyone(chunks, unseen + seen)
    requires Deals(chunks, unseen + seen, allocation, target)
    ensures ProductiveFirst(chunks, requested, accepted, allocation)
  {
    hide Deals, Dealt, Share, Rising, Distinct, SortBy, Select, Everyone, RankIn, Unseen;
    var key, all := SeenKey(chunks, requested, accepted, ordered), unseen + seen;
    SortSorts(Select(ordered, IsSeen(chunks, requested)), key);
    forall i, j | MoreProductive(chunks, requested, accepted, i, j) ensures Share(chunks, allocation, i) >= Share(chunks, allocation, j) {
      assert i in seen && j in seen;
      var a :| 0 <= a < |seen| && seen[a] == i;
      var b :| 0 <= b < |seen| && seen[b] == j;
      assert b < a ==> AtMost(key(seen[b]), key(seen[a]));
      assert a <= b;
      assert all[|unseen| + a] == i && all[|unseen| + b] == j;
      ShareOf(chunks, all, allocation, target, |unseen| + a);
      ShareOf(chunks, all, allocation, target, |unseen| + b);
      DealtSpread(target, |all|, |unseen| + a, |unseen| + b);
    }
  }

  /** One slot each in order of priority as far as the target goes, then the rest in turn. */
  method Deal(chunks: seq<Chunk>, priorities: seq<int>, target: nat) returns (shares: map<ChunkId, int>)
    requires DistinctIds(chunks) && Everyone(chunks, priorities)
    ensures Deals(chunks, priorities, shares, target)
  {
    hide *;
    HasPriorities(chunks, priorities);
    shares := NoShares(chunks);
    NothingDealt(chunks, priorities, shares);
    var first: nat := if target <= |priorities| then target else |priorities|;
    for k := 0 to first
      invariant Deals(chunks, priorities, shares, k)
    {
      DealOne(chunks, priorities, shares, k);
      InTurn(k, |priorities|);
      var id := chunks[priorities[k]].id;
      shares := shares[id := shares[id] + 1];
    }
    for extra := 0 to if target <= |priorities| then 0 else target - |priorities|
      invariant Deals(chunks, priorities, shares, first + extra)
    {
      DealOne(chunks, priorities, shares, first + extra);
      Wraps(extra, |priorities|);
      var id := chunks[priorities[extra % |priorities|]].id;
      shares := shares[id := shares[id] + 1];
    }
  }

  lemma HasPriorities(chunks: seq<Chunk>, priorities: seq<int>)
    requires Everyone(chunks, priorities)
    ensures priorities != [] && forall k | 0 <= k < |priorities| :: 0 <= priorities[k] < |chunks|
  {
  }

  /** `allocate_adaptive_card_targets`; a target below one or an empty document is refused. */
  method AllocateAdaptive(chunks: seq<Chunk>, target: int, requested: Tally, accepted: Tally)
    returns (allocation: Option<map<ChunkId, int>>)
    requires DistinctIds(chunks)
    ensures allocation.None? <==> target < 1 || chunks == []
    ensures allocation.Some? ==> Fair(chunks, requested, target, allocation.value)
    ensures allocation.Some? ==> ProductiveFirst(chunks, requested, accepted, allocation.value)
  {
    if target < 1 || chunks == [] {
      return None;
    }
    hide *;
    var pages := GroupByPage(chunks, requested);
    var pageOrder := SortedPageNumbers(pages);
    var ordered := RoundRobin(chunks, requested, pages, pageOrder);
    var unseen := Select(ordered, IsUnseen(chunks, requested));
    var seen := SortBy(Select(ordered, IsSeen(chunks, requested)), SeenKey(chunks, requested, accepted, ordered));
    Priorities(chunks, requested, accepted, pages, ordered, unseen, seen);
    var priorities := unseen + seen;
    var shares := Deal(chunks, priorities, target);
    DealtFairly(chunks, requested, pages, unseen, seen, target, shares);
    DealtProductively(chunks, requested, accepted, pages, ordered, unseen, seen, target, shares);
    allocation := Some(shares);
  }
}
