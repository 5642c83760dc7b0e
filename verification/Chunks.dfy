/** Chunks of a prepared document, as every stage of the generation pipeline passes them on. */
module Chunks {
  import opened Prelude

  /** The server-assigned identity `chunk-<index>-p<page>`. */
  datatype ChunkId = ChunkId(index: nat, page: nat)

  datatype Chunk = Chunk(id: ChunkId, text: string, page: nat, section: Option<string>, tokens: nat)

  predicate DistinctIds(chunks: seq<Chunk>) {
    forall i, j | 0 <= i < j < |chunks| :: chunks[i].id != chunks[j].id
  }

  function Ids(chunks: seq<Chunk>): set<ChunkId> {
    set c | c in chunks :: c.id
  }

  function Flatten<T>(lists: seq<seq<T>>): seq<T> {
    if lists == [] then [] else Flatten(lists[..|lists| - 1]) + lists[|lists| - 1]
  }

  /** What an ordered list of counts adds up to. */
  function Sum(counts: seq<int>): int {
    if counts == [] then 0 else Sum(counts[..|counts| - 1]) + counts[|counts| - 1]
  }

  lemma SumSnoc(counts: seq<int>, n: int)
    ensures Sum(counts + [n]) == Sum(counts) + n
  {
    assert (counts + [n])[..|counts|] == counts;
  }

  lemma {:induction false} SumConcat(a: seq<int>, b: seq<int>)
    ensures Sum(a + b) == Sum(a) + Sum(b)
    decreases |b|
  {
    if b == [] {
      assert a + b == a;
    } else {
      var n := |b| - 1;
      assert (a + b)[..|a + b| - 1] == a + b[..n];
      SumConcat(a, b[..n]);
    }
  }

  lemma FlattenSnoc<T>(lists: seq<seq<T>>, last: seq<T>)
    ensures Flatten(lists + [last]) == Flatten(lists) + last
  {
    assert (lists + [last])[..|lists|] == lists;
  }

  lemma {:induction false} SumUpdate(s: seq<int>, i: nat, v: int)
    requires i < |s|
    ensures Sum(s[i := v]) == Sum(s) - s[i] + v
    decreases |s|
  {
    var n := |s| - 1;
    if i == n {
      assert s[i := v][..n] == s[..n];
    } else {
      assert s[i := v][..n] == s[..n][i := v];
      SumUpdate(s[..n], i, v);
    }
  }

  lemma {:induction false} FlattenPrefix<T>(lists: seq<seq<T>>, k: nat)
    requires k <= |lists|
    ensures Flatten(lists[..k]) <= Flatten(lists)
    decreases |lists| - k
  {
    if k == |lists| {
      assert lists[..k] == lists;
    } else {
      assert lists[..k + 1] == lists[..k] + [lists[k]];
      FlattenSnoc(lists[..k], lists[k]);
      FlattenPrefix(lists, k + 1);
    }
  }

  /** Where a list stands in the flattened whole. */
  lemma FlattenSlice<T>(lists: seq<seq<T>>, k: nat)
    requires k < |lists|
    ensures var from := |Flatten(lists[..k])|;
            && from + |lists[k]| == |Flatten(lists[..k + 1])| <= |Flatten(lists)|
            && Flatten(lists)[from..from + |lists[k]|] == lists[k]
  {
    assert lists[..k + 1] == lists[..k] + [lists[k]];
    FlattenSnoc(lists[..k], lists[k]);
    FlattenPrefix(lists, k + 1);
  }
}
