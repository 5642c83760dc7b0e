/** Greedy packing of chunks into requests: a correct partition, and with a monotone estimator an optimal one. */
module Packing {
  import opened Prelude
  import opened Chunks

  /** The limits a pack of more than one chunk has to meet. */
  predicate Fits(pack: seq<Chunk>, maxTokens: int, estimate: seq<Chunk> -> int, maxChunks: int) {
    |pack| <= maxChunks && estimate(pack) <= maxTokens
  }

  /** Consecutive, non-empty packs of all the chunks; packs of several chunks meet the limits. */
  predicate Partition(packs: seq<seq<Chunk>>, chunks: seq<Chunk>, maxTokens: int, estimate: seq<Chunk> -> int, maxChunks: int) {
    && Flatten(packs) == chunks
    && (forall i | 0 <= i < |packs| :: packs[i] != [])
    && (forall i | 0 <= i < |packs| :: |packs[i]| > 1 ==> Fits(packs[i], maxTokens, estimate, maxChunks))
  }

  /** No pack but the last could also have taken the first chunk of the next one. */
  predicate Full(packs: seq<seq<Chunk>>, maxTokens: int, estimate: seq<Chunk> -> int, maxChunks: int)
    requires forall i | 0 <= i < |packs| :: packs[i] != []
  {
    forall i | 0 < i < |packs| :: !Fits(packs[i - 1] + [packs[i][0]], maxTokens, estimate, maxChunks)
  }

  /** `pack_chunks_for_requests`; bad limits are refused. */
  method PackChunks(chunks: seq<Chunk>, maxTokens: int, estimate: seq<Chunk> -> int, maxChunks: int)
    returns (packs: Option<seq<seq<Chunk>>>)
    ensures packs.None? <==> maxTokens < 1 || maxChunks < 1
    ensures packs.Some? ==>
              && Partition(packs.value, chunks, maxTokens, estimate, maxChunks)
              && Full(packs.value, maxTokens, estimate, maxChunks)
  {
    if maxTokens < 1 || maxChunks < 1 {
      return None;
    }
    var done: seq<seq<Chunk>>, current: seq<Chunk> := [], [];
    hide Partition, Full;
    for i := 0 to |chunks|
      invariant i == 0 ==> done == [] && current == []
      invariant i > 0 ==> current != [] && Good(done + [current], chunks[..i], maxTokens, estimate, maxChunks)
    {
      var candidate := current + [chunks[i]];
      assert chunks[..i + 1] == chunks[..i] + [chunks[i]];
      if current != [] && (|candidate| > maxChunks || estimate(candidate) > maxTokens) {
        Close(done, current, chunks[i], chunks[..i], maxTokens, estimate, maxChunks);
        done := done + [current];
        current := [chunks[i]];
      } else {
        Extend(done, current, chunks[i], chunks[..i], maxTokens, estimate, maxChunks);
        current := candidate;
      }
    }
    assert chunks[..|chunks|] == chunks;
    if current != [] {
      done := done + [current];
    } else {
      NoPacks(maxTokens, estimate, maxChunks);
    }
    packs := Some(done);
    GoodMeans(done, chunks, maxTokens, estimate, maxChunks);
  }

  ghost predicate Good(packs: seq<seq<Chunk>>, chunks: seq<Chunk>, maxTokens: int, estimate: seq<Chunk> -> int, maxChunks: int) {
    Partition(packs, chunks, maxTokens, estimate, maxChunks) && Full(packs, maxTokens, estimate, maxChunks)
  }

  lemma GoodMeans(packs: seq<seq<Chunk>>, chunks: seq<Chunk>, maxTokens: int, estimate: seq<Chunk> -> int, maxChunks: int)
    requires Good(packs, chunks, maxTokens, estimate, maxChunks)
    ensures Partition(packs, chunks, maxTokens, estimate, maxChunks)
    ensures (forall i | 0 <= i < |packs| :: packs[i] != []) && Full(packs, maxTokens, estimate, maxChunks)
  {
  }

  lemma NoPacks(maxTokens: int, estimate: seq<Chunk> -> int, maxChunks: int)
    ensures Good([], [], maxTokens, estimate, maxChunks)
  {
  }

  lemma Extend(done: seq<seq<Chunk>>, current: seq<Chunk>, c: Chunk, chunks: seq<Chunk>,
               maxTokens: int, estimate: seq<Chunk> -> int, maxChunks: int)
    requires if current == [] then done == [] && chunks == [] else
               Good(done + [current], chunks, maxTokens, estimate, maxChunks)
               && Fits(current + [c], maxTokens, estimate, maxChunks)
    ensures Good(done + [current + [c]], chunks + [c], maxTokens, estimate, maxChunks)
  {
    FlattenSnoc(done, current);
    FlattenSnoc(done, current + [c]);
    var old_, next := done + [current], done + [current + [c]];
    forall i | 0 < i < |next| ensures !Fits(next[i - 1] + [next[i][0]], maxTokens, estimate, maxChunks) {
      assert next[i - 1] == old_[i - 1] && next[i][0] == old_[i][0];
    }
  }

  lemma Close(done: seq<seq<Chunk>>, current: seq<Chunk>, c: Chunk, chunks: seq<Chunk>,
              maxTokens: int, estimate: seq<Chunk> -> int, maxChunks: int)
    requires Good(done + [current], chunks, maxTokens, estimate, maxChunks) && !Fits(current + [c], maxTokens, estimate, maxChunks)
    ensures Good(done + [current] + [[c]], chunks + [c], maxTokens, estimate, maxChunks)
  {
    FlattenSnoc(done + [current], [c]);
  }

  // Optimality

  /** A longer run of the same chunks never costs less. */
  ghost predicate Monotone(chunks: seq<Chunk>, estimate: seq<Chunk> -> int) {
    forall a, b, c, d :: 0 <= a <= b <= c <= d <= |chunks| ==> estimate(chunks[b..c]) <= estimate(chunks[a..d])
  }

  /** How many chunks the first `k` packs hold. */
  function End(packs: seq<seq<Chunk>>, k: nat): nat
    requires k <= |packs|
  {
    |Flatten(packs[..k])|
  }

  lemma EndStep(packs: seq<seq<Chunk>>, k: nat)
    requires k < |packs|
    ensures End(packs, k + 1) == End(packs, k) + |packs[k]|
  {
    assert packs[..k + 1] == packs[..k] + [packs[k]];
    FlattenSnoc(packs[..k], packs[k]);
  }

  lemma PackIsSlice(packs: seq<seq<Chunk>>, chunks: seq<Chunk>, k: nat)
    requires Flatten(packs) == chunks && k < |packs|
    ensures End(packs, k) + |packs[k]| == End(packs, k + 1) <= |chunks|
    ensures chunks[End(packs, k)..End(packs, k + 1)] == packs[k]
  {
    EndStep(packs, k);
    assert packs[..k + 1] == packs[..k] + [packs[k]];
    FlattenSnoc(packs[..k], packs[k]);
    FlattenPrefix(packs, k + 1);
  }

  /** A full packing stays ahead: its first `k` packs hold at least as many chunks as those of any other partition. */
  lemma {:induction false} StaysAhead(
      packs: seq<seq<Chunk>>, other: seq<seq<Chunk>>, chunks: seq<Chunk>,
      maxTokens: int, estimate: seq<Chunk> -> int, maxChunks: int, k: nat)
    requires Partition(packs, chunks, maxTokens, estimate, maxChunks) && Full(packs, maxTokens, estimate, maxChunks)
    requires Partition(other, chunks, maxTokens, estimate, maxChunks) && Monotone(chunks, estimate)
    requires k <= |packs| && k <= |other|
    ensures End(packs, k) >= End(other, k)
    decreases k
  {
    hide Monotone, Fits;
    if k > 0 {
      StaysAhead(packs, other, chunks, maxTokens, estimate, maxChunks, k - 1);
      PackIsSlice(packs, chunks, k - 1);
      PackIsSlice(other, chunks, k - 1);
      if k == |packs| {
        assert packs[..k] == packs;
      } else {
        PackIsSlice(packs, chunks, k);
        var a, b, c, d := End(other, k - 1), End(packs, k - 1), End(packs, k), End(other, k);
        var tooMuch := packs[k - 1] + [packs[k][0]];
        assert chunks[b..c + 1] == tooMuch;
        assert !Fits(tooMuch, maxTokens, estimate, maxChunks);
        if c < d {
          assert Fits(other[k - 1], maxTokens, estimate, maxChunks);
          LongerCostsMore(chunks, estimate, a, b, c + 1, d);
          SubFits(tooMuch, other[k - 1], maxTokens, estimate, maxChunks);
        }
      }
    }
  }

  lemma SubFits(part: seq<Chunk>, whole: seq<Chunk>, maxTokens: int, estimate: seq<Chunk> -> int, maxChunks: int)
    requires |part| <= |whole|
    ensures estimate(part) <= estimate(whole) && Fits(whole, maxTokens, estimate, maxChunks) ==> Fits(part, maxTokens, estimate, maxChunks)
  {
  }

  lemma LongerCostsMore(chunks: seq<Chunk>, estimate: seq<Chunk> -> int, a: nat, b: nat, c: nat, d: nat)
    requires Monotone(chunks, estimate) && a <= b <= c <= d <= |chunks|
    ensures estimate(chunks[b..c]) <= estimate(chunks[a..d])
  {
  }

  /** With a monotone estimator no partition into consecutive packs uses fewer packs than the greedy one. */
  lemma GreedyIsOptimal(
      packs: seq<seq<Chunk>>, other: seq<seq<Chunk>>, chunks: seq<Chunk>,
      maxTokens: int, estimate: seq<Chunk> -> int, maxChunks: int)
    requires Partition(packs, chunks, maxTokens, estimate, maxChunks) && Full(packs, maxTokens, estimate, maxChunks)
    requires Partition(other, chunks, maxTokens, estimate, maxChunks) && Monotone(chunks, estimate)
    ensures |packs| <= |other|
  {
    if |other| < |packs| {
      StaysAhead(packs, other, chunks, maxTokens, estimate, maxChunks, |other|);
      assert other[..|other|] == other;
      PackIsSlice(packs, chunks, |other|);
      assert false;
    }
  }
}
