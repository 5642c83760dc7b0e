/** Card requests in batches and waves: quotas are conserved, batches are bounded, and waves never share a chunk. */
module Batching {
  import opened Prelude
  import opened MapSums
  import opened Chunks

  /** One request: its chunks in order, how many cards of each, and the evidence shown beside them. */
  datatype Batch = Batch(chunks: seq<Chunk>, requested: map<ChunkId, int>, context: seq<Chunk>)

  type PromptTokens = Batch -> nat

  function Quota(requested: map<ChunkId, int>, id: ChunkId): int {
    if id in requested then requested[id] else 0
  }

  /** The cards a batch asks for. */
  function RequestedFor(chunks: seq<Chunk>, requested: map<ChunkId, int>): int {
    if chunks == [] then 0 else
      RequestedFor(chunks[..|chunks| - 1], requested) + Quota(requested, chunks[|chunks| - 1].id)
  }

  function RequestedCount(batch: Batch): int {
    RequestedFor(batch.chunks, batch.requested)
  }

  /** What all batches together ask of one chunk. */
  function Asked(batches: seq<Batch>, id: ChunkId): int {
    if batches == [] then 0 else Asked(batches[..|batches| - 1], id) + Quota(batches[|batches| - 1].requested, id)
  }

  function AskedInAll(batches: seq<Batch>): int {
    if batches == [] then 0 else AskedInAll(batches[..|batches| - 1]) + RequestedCount(batches[|batches| - 1])
  }

  /** A batch that asks for something: distinct chunks, at least one card of each, no more cards than allowed. */
  ghost predicate Sound(batch: Batch, cardsPerRequest: int, context: seq<Chunk>) {
    && batch.chunks != [] && DistinctIds(batch.chunks)
    && batch.requested.Keys == Ids(batch.chunks)
    && (forall id :: id in batch.requested ==> batch.requested[id] >= 1)
    && 1 <= RequestedCount(batch) <= cardsPerRequest
    && batch.context == context
  }

  /** A batch of several chunks leaves room for its reserve, unless shared context is shown anyway. */
  predicate Roomy(batch: Batch, tokens: PromptTokens, reserve: int, target: int) {
    |batch.chunks| > 1 && batch.context == [] ==> tokens(batch) + reserve <= target
  }

  /** All evidence comes from these chunks. */
  ghost predicate Drawn(batches: seq<Batch>, chunks: seq<Chunk>) {
    forall b, c :: b in batches && c in b.chunks ==> c in chunks
  }

  // Adding to a batch

  lemma {:induction false} RequestedElsewhere(chunks: seq<Chunk>, requested: map<ChunkId, int>, id: ChunkId, n: int)
    requires id !in Ids(chunks)
    ensures RequestedFor(chunks, requested[id := n]) == RequestedFor(chunks, requested)
    decreases |chunks|
  {
    if chunks != [] {
      var k := |chunks| - 1;
      assert chunks == chunks[..k] + [chunks[k]];
      assert chunks[k].id in Ids(chunks);
      RequestedElsewhere(chunks[..k], requested, id, n);
    }
  }

  lemma {:induction false} RequestedMore(chunks: seq<Chunk>, requested: map<ChunkId, int>, id: ChunkId, more: int)
    requires DistinctIds(chunks) && id in Ids(chunks)
    ensures RequestedFor(chunks, requested[id := Quota(requested, id) + more]) == RequestedFor(chunks, requested) + more
    decreases |chunks|
  {
    var k := |chunks| - 1;
    assert chunks == chunks[..k] + [chunks[k]];
    if chunks[k].id == id {
      RequestedElsewhere(chunks[..k], requested, id, Quota(requested, id) + more);
    } else {
      RequestedMore(chunks[..k], requested, id, more);
    }
  }

  // _generation_batches

  /** The batch being filled: empty, or sound; with its room already checked if it has several chunks. */
  ghost predicate Filling(batch: Batch, cardsPerRequest: int, context: seq<Chunk>, tokens: PromptTokens, reserve: int, target: int) {
    && batch.context == context
    && (if batch.chunks == [] then batch.requested == map[] else
          Sound(batch, cardsPerRequest, context) && Roomy(batch, tokens, reserve, target))
  }

  ghost predicate AllSound(batches: seq<Batch>, cardsPerRequest: int, context: seq<Chunk>, tokens: PromptTokens, reserve: int, target: int) {
    forall b :: b in batches ==> Sound(b, cardsPerRequest, context) && Roomy(b, tokens, reserve, target)
  }

  /** With shared context only the card limit closes a batch, so every closed batch is full. */
  ghost predicate AllFull(batches: seq<Batch>, cardsPerRequest: int) {
    forall b :: b in batches ==> RequestedCount(b) == cardsPerRequest
  }

  /** Taking more cards of one chunk into the batch. */
  function With(batch: Batch, chunk: Chunk, take: int): Batch {
    batch.(chunks := if chunk.id in batch.requested then batch.chunks else batch.chunks + [chunk],
           requested := batch.requested[chunk.id := Quota(batch.requested, chunk.id) + take])
  }

  /** Taking what is left of this chunk, as far as the card limit goes, would be too much text for the batch. */
  ghost predicate Blocked(batch: Batch, chunk: Chunk, remaining: int, cardsPerRequest: int, tokens: PromptTokens, reserve: int, target: int) {
    batch.context == [] && tokens(With(batch, chunk, Min(remaining, cardsPerRequest - RequestedCount(batch)))) + reserve > target
  }

  /** Why a batch was closed before the next one: it has all the cards it may ask for, or the next request did not fit. */
  ghost predicate Seam(batch: Batch, next: Batch, cardsPerRequest: int, tokens: PromptTokens, reserve: int, target: int) {
    || RequestedCount(batch) == cardsPerRequest
    || (next.chunks != []
        && Blocked(batch, next.chunks[0], Quota(next.requested, next.chunks[0].id), cardsPerRequest, tokens, reserve, target))
  }

  /** No batch is closed early. */
  ghost predicate Greedy(batches: seq<Batch>, cardsPerRequest: int, tokens: PromptTokens, reserve: int, target: int) {
    forall i :: 0 < i < |batches| ==> Seam(batches[i - 1], batches[i], cardsPerRequest, tokens, reserve, target)
  }

  lemma TakeKnown(batch: Batch, chunk: Chunk, take: int, cardsPerRequest: int, context: seq<Chunk>)
    requires Sound(batch, cardsPerRequest, context) && 1 <= take <= cardsPerRequest - RequestedCount(batch)
    requires chunk.id in batch.requested
    ensures Sound(With(batch, chunk, take), cardsPerRequest, context)
    ensures RequestedCount(With(batch, chunk, take)) == RequestedCount(batch) + take
  {
    hide RequestedFor;
    RequestedMore(batch.chunks, batch.requested, chunk.id, take);
    assert With(batch, chunk, take).requested.Keys == batch.requested.Keys;
  }

  lemma TakeNew(batch: Batch, chunk: Chunk, take: int, cardsPerRequest: int, context: seq<Chunk>)
    requires batch.context == context && DistinctIds(batch.chunks) && batch.requested.Keys == Ids(batch.chunks)
    requires forall id :: id in batch.requested ==> batch.requested[id] >= 1
    requires 0 <= RequestedCount(batch) && 1 <= take <= cardsPerRequest - RequestedCount(batch)
    requires chunk.id !in batch.requested
    ensures Sound(With(batch, chunk, take), cardsPerRequest, context)
    ensures RequestedCount(With(batch, chunk, take)) == RequestedCount(batch) + take
  {
    hide RequestedFor, DistinctIds, Ids;
    var next := With(batch, chunk, take);
    assert next.chunks == batch.chunks + [chunk];
    RequestedSnoc(batch.chunks, chunk, batch.requested, take);
    DistinctSnoc(batch.chunks, chunk);
    IdsSnoc(batch.chunks, chunk);
    assert next.requested.Keys == batch.requested.Keys + {chunk.id};
  }

  lemma RequestedSnoc(chunks: seq<Chunk>, chunk: Chunk, requested: map<ChunkId, int>, take: int)
    requires chunk.id !in Ids(chunks)
    ensures RequestedFor(chunks + [chunk], requested[chunk.id := take]) == RequestedFor(chunks, requested) + take
  {
    hide Ids;
    assert (chunks + [chunk])[..|chunks|] == chunks;
    RequestedElsewhere(chunks, requested, chunk.id, take);
  }

  lemma DistinctSnoc(chunks: seq<Chunk>, chunk: Chunk)
    requires DistinctIds(chunks) && chunk.id !in Ids(chunks)
    ensures DistinctIds(chunks + [chunk])
  {
    forall i | 0 <= i < |chunks| ensures chunks[i].id != chunk.id {
      assert chunks[i] in chunks && chunks[i].id in Ids(chunks);
    }
  }

  lemma IdsSnoc(chunks: seq<Chunk>, chunk: Chunk)
    ensures Ids(chunks + [chunk]) == Ids(chunks) + {chunk.id}
  {
  }

  lemma TakeFits(batch: Batch, chunk: Chunk, take: int, cardsPerRequest: int, context: seq<Chunk>,
                 tokens: PromptTokens, reserve: int, target: int)
    requires Filling(batch, cardsPerRequest, context, tokens, reserve, target)
    requires 1 <= take <= cardsPerRequest - RequestedCount(batch)
    requires batch.chunks == [] || Roomy(With(batch, chunk, take), tokens, reserve, target)
    ensures Filling(With(batch, chunk, take), cardsPerRequest, context, tokens, reserve, target)
    ensures RequestedCount(With(batch, chunk, take)) == RequestedCount(batch) + take
    ensures With(batch, chunk, take).chunks != []
  {
    if batch.chunks == [] {
      assert Ids(batch.chunks) == {};
      TakeNew(batch, chunk, take, cardsPerRequest, context);
    } else {
      hide RequestedFor, DistinctIds, Ids;
      if chunk.id in batch.requested {
        TakeKnown(batch, chunk, take, cardsPerRequest, context);
      } else {
        TakeNew(batch, chunk, take, cardsPerRequest, context);
      }
    }
  }

  lemma AskedSnoc(batches: seq<Batch>, batch: Batch, id: ChunkId)
    ensures Asked(batches + [batch], id) == Asked(batches, id) + Quota(batch.requested, id)
    ensures AskedInAll(batches + [batch]) == AskedInAll(batches) + RequestedCount(batch)
  {
    assert (batches + [batch])[..|batches|] == batches;
  }

  /** What has been asked so far, counting the batch being filled. */
  function AskedSoFar(batches: seq<Batch>, current: Batch, id: ChunkId): int {
    Asked(batches, id) + Quota(current.requested, id)
  }

  method GenerationBatches(chunks: seq<Chunk>, allocations: map<ChunkId, int>, context: seq<Chunk>,
                           cardsPerRequest: int, tokens: PromptTokens, reserve: int, target: int)
    returns (batches: seq<Batch>)
    requires DistinctIds(chunks) && cardsPerRequest >= 1
    ensures forall id :: Asked(batches, id) == if id in Ids(chunks) then Max(0, Quota(allocations, id)) else 0
    ensures AllSound(batches, cardsPerRequest, context, tokens, reserve, target)
    ensures context != [] && batches != [] ==> AllFull(batches[..|batches| - 1], cardsPerRequest)
    ensures Greedy(batches, cardsPerRequest, tokens, reserve, target)
    ensures Drawn(batches, chunks)
  {
    hide *;
    batches := [];
    var current := Batch([], map[], context);
    NothingAsked(chunks, allocations, cardsPerRequest, context, tokens, reserve, target);
    DrawnMore(chunks, [], context);
    for c := 0 to |chunks|
      invariant Filling(current, cardsPerRequest, context, tokens, reserve, target)
      invariant AllSound(batches, cardsPerRequest, context, tokens, reserve, target) && Drawn(batches + [current], chunks)
      invariant context != [] ==> AllFull(batches, cardsPerRequest)
      invariant Progress(chunks, allocations, batches, current, c, 0)
      invariant Seams(chunks, batches, current, c, 0, cardsPerRequest, tokens, reserve, target)
    {
      var chunk := chunks[c];
      var remaining := Quota(allocations, chunk.id);
      NextChunk(chunks, allocations, batches, current, c, remaining);
      if remaining < 0 {
        remaining := 0;
      }
      NextSeam(chunks, batches, current, c, remaining, cardsPerRequest, tokens, reserve, target);
      while remaining > 0
        invariant remaining >= 0
        invariant Filling(current, cardsPerRequest, context, tokens, reserve, target)
        invariant AllSound(batches, cardsPerRequest, context, tokens, reserve, target) && Drawn(batches + [current], chunks)
        invariant context != [] ==> AllFull(batches, cardsPerRequest)
        invariant Progress(chunks, allocations, batches, current, c + 1, remaining)
        invariant Seams(chunks, batches, current, c + 1, remaining, cardsPerRequest, tokens, reserve, target)
        decreases remaining, |current.chunks|
      {
        FillingMeans(current, cardsPerRequest, context, tokens, reserve, target);
        var capacity := cardsPerRequest - RequestedCount(current);
        if capacity <= 0 {
          Close(chunks, batches, current, c, remaining, cardsPerRequest, context, tokens, reserve, target);
          Flush(chunks, allocations, batches, current, c + 1, remaining, cardsPerRequest, context, tokens, reserve, target);
          DrawnMore(chunks, batches + [current], context);
          batches := batches + [current];
          current := Batch([], map[], context);
          continue;
        }
        var take := if remaining <= capacity then remaining else capacity;
        var candidate := With(current, chunk, take);
        if context == [] && current.chunks != [] && tokens(candidate) + reserve > target {
          NoRoom(current, chunk, remaining, take, cardsPerRequest, tokens, reserve, target);
          Close(chunks, batches, current, c, remaining, cardsPerRequest, context, tokens, reserve, target);
          Flush(chunks, allocations, batches, current, c + 1, remaining, cardsPerRequest, context, tokens, reserve, target);
          DrawnMore(chunks, batches + [current], context);
          batches := batches + [current];
          current := Batch([], map[], context);
          continue;
        }
        RoomyWith(current, chunk, take, tokens, reserve, target);
        TakeFits(current, chunk, take, cardsPerRequest, context, tokens, reserve, target);
        DrawnWith(chunks, batches, current, chunk, take);
        Take(chunks, allocations, batches, current, c, remaining, take);
        CountsNonNegative(batches, cardsPerRequest, context, tokens, reserve, target);
        TakeSeam(chunks, batches, current, c, remaining, take, cardsPerRequest, context, tokens, reserve, target);
        current := candidate;
        remaining := remaining - take;
        if RequestedCount(current) >= cardsPerRequest {
          FillingMeans(current, cardsPerRequest, context, tokens, reserve, target);
          Close(chunks, batches, current, c, remaining, cardsPerRequest, context, tokens, reserve, target);
          Flush(chunks, allocations, batches, current, c + 1, remaining, cardsPerRequest, context, tokens, reserve, target);
          DrawnMore(chunks, batches + [current], context);
          batches := batches + [current];
          current := Batch([], map[], context);
        }
      }
    }
    LastSeam(chunks, batches, current, cardsPerRequest, tokens, reserve, target);
    if current.chunks != [] {
      AllButLast(batches, current);
      LastFlush(chunks, allocations, batches, current, cardsPerRequest, context, tokens, reserve, target);
      batches := batches + [current];
    } else {
      DrawnLess(chunks, batches, current);
      FewerFull(batches, cardsPerRequest);
      NoFlush(chunks, allocations, batches, current, cardsPerRequest, context, tokens, reserve, target);
    }
  }

  /** The first `n` chunks have been asked what they were allocated, except the last of them for `remaining` cards. */
  ghost predicate Progress(chunks: seq<Chunk>, allocations: map<ChunkId, int>, batches: seq<Batch>, current: Batch, n: nat, remaining: int)
    requires n <= |chunks|
  {
    forall id :: AskedSoFar(batches, current, id) + (if n > 0 && id == chunks[n - 1].id then remaining else 0)
                 == if id in Ids(chunks[..n]) then Max(0, Quota(allocations, id)) else 0
  }

  /**
   * The closed batches were closed for a reason. If nothing has been taken since the last one, the reason is that
   * it is full or that the rest of the current chunk does not fit; and that chunk is not in the batch being filled.
   */
  ghost predicate Seams(chunks: seq<Chunk>, batches: seq<Batch>, current: Batch, n: nat, remaining: int,
                        cardsPerRequest: int, tokens: PromptTokens, reserve: int, target: int)
    requires n <= |chunks|
  {
    && Greedy(batches, cardsPerRequest, tokens, reserve, target)
    && (batches != [] ==>
          var last := batches[|batches| - 1];
          if current.chunks != [] then Seam(last, current, cardsPerRequest, tokens, reserve, target) else
            || RequestedCount(last) == cardsPerRequest
            || (remaining > 0 && n > 0 && Blocked(last, chunks[n - 1], remaining, cardsPerRequest, tokens, reserve, target)))
    && current.requested.Keys <= Ids(chunks[..n])
    && (n > 0 && remaining > 0 ==> chunks[n - 1].id !in current.requested || RequestedCount(current) >= cardsPerRequest)
  }

  lemma NextSeam(chunks: seq<Chunk>, batches: seq<Batch>, current: Batch, c: nat, remaining: int,
                 cardsPerRequest: int, tokens: PromptTokens, reserve: int, target: int)
    requires c < |chunks| && DistinctIds(chunks) && remaining >= 0
    requires Seams(chunks, batches, current, c, 0, cardsPerRequest, tokens, reserve, target)
    ensures Seams(chunks, batches, current, c + 1, remaining, cardsPerRequest, tokens, reserve, target)
  {
    hide Greedy, Seam, Blocked, RequestedFor;
    assert chunks[..c + 1] == chunks[..c] + [chunks[c]];
    forall x | x in chunks[..c] ensures x.id != chunks[c].id {
    }
    assert chunks[c].id !in Ids(chunks[..c]);
    IdsSnoc(chunks[..c], chunks[c]);
  }

  lemma NoRoom(current: Batch, chunk: Chunk, remaining: int, take: int, cardsPerRequest: int, tokens: PromptTokens, reserve: int, target: int)
    requires var capacity := cardsPerRequest - RequestedCount(current); take == if remaining <= capacity then remaining else capacity
    requires current.context == [] && tokens(With(current, chunk, take)) + reserve > target
    ensures Blocked(current, chunk, remaining, cardsPerRequest, tokens, reserve, target)
  {
  }

  /** Closing the batch being filled, because it is full or blocked. */
  lemma Close(chunks: seq<Chunk>, batches: seq<Batch>, current: Batch, c: nat, remaining: int,
              cardsPerRequest: int, context: seq<Chunk>, tokens: PromptTokens, reserve: int, target: int)
    requires c < |chunks| && Seams(chunks, batches, current, c + 1, remaining, cardsPerRequest, tokens, reserve, target)
    requires Filling(current, cardsPerRequest, context, tokens, reserve, target) && current.chunks != []
    requires RequestedCount(current) >= cardsPerRequest
             || (remaining > 0 && Blocked(current, chunks[c], remaining, cardsPerRequest, tokens, reserve, target))
    ensures Seams(chunks, batches + [current], Batch([], map[], context), c + 1, remaining, cardsPerRequest, tokens, reserve, target)
  {
    hide Seam, Blocked, RequestedFor, Roomy, DistinctIds, Ids;
  }

  /** Taking cards of a chunk that is not yet in the batch. */
  lemma TakeSeam(chunks: seq<Chunk>, batches: seq<Batch>, current: Batch, c: nat, remaining: int, take: int,
                 cardsPerRequest: int, context: seq<Chunk>, tokens: PromptTokens, reserve: int, target: int)
    requires c < |chunks| && Seams(chunks, batches, current, c + 1, remaining, cardsPerRequest, tokens, reserve, target)
    requires Filling(current, cardsPerRequest, context, tokens, reserve, target) && remaining > 0
    requires var capacity := cardsPerRequest - RequestedCount(current); 1 <= take == if remaining <= capacity then remaining else capacity
    requires forall b :: b in batches ==> RequestedCount(b) >= 0
    requires RequestedCount(With(current, chunks[c], take)) == RequestedCount(current) + take
    requires current.chunks == [] ==> RequestedCount(current) == 0
    ensures Seams(chunks, batches, With(current, chunks[c], take), c + 1, remaining - take, cardsPerRequest, tokens, reserve, target)
  {
    hide Greedy, RequestedFor, Roomy, DistinctIds;
    var next := With(current, chunks[c], take);
    assert chunks[c] in chunks[..c + 1];
    assert chunks[c].id !in current.requested;
    if batches != [] {
      var last := batches[|batches| - 1];
      assert last in batches;
      if current.chunks != [] {
        assert current.chunks[0].id in Ids(current.chunks);
        assert next.chunks[0] == current.chunks[0] && Quota(next.requested, next.chunks[0].id) == Quota(current.requested, next.chunks[0].id);
      } else {
        assert next.chunks[0] == chunks[c] && Quota(next.requested, chunks[c].id) == take;
      }
    }
  }

  lemma LastSeam(chunks: seq<Chunk>, batches: seq<Batch>, current: Batch, cardsPerRequest: int, tokens: PromptTokens, reserve: int, target: int)
    requires Seams(chunks, batches, current, |chunks|, 0, cardsPerRequest, tokens, reserve, target)
    ensures Greedy(batches, cardsPerRequest, tokens, reserve, target)
    ensures current.chunks != [] ==> Greedy(batches + [current], cardsPerRequest, tokens, reserve, target)
  {
    hide Seam, Blocked, RequestedFor;
  }

  lemma CountsNonNegative(batches: seq<Batch>, cardsPerRequest: int, context: seq<Chunk>, tokens: PromptTokens, reserve: int, target: int)
    requires AllSound(batches, cardsPerRequest, context, tokens, reserve, target)
    ensures forall b :: b in batches ==> RequestedCount(b) >= 0
  {
  }

  lemma NothingAsked(chunks: seq<Chunk>, allocations: map<ChunkId, int>, cardsPerRequest: int, context: seq<Chunk>,
                     tokens: PromptTokens, reserve: int, target: int)
    ensures Filling(Batch([], map[], context), cardsPerRequest, context, tokens, reserve, target)
    ensures AllSound([], cardsPerRequest, context, tokens, reserve, target) && AllFull([], cardsPerRequest)
    ensures Progress(chunks, allocations, [], Batch([], map[], context), 0, 0)
    ensures Seams(chunks, [], Batch([], map[], context), 0, 0, cardsPerRequest, tokens, reserve, target)
  {
  }

  lemma NextChunk(chunks: seq<Chunk>, allocations: map<ChunkId, int>, batches: seq<Batch>, current: Batch, c: nat, remaining: int)
    requires c < |chunks| && DistinctIds(chunks) && Progress(chunks, allocations, batches, current, c, 0)
    requires remaining == Quota(allocations, chunks[c].id)
    ensures Progress(chunks, allocations, batches, current, c + 1, if remaining < 0 then 0 else remaining)
  {
    hide AskedSoFar, Quota;
    assert chunks[..c + 1] == chunks[..c] + [chunks[c]];
    forall x | x in chunks[..c] ensures x.id != chunks[c].id {
    }
    assert Ids(chunks[..c + 1]) == Ids(chunks[..c]) + {chunks[c].id};
    assert chunks[c].id !in Ids(chunks[..c]);
  }

  lemma FillingMeans(batch: Batch, cardsPerRequest: int, context: seq<Chunk>, tokens: PromptTokens, reserve: int, target: int)
    requires Filling(batch, cardsPerRequest, context, tokens, reserve, target)
    ensures if batch.chunks == [] then RequestedCount(batch) == 0 else 1 <= RequestedCount(batch) <= cardsPerRequest
    ensures batch.context == context
  {
  }

  lemma RoomyWith(current: Batch, chunk: Chunk, take: int, tokens: PromptTokens, reserve: int, target: int)
    ensures current.context != [] || tokens(With(current, chunk, take)) + reserve <= target ==>
              Roomy(With(current, chunk, take), tokens, reserve, target)
  {
  }

  /** Closing the batch being filled changes nothing in what has been asked. */
  lemma Flush(chunks: seq<Chunk>, allocations: map<ChunkId, int>, batches: seq<Batch>, current: Batch, n: nat, remaining: int,
              cardsPerRequest: int, context: seq<Chunk>, tokens: PromptTokens, reserve: int, target: int)
    requires n <= |chunks| && Progress(chunks, allocations, batches, current, n, remaining)
    requires Filling(current, cardsPerRequest, context, tokens, reserve, target) && current.chunks != []
    requires AllSound(batches, cardsPerRequest, context, tokens, reserve, target)
    requires context != [] ==> AllFull(batches, cardsPerRequest) && RequestedCount(current) >= cardsPerRequest
    ensures var empty := Batch([], map[], context);
            && Progress(chunks, allocations, batches + [current], empty, n, remaining)
            && Filling(empty, cardsPerRequest, context, tokens, reserve, target)
    ensures AllSound(batches + [current], cardsPerRequest, context, tokens, reserve, target)
    ensures context != [] ==> AllFull(batches + [current], cardsPerRequest)
  {
    hide Roomy, RequestedFor, Asked;
    forall id ensures AskedSoFar(batches + [current], Batch([], map[], context), id) == AskedSoFar(batches, current, id) {
      AskedSnoc(batches, current, id);
    }
  }

  lemma Take(chunks: seq<Chunk>, allocations: map<ChunkId, int>, batches: seq<Batch>, current: Batch, c: nat, remaining: int, take: int)
    requires c < |chunks| && Progress(chunks, allocations, batches, current, c + 1, remaining)
    ensures Progress(chunks, allocations, batches, With(current, chunks[c], take), c + 1, remaining - take)
  {
    hide Asked;
    forall id ensures AskedSoFar(batches, With(current, chunks[c], take), id)
                      == AskedSoFar(batches, current, id) + (if id == chunks[c].id then take else 0) {
    }
  }

  lemma DrawnMore(chunks: seq<Chunk>, batches: seq<Batch>, context: seq<Chunk>)
    requires batches == [] || Drawn(batches, chunks)
    ensures Drawn(batches + [Batch([], map[], context)], chunks)
  {
  }

  lemma DrawnWith(chunks: seq<Chunk>, batches: seq<Batch>, current: Batch, chunk: Chunk, take: int)
    requires Drawn(batches + [current], chunks) && chunk in chunks
    ensures Drawn(batches + [With(current, chunk, take)], chunks)
  {
    forall b, c | b in batches + [With(current, chunk, take)] && c in b.chunks ensures c in chunks {
      if b in batches {
        assert b in batches + [current];
      } else {
        assert current in batches + [current];
        assert c in current.chunks || c == chunk;
      }
    }
  }

  lemma DrawnLess(chunks: seq<Chunk>, batches: seq<Batch>, current: Batch)
    requires Drawn(batches + [current], chunks)
    ensures Drawn(batches, chunks)
  {
    forall b | b in batches ensures b in batches + [current] {
    }
  }

  lemma AllButLast(batches: seq<Batch>, last: Batch)
    ensures (batches + [last])[..|batches + [last]| - 1] == batches
  {
  }

  lemma FewerFull(batches: seq<Batch>, cardsPerRequest: int)
    ensures batches != [] && AllFull(batches, cardsPerRequest) ==> AllFull(batches[..|batches| - 1], cardsPerRequest)
  {
  }

  lemma LastFlush(chunks: seq<Chunk>, allocations: map<ChunkId, int>, batches: seq<Batch>, current: Batch,
                  cardsPerRequest: int, context: seq<Chunk>, tokens: PromptTokens, reserve: int, target: int)
    requires Progress(chunks, allocations, batches, current, |chunks|, 0)
    requires Filling(current, cardsPerRequest, context, tokens, reserve, target) && current.chunks != []
    requires AllSound(batches, cardsPerRequest, context, tokens, reserve, target)
    ensures forall id :: Asked(batches + [current], id) == if id in Ids(chunks) then Max(0, Quota(allocations, id)) else 0
    ensures AllSound(batches + [current], cardsPerRequest, context, tokens, reserve, target)
  {
    hide Roomy, RequestedFor, Asked;
    assert chunks[..|chunks|] == chunks;
    forall id ensures Asked(batches + [current], id) == AskedSoFar(batches, current, id) {
      AskedSnoc(batches, current, id);
    }
  }

  lemma NoFlush(chunks: seq<Chunk>, allocations: map<ChunkId, int>, batches: seq<Batch>, current: Batch,
                cardsPerRequest: int, context: seq<Chunk>, tokens: PromptTokens, reserve: int, target: int)
    requires Progress(chunks, allocations, batches, current, |chunks|, 0)
    requires Filling(current, cardsPerRequest, context, tokens, reserve, target) && current.chunks == []
    ensures forall id :: Asked(batches, id) == if id in Ids(chunks) then Max(0, Quota(allocations, id)) else 0
  {
    hide Asked;
    assert chunks[..|chunks|] == chunks;
    forall id ensures Asked(batches, id) == AskedSoFar(batches, current, id) {
    }
  }

  // Waves

  predicate Disjoint(a: Batch, b: Batch) {
    a.requested.Keys !! b.requested.Keys
  }

  /** Some batch of the wave asks about a chunk this one asks about too. */
  predicate Clashes(batch: Batch, wave: seq<Batch>) {
    exists item | item in wave :: !Disjoint(batch, item)
  }

  /** The batches in order, cut so that no two in one wave ask about the same chunk, and cut only where they must. */
  ghost predicate Waves(waves: seq<seq<Batch>>, batches: seq<Batch>) {
    && Flatten(waves) == batches
    && (forall w :: 0 <= w < |waves| ==> waves[w] != [])
    && (forall w, i, j :: 0 <= w < |waves| && 0 <= i < j < |waves[w]| ==> Disjoint(waves[w][i], waves[w][j]))
    && (forall w :: 0 < w < |waves| ==> Clashes(waves[w][0], waves[w - 1]))
  }

  method CutIntoWaves(batches: seq<Batch>) returns (waves: seq<seq<Batch>>)
    ensures Waves(waves, batches)
  {
    waves := [];
    for b := 0 to |batches|
      invariant Waves(waves, batches[..b])
    {
      var batch := batches[b];
      assert batches[..b + 1] == batches[..b] + [batch];
      if waves != [] && Clashes(batch, waves[|waves| - 1]) {
        NewWave(waves, batches[..b], batch);
        waves := waves + [[batch]];
      } else if waves == [] {
        NewWave(waves, batches[..b], batch);
        waves := [[batch]];
      } else {
        JoinWave(waves, batches[..b], batch);
        waves := waves[..|waves| - 1] + [waves[|waves| - 1] + [batch]];
      }
    }
    assert batches[..|batches|] == batches;
  }

  lemma DisjointBothWays(a: Batch, b: Batch)
    requires Disjoint(a, b)
    ensures Disjoint(b, a)
  {
    forall id | id in b.requested ensures id !in a.requested {
      assert id in b.requested.Keys;
    }
  }

  lemma NewWave(waves: seq<seq<Batch>>, batches: seq<Batch>, batch: Batch)
    requires Waves(waves, batches) && (waves != [] ==> Clashes(batch, waves[|waves| - 1]))
    ensures Waves(waves + [[batch]], batches + [batch])
    ensures waves == [] ==> waves + [[batch]] == [[batch]]
  {
    hide Clashes, Disjoint;
    FlattenSnoc(waves, [batch]);
  }

  lemma JoinWave(waves: seq<seq<Batch>>, batches: seq<Batch>, batch: Batch)
    requires Waves(waves, batches) && waves != []
    requires forall item :: item in waves[|waves| - 1] ==> Disjoint(batch, item)
    ensures Waves(waves[..|waves| - 1] + [waves[|waves| - 1] + [batch]], batches + [batch])
  {
    var n := |waves| - 1;
    FlattenSnoc(waves[..n], waves[n] + [batch]);
    var next := waves[..n] + [waves[n] + [batch]];
    forall w, i, j | 0 <= w < |next| && 0 <= i < j < |next[w]| ensures Disjoint(next[w][i], next[w][j]) {
      if w == n && j == |waves[n]| {
        assert waves[n][i] in waves[n];
        DisjointBothWays(batch, waves[n][i]);
      }
    }
  }

  // Totals

  /** A list of distinct chunks that has every requested one adds up to the whole request. */
  lemma {:induction false} RequestedIsTotal(chunks: seq<Chunk>, requested: map<ChunkId, int>)
    requires DistinctIds(chunks) && requested.Keys <= Ids(chunks)
    ensures RequestedFor(chunks, requested) == Total(requested)
    decreases |chunks|
  {
    hide Total;
    if chunks == [] {
      assert requested == map[];
      NothingRequested();
    } else {
      var k := |chunks| - 1;
      LastChunk(chunks);
      RequestedIsTotal(chunks[..k], requested - {chunks[k].id});
      hide DistinctIds, Ids;
      LastRequest(chunks[..k], requested, chunks[k].id);
    }
  }

  lemma LastChunk(chunks: seq<Chunk>)
    requires DistinctIds(chunks) && chunks != []
    ensures var k := |chunks| - 1;
            DistinctIds(chunks[..k]) && chunks[k].id !in Ids(chunks[..k]) && Ids(chunks) == Ids(chunks[..k]) + {chunks[k].id}
  {
    var k := |chunks| - 1;
    assert chunks == chunks[..k] + [chunks[k]];
    IdsSnoc(chunks[..k], chunks[k]);
    forall c | c in chunks[..k] ensures c.id != chunks[k].id {
    }
  }

  lemma LastRequest(chunks: seq<Chunk>, requested: map<ChunkId, int>, id: ChunkId)
    requires id !in Ids(chunks) && RequestedFor(chunks, requested - {id}) == Total(requested - {id})
    ensures RequestedFor(chunks, requested) + Quota(requested, id) == Total(requested)
  {
    hide Total, RequestedFor;
    var rest := requested - {id};
    if id in requested {
      TotalRemove(requested, id);
      RequestedElsewhere(chunks, rest, id, requested[id]);
      assert rest[id := requested[id]] == requested;
    } else {
      assert rest == requested;
    }
  }

  lemma NothingRequested()
    ensures Total<ChunkId>(map[]) == 0
  {
  }

  /** What all batches ask of the chunks of a document. */
  function AskedOf(chunks: seq<Chunk>, batches: seq<Batch>): int {
    if chunks == [] then 0 else AskedOf(chunks[..|chunks| - 1], batches) + Asked(batches, chunks[|chunks| - 1].id)
  }

  lemma {:induction false} AskedOfSnoc(chunks: seq<Chunk>, batches: seq<Batch>, batch: Batch)
    ensures AskedOf(chunks, batches + [batch]) == AskedOf(chunks, batches) + RequestedFor(chunks, batch.requested)
    decreases |chunks|
  {
    if chunks != [] {
      AskedOfSnoc(chunks[..|chunks| - 1], batches, batch);
      AskedSnoc(batches, batch, chunks[|chunks| - 1].id);
    }
  }

  lemma {:induction false} AskedOfNone(chunks: seq<Chunk>)
    ensures AskedOf(chunks, []) == 0
    decreases |chunks|
  {
    if chunks != [] {
      AskedOfNone(chunks[..|chunks| - 1]);
    }
  }

  lemma {:induction false} AskedByChunk(chunks: seq<Chunk>, batches: seq<Batch>, cardsPerRequest: int, context: seq<Chunk>)
    requires DistinctIds(chunks) && Drawn(batches, chunks)
    requires forall b :: b in batches ==> Sound(b, cardsPerRequest, context)
    ensures AskedInAll(batches) == AskedOf(chunks, batches)
    decreases |batches|
  {
    if batches == [] {
      AskedOfNone(chunks);
    } else {
      var k, b := |batches| - 1, batches[|batches| - 1];
      assert batches == batches[..k] + [b] && b in batches;
      hide RequestedFor, AskedOf, Asked;
      forall x | x in batches[..k] ensures x in batches {
      }
      AskedByChunk(chunks, batches[..k], cardsPerRequest, context);
      AskedOfSnoc(chunks, batches[..k], b);
      forall id | id in b.requested ensures id in Ids(chunks) {
        assert id in Ids(b.chunks);
      }
      RequestedIsTotal(chunks, b.requested);
      RequestedIsTotal(b.chunks, b.requested);
    }
  }

  lemma {:induction false} AskedIsAllocated(chunks: seq<Chunk>, batches: seq<Batch>, allocations: map<ChunkId, int>)
    requires forall i :: 0 <= i < |chunks| ==> Asked(batches, chunks[i].id) == Quota(allocations, chunks[i].id)
    ensures AskedOf(chunks, batches) == RequestedFor(chunks, allocations)
    decreases |chunks|
  {
    hide Asked;
    if chunks != [] {
      AskedIsAllocated(chunks[..|chunks| - 1], batches, allocations);
    }
  }
}
