/**
 * The acceptance loop of a generation run, for any provider: it never accepts more cards than asked for, in
 * total or per chunk, and it ends with exactly the target or with an error that hands over what it has.
 */
module Acceptance {
  import opened Prelude
  import opened Chunks
  import opened Adaptive
  import opened Batching
  import opened Preflight
  import opened Grounding
  import opened SummaryTree
  import Budget

  /** A provider answers the call at this place of the run with any list of candidates. */
  type Provider = (nat, nat, nat, Batch, seq<Card>) -> seq<Candidate>

  /** Prompt sizes may depend on the round and on the accepted cards shown as exclusions. */
  type Prompting = (nat, seq<Card>) -> PromptTokens

  datatype Rules = Rules(normalize: Normalize, similarity: Similarity, threshold: real)

  datatype Progress = Progress(
    accepted: seq<Card>,
    requestedBy: Tally,
    acceptedBy: Tally,
    rejected: nat,
    rejections: map<Rejection, nat>,
    requests: nat,
    reservedOutput: nat,
    ceilings: seq<nat>,
    answers: seq<seq<Candidate>>)

  const NOTHING := Progress([], map[], map[], 0, map[], 0, 0, [], [])

  function Rejected(rejections: map<Rejection, nat>, reason: Rejection): nat {
    if reason in rejections then rejections[reason] else 0
  }

  function AllRejections(rejections: map<Rejection, nat>): nat {
    Rejected(rejections, UnknownSource) + Rejected(rejections, ChunkQuota) + Rejected(rejections, QuoteNotContiguous)
    + Rejected(rejections, AnswerNotInQuote) + Rejected(rejections, UnclearQuestion)
    + Rejected(rejections, OptionMatchesQuestion) + Rejected(rejections, NearDuplicate)
  }

  /** The card was proposed in one of these answers, and keeps all that was proposed. */
  ghost predicate Sourced(card: Card, answers: seq<seq<Candidate>>, chunks: seq<Chunk>) {
    exists answer, candidate, chunk :: answer in answers && candidate in answer && chunk in chunks && MadeFrom(card, candidate, chunk)
  }

  /** What holds of the run at any moment. */
  ghost predicate Healthy(p: Progress, chunks: seq<Chunk>, rules: Rules) {
    && (forall c :: c in p.accepted ==> Grounded(rules.normalize, c, chunks) && Sourced(c, p.answers, chunks))
    && AllDistinct(p.accepted, rules.similarity, rules.threshold)
    && (forall id :: Count(p.acceptedBy, id) <= Count(p.requestedBy, id))
    && p.rejected == AllRejections(p.rejections)
    && |p.accepted| == TallyOf(chunks, p.acceptedBy)
    && p.requests == |p.ceilings| && p.reservedOutput == Sum(p.ceilings)
  }

  /** What the chunks of a document have been credited with. */
  function TallyOf(chunks: seq<Chunk>, tally: Tally): nat {
    if chunks == [] then 0 else TallyOf(chunks[..|chunks| - 1], tally) + Count(tally, chunks[|chunks| - 1].id)
  }

  lemma {:induction false} TallyElsewhere(chunks: seq<Chunk>, tally: Tally, id: ChunkId, n: nat)
    requires id !in Ids(chunks)
    ensures TallyOf(chunks, tally[id := n]) == TallyOf(chunks, tally)
    decreases |chunks|
  {
    if chunks != [] {
      var k := |chunks| - 1;
      assert chunks[k].id in Ids(chunks);
      forall x | x in Ids(chunks[..k]) ensures x in Ids(chunks) {
      }
      TallyElsewhere(chunks[..k], tally, id, n);
    }
  }

  lemma {:induction false} TallyMore(chunks: seq<Chunk>, tally: Tally, id: ChunkId)
    requires DistinctIds(chunks) && id in Ids(chunks)
    ensures TallyOf(chunks, tally[id := Count(tally, id) + 1]) == TallyOf(chunks, tally) + 1
    decreases |chunks|
  {
    var k := |chunks| - 1;
    assert chunks == chunks[..k] + [chunks[k]];
    IdsSnoc(chunks[..k], chunks[k]);
    if chunks[k].id == id {
      forall c | c in chunks[..k] ensures c.id != id {
      }
      TallyElsewhere(chunks[..k], tally, id, Count(tally, id) + 1);
    } else {
      TallyMore(chunks[..k], tally, id);
    }
  }

  lemma {:induction false} NothingTallied(chunks: seq<Chunk>)
    ensures TallyOf(chunks, map[]) == 0
    decreases |chunks|
  {
    if chunks != [] {
      NothingTallied(chunks[..|chunks| - 1]);
    }
  }

  function Reject(p: Progress, reason: Rejection): Progress {
    p.(rejected := p.rejected + 1, rejections := p.rejections[reason := Rejected(p.rejections, reason) + 1])
  }

  lemma RejectKeepsHealth(p: Progress, reason: Rejection, chunks: seq<Chunk>, rules: Rules)
    requires Healthy(p, chunks, rules)
    ensures Healthy(Reject(p, reason), chunks, rules)
  {
    hide Grounded, Sourced, AllDistinct, TallyOf, Sum, Count, AllRejections;
    OneMoreRejection(p.rejections, reason);
  }

  lemma OneMoreRejection(rejections: map<Rejection, nat>, reason: Rejection)
    ensures AllRejections(rejections[reason := Rejected(rejections, reason) + 1]) == AllRejections(rejections) + 1
  {
    var next := rejections[reason := Rejected(rejections, reason) + 1];
    forall r ensures Rejected(next, r) == Rejected(rejections, r) + (if r == reason then 1 else 0) {
    }
    hide Rejected;
    assert reason == UnknownSource || reason == ChunkQuota || reason == QuoteNotContiguous || reason == AnswerNotInQuote
        || reason == UnclearQuestion || reason == OptionMatchesQuestion || reason == NearDuplicate;
  }

  // What consuming candidates does, candidate by candidate

  datatype Consuming = Consuming(p: Progress, taken: map<ChunkId, int>)

  /** The first reason to turn a candidate away, or the card it becomes. */
  function Judge(c: Consuming, candidate: Candidate, batch: Batch, rules: Rules): Verdict {
    if candidate.source !in batch.requested then Invalid(UnknownSource)
    else if Quota(c.taken, candidate.source) >= batch.requested[candidate.source] then Invalid(ChunkQuota)
    else
      var verdict := Inspect(rules.normalize, candidate, batch.chunks);
      if verdict.Valid? && !Novel(c.p.accepted, verdict.card, rules.similarity, rules.threshold) then Invalid(NearDuplicate) else verdict
  }

  function Accept(c: Consuming, source: ChunkId, card: Card): Consuming {
    Consuming(
      c.p.(accepted := c.p.accepted + [card], acceptedBy := c.p.acceptedBy[source := Count(c.p.acceptedBy, source) + 1]),
      c.taken[source := Quota(c.taken, source) + 1])
  }

  function ConsumeOne(c: Consuming, candidate: Candidate, batch: Batch, rules: Rules): Consuming {
    match Judge(c, candidate, batch, rules)
    case Invalid(reason) => c.(p := Reject(c.p, reason))
    case Valid(card) => Accept(c, candidate.source, card)
  }

  /** Candidates are consumed in order, until one is accepted that reaches the target. */
  function Consume(c: Consuming, candidates: seq<Candidate>, batch: Batch, target: int, rules: Rules): Consuming
    decreases |candidates|
  {
    if candidates == [] then c else
      var next := ConsumeOne(c, candidates[0], batch, rules);
      if Judge(c, candidates[0], batch, rules).Valid? && |next.p.accepted| >= target then next
      else Consume(next, candidates[1..], batch, target, rules)
  }

  function Added(tally: Tally, requested: map<ChunkId, int>): Tally {
    map id | id in tally.Keys + requested.Keys ::
      var n := Count(tally, id) + Quota(requested, id); if n >= 0 then n else 0
  }

  function AfterCandidates(p: Progress, batch: Batch, candidates: seq<Candidate>, target: int, rules: Rules): Consuming {
    Consume(Consuming(p.(requestedBy := Added(p.requestedBy, batch.requested)), map[]), candidates, batch, target, rules)
  }

  /** A card the batch could have used is not thrown away: it is among the accepted, or one too similar to it is. */
  ghost predicate Excused(c: Consuming, candidate: Candidate, batch: Batch, rules: Rules) {
    || candidate.source !in batch.requested
    || Quota(c.taken, candidate.source) >= batch.requested[candidate.source]
    || Inspect(rules.normalize, candidate, batch.chunks).Invalid?
    || Inspect(rules.normalize, candidate, batch.chunks).card in c.p.accepted
    || !Novel(c.p.accepted, Inspect(rules.normalize, candidate, batch.chunks).card, rules.similarity, rules.threshold)
  }

  lemma StaysExcused(c: Consuming, next: Consuming, candidate: Candidate, batch: Batch, rules: Rules)
    requires Excused(c, candidate, batch, rules)
    requires c.p.accepted <= next.p.accepted && forall id :: Quota(c.taken, id) <= Quota(next.taken, id)
    ensures Excused(next, candidate, batch, rules)
  {
    hide Inspect;
    if candidate.source in batch.requested && Inspect(rules.normalize, candidate, batch.chunks).Valid? {
      var card := Inspect(rules.normalize, candidate, batch.chunks).card;
      if card in c.p.accepted {
        var i :| 0 <= i < |c.p.accepted| && c.p.accepted[i] == card;
        assert next.p.accepted[i] == card;
      } else if !Novel(c.p.accepted, card, rules.similarity, rules.threshold) {
        var i :| 0 <= i < |c.p.accepted| && rules.similarity(c.p.accepted[i], card) >= rules.threshold;
        assert rules.similarity(next.p.accepted[i], card) >= rules.threshold;
      }
    }
  }

  lemma OneExcused(c: Consuming, candidate: Candidate, batch: Batch, rules: Rules)
    ensures var next := ConsumeOne(c, candidate, batch, rules);
            && c.p.accepted <= next.p.accepted && (forall id :: Quota(c.taken, id) <= Quota(next.taken, id))
            && Excused(next, candidate, batch, rules)
  {
    hide Inspect;
  }

  /** Accepted cards and used quotas only grow. */
  lemma {:induction false} ConsumeGrows(c: Consuming, candidates: seq<Candidate>, batch: Batch, target: int, rules: Rules)
    ensures var r := Consume(c, candidates, batch, target, rules);
            c.p.accepted <= r.p.accepted && forall id :: Quota(c.taken, id) <= Quota(r.taken, id)
    decreases |candidates|
  {
    hide Excused, Judge;
    if candidates != [] {
      OneExcused(c, candidates[0], batch, rules);
      ConsumeGrows(ConsumeOne(c, candidates[0], batch, rules), candidates[1..], batch, target, rules);
    }
  }

  /** A batch that leaves the target unmet has used every answer it got, as far as quotas and distinctness allow. */
  lemma {:induction false} NothingWasted(c: Consuming, candidates: seq<Candidate>, batch: Batch, target: int, rules: Rules)
    requires |Consume(c, candidates, batch, target, rules).p.accepted| < target
    ensures forall k :: 0 <= k < |candidates| ==> Excused(Consume(c, candidates, batch, target, rules), candidates[k], batch, rules)
    decreases |candidates|
  {
    hide Excused, Judge, ConsumeOne;
    if candidates != [] {
      var next := ConsumeOne(c, candidates[0], batch, rules);
      OneExcused(c, candidates[0], batch, rules);
      ConsumeGrows(next, candidates[1..], batch, target, rules);
      NothingWasted(next, candidates[1..], batch, target, rules);
      StaysExcused(next, Consume(next, candidates[1..], batch, target, rules), candidates[0], batch, rules);
      forall k | 0 <= k < |candidates| ensures Excused(Consume(c, candidates, batch, target, rules), candidates[k], batch, rules) {
        assert k > 0 ==> candidates[k] == candidates[1..][k - 1];
      }
    }
  }

  // One batch

  /** What consuming part of a batch's candidates may have done. */
  ghost predicate Consumed(before: Progress, p: Progress, batch: Batch, batchAccepted: map<ChunkId, int>, seen: nat) {
    && batchAccepted.Keys <= batch.requested.Keys
    && (forall id :: 0 <= Quota(batchAccepted, id) <= Quota(batch.requested, id))
    && |p.accepted| == |before.accepted| + RequestedFor(batch.chunks, batchAccepted)
    && (forall id :: Count(p.acceptedBy, id) == Count(before.acceptedBy, id) + Quota(batchAccepted, id))
    && p.requestedBy == before.requestedBy && p.requests == before.requests && p.reservedOutput == before.reservedOutput
    && p.ceilings == before.ceilings && p.answers == before.answers
    && p.rejected + |p.accepted| == before.rejected + |before.accepted| + seen
  }

  lemma {:induction false} NoMoreThanAsked(chunks: seq<Chunk>, part: map<ChunkId, int>, whole: map<ChunkId, int>)
    requires forall id :: 0 <= Quota(part, id) <= Quota(whole, id)
    ensures 0 <= RequestedFor(chunks, part) <= RequestedFor(chunks, whole)
    decreases |chunks|
  {
    if chunks != [] {
      NoMoreThanAsked(chunks[..|chunks| - 1], part, whole);
    }
  }

  lemma AcceptKeeps(before: Progress, p: Progress, batch: Batch, batchAccepted: map<ChunkId, int>, seen: nat, source: ChunkId, card: Card,
                    chunks: seq<Chunk>, rules: Rules, next: Progress)
    requires DistinctIds(batch.chunks) && batch.requested.Keys == Ids(batch.chunks)
    requires DistinctIds(chunks) && source in Ids(chunks)
    requires Healthy(p, chunks, rules) && Consumed(before, p, batch, batchAccepted, seen)
    requires source in batch.requested && Quota(batchAccepted, source) < batch.requested[source]
    requires forall id :: Count(before.acceptedBy, id) + Quota(batch.requested, id) <= Count(before.requestedBy, id)
    requires Grounded(rules.normalize, card, chunks) && Sourced(card, p.answers, chunks) && AllDistinct(p.accepted + [card], rules.similarity, rules.threshold)
    requires next == p.(accepted := p.accepted + [card], acceptedBy := p.acceptedBy[source := Count(p.acceptedBy, source) + 1])
    ensures Healthy(next, chunks, rules)
    ensures Consumed(before, next, batch, batchAccepted[source := Quota(batchAccepted, source) + 1], seen + 1)
  {
    hide Grounded, Sourced, AllDistinct, RequestedFor, AllRejections, TallyOf;
    TallyMore(chunks, p.acceptedBy, source);
    RequestedMore(batch.chunks, batchAccepted, source, 1);
    var taken := batchAccepted[source := Quota(batchAccepted, source) + 1];
    forall id ensures Count(next.acceptedBy, id) == Count(p.acceptedBy, id) + (if id == source then 1 else 0) {
    }
    forall id ensures Quota(taken, id) == Quota(batchAccepted, id) + (if id == source then 1 else 0) {
    }
    assert Quota(batch.requested, source) == batch.requested[source] && taken.Keys <= batch.requested.Keys;
    hide Count, Quota, DistinctIds, Ids;
  }

  lemma RejectConsumes(before: Progress, p: Progress, batch: Batch, batchAccepted: map<ChunkId, int>, seen: nat, reason: Rejection)
    requires Consumed(before, p, batch, batchAccepted, seen)
    ensures Consumed(before, Reject(p, reason), batch, batchAccepted, seen + 1)
  {
    hide RequestedFor;
  }

  /** The tallies once the batch counts as requested. */
  lemma RequestedFirst(p: Progress, batch: Batch, chunks: seq<Chunk>, rules: Rules, asked: Progress)
    requires Healthy(p, chunks, rules) && (forall id :: 0 <= Quota(batch.requested, id))
    requires asked == p.(requestedBy := asked.requestedBy)
    requires forall id :: Count(asked.requestedBy, id) == Count(p.requestedBy, id) + Quota(batch.requested, id)
    ensures Healthy(asked, chunks, rules) && Consumed(asked, asked, batch, map[], 0)
    ensures forall id :: Count(asked.acceptedBy, id) + Quota(batch.requested, id) <= Count(asked.requestedBy, id)
  {
    hide Grounded, Sourced, AllDistinct, AllRejections, TallyOf;
    NothingAccepted(batch.chunks);
  }

  lemma {:induction false} NothingAccepted(chunks: seq<Chunk>)
    ensures RequestedFor(chunks, map[]) == 0
    decreases |chunks|
  {
    if chunks != [] {
      NothingAccepted(chunks[..|chunks| - 1]);
    }
  }

  /** What one batch may change. */
  ghost predicate BatchDone(before: Progress, p: Progress, batch: Batch, candidates: nat, target: int) {
    && |before.accepted| <= |p.accepted| <= |before.accepted| + RequestedCount(batch)
    && (forall id :: Count(p.requestedBy, id) == Count(before.requestedBy, id) + Quota(batch.requested, id))
    && (forall id :: Count(before.acceptedBy, id) <= Count(p.acceptedBy, id) <= Count(before.acceptedBy, id) + Quota(batch.requested, id))
    && p.requests == before.requests && p.reservedOutput == before.reservedOutput && p.ceilings == before.ceilings && p.answers == before.answers
    && p.rejected + |p.accepted| <= before.rejected + |before.accepted| + candidates
    && (|p.accepted| < target ==> p.rejected + |p.accepted| == before.rejected + |before.accepted| + candidates)
  }

  lemma ConsumedIsDone(before: Progress, asked: Progress, p: Progress, batch: Batch, batchAccepted: map<ChunkId, int>, seen: nat,
                       candidates: nat, target: int)
    requires asked == before.(requestedBy := asked.requestedBy)
    requires forall id :: Count(asked.requestedBy, id) == Count(before.requestedBy, id) + Quota(batch.requested, id)
    requires Consumed(asked, p, batch, batchAccepted, seen) && seen <= candidates && (seen < candidates ==> |p.accepted| >= target)
    ensures BatchDone(before, p, batch, candidates, target)
  {
    hide RequestedFor;
    NoMoreThanAsked(batch.chunks, batchAccepted, batch.requested);
  }

  /** Validation of the candidates of one batch, within its quotas. */
  method ConsumeBatch(before: Progress, batch: Batch, candidates: seq<Candidate>, target: int, chunks: seq<Chunk>, rules: Rules)
    returns (p: Progress)
    requires DistinctIds(batch.chunks) && batch.requested.Keys == Ids(batch.chunks)
    requires forall id :: id in batch.requested ==> batch.requested[id] >= 1
    requires DistinctIds(chunks) && forall c :: c in batch.chunks ==> c in chunks
    requires Healthy(before, chunks, rules) && candidates in before.answers
    ensures Handled(before, p, candidates, batch, target, rules)
    ensures p == AfterCandidates(before, batch, candidates, target, rules).p
    ensures Healthy(p, chunks, rules) && BatchDone(before, p, batch, |candidates|, target)
  {
    hide *;
    QuotasNonNegative(batch);
    var requestedBy := AddCounts(batch.chunks, before.requestedBy, batch.requested);
    RequestedMeans(batch, before.requestedBy, requestedBy);
    p := before.(requestedBy := requestedBy);
    ghost var asked := p;
    var batchAccepted: map<ChunkId, int> := map[];
    RequestedFirst(before, batch, chunks, rules, asked);
    ghost var result := AfterCandidates(before, batch, candidates, target, rules);
    FirstCandidate(before, batch, candidates, target, rules);
    var i := 0;
    while i < |candidates|
      invariant 0 <= i <= |candidates|
      invariant Healthy(p, chunks, rules) && Consumed(asked, p, batch, batchAccepted, i)
      invariant result == Consume(Consuming(p, batchAccepted), candidates[i..], batch, target, rules)
      decreases |candidates| - i
    {
      var candidate := candidates[i];
      NextCandidate(Consuming(p, batchAccepted), candidates, i, batch, target, rules);
      i := i + 1;
      if candidate.source !in batch.requested {
        Rejecting(asked, p, batch, batchAccepted, i - 1, UnknownSource, chunks, rules);
        p := Reject(p, UnknownSource);
        continue;
      }
      if Quota(batchAccepted, candidate.source) >= batch.requested[candidate.source] {
        Rejecting(asked, p, batch, batchAccepted, i - 1, ChunkQuota, chunks, rules);
        p := Reject(p, ChunkQuota);
        continue;
      }
      var verdict := Inspect(rules.normalize, candidate, batch.chunks);
      if verdict.Invalid? {
        Rejecting(asked, p, batch, batchAccepted, i - 1, verdict.reason, chunks, rules);
        p := Reject(p, verdict.reason);
        continue;
      }
      HealthyDistinct(p, chunks, rules);
      var accepted, added := AppendIfDistinct(p.accepted, verdict.card, rules.similarity, rules.threshold);
      if !added {
        Rejecting(asked, p, batch, batchAccepted, i - 1, NearDuplicate, chunks, rules);
        p := Reject(p, NearDuplicate);
        continue;
      }
      var next := p.(accepted := accepted, acceptedBy := p.acceptedBy[candidate.source := Count(p.acceptedBy, candidate.source) + 1]);
      Accepting(asked, p, batch, batchAccepted, i - 1, candidates, candidate, verdict.card, chunks, rules, next);
      batchAccepted := batchAccepted[candidate.source := Quota(batchAccepted, candidate.source) + 1];
      p := next;
      if |p.accepted| >= target {
        break;
      }
    }
    NoCandidates(Consuming(p, batchAccepted), batch, target, rules);
    assert i == |candidates| ==> candidates[i..] == [];
    ConsumedIsDone(before, asked, p, batch, batchAccepted, i, |candidates|, target);
    ItIsHandled(before, p, candidates, batch, target, rules);
  }

  lemma Rejecting(before: Progress, p: Progress, batch: Batch, batchAccepted: map<ChunkId, int>, seen: nat, reason: Rejection,
                  chunks: seq<Chunk>, rules: Rules)
    requires Healthy(p, chunks, rules) && Consumed(before, p, batch, batchAccepted, seen)
    ensures Healthy(Reject(p, reason), chunks, rules) && Consumed(before, Reject(p, reason), batch, batchAccepted, seen + 1)
  {
    hide Healthy, Consumed, Reject;
    RejectConsumes(before, p, batch, batchAccepted, seen, reason);
    RejectKeepsHealth(p, reason, chunks, rules);
  }

  lemma Accepting(before: Progress, p: Progress, batch: Batch, batchAccepted: map<ChunkId, int>, seen: nat, candidates: seq<Candidate>,
                  candidate: Candidate, card: Card, chunks: seq<Chunk>, rules: Rules, next: Progress)
    requires DistinctIds(batch.chunks) && batch.requested.Keys == Ids(batch.chunks)
    requires DistinctIds(chunks) && forall c :: c in batch.chunks ==> c in chunks
    requires Healthy(p, chunks, rules) && Consumed(before, p, batch, batchAccepted, seen)
    requires candidates in before.answers && candidate in candidates
    requires candidate.source in batch.requested && Quota(batchAccepted, candidate.source) < batch.requested[candidate.source]
    requires Inspect(rules.normalize, candidate, batch.chunks) == Valid(card)
    requires forall id :: Count(before.acceptedBy, id) + Quota(batch.requested, id) <= Count(before.requestedBy, id)
    requires AllDistinct(p.accepted + [card], rules.similarity, rules.threshold)
    requires next == p.(accepted := p.accepted + [card],
                        acceptedBy := p.acceptedBy[candidate.source := Count(p.acceptedBy, candidate.source) + 1])
    ensures Healthy(next, chunks, rules)
    ensures Consumed(before, next, batch, batchAccepted[candidate.source := Quota(batchAccepted, candidate.source) + 1], seen + 1)
  {
    hide *;
    ValidIsGrounded(rules.normalize, candidate, batch.chunks);
    SourceIsThere(batch, chunks, candidate.source);
    GroundedInMore(rules.normalize, card, batch.chunks, chunks);
    CardIsSourced(before, p, batch, batchAccepted, seen, candidates, candidate, card, chunks);
    AcceptKeeps(before, p, batch, batchAccepted, seen, candidate.source, card, chunks, rules, next);
  }

  lemma CardIsSourced(before: Progress, p: Progress, batch: Batch, batchAccepted: map<ChunkId, int>, seen: nat,
                      candidates: seq<Candidate>, candidate: Candidate, card: Card, chunks: seq<Chunk>)
    requires Consumed(before, p, batch, batchAccepted, seen) && candidates in before.answers && candidate in candidates
    requires forall c :: c in batch.chunks ==> c in chunks
    requires exists chunk :: chunk in batch.chunks && MadeFrom(card, candidate, chunk)
    ensures Sourced(card, p.answers, chunks)
  {
    hide MadeFrom;
  }

  // The same, without the functions: what each candidate meets or breaks decides

  /** Turned away under this reason, and nothing else happened. */
  ghost predicate Turned(c: Consuming, next: Consuming, reason: Rejection) {
    && next.taken == c.taken
    && next.p == c.p.(rejected := c.p.rejected + 1, rejections := next.p.rejections)
    && forall r :: Rejected(next.p.rejections, r) == Rejected(c.p.rejections, r) + (if r == reason then 1 else 0)
  }

  /** Accepted as the last card, and credited to its chunk. */
  ghost predicate TakenUp(c: Consuming, next: Consuming, source: ChunkId, card: Card) {
    && next.p == c.p.(accepted := c.p.accepted + [card], acceptedBy := next.p.acceptedBy)
    && (forall id :: Count(next.p.acceptedBy, id) == Count(c.p.acceptedBy, id) + (if id == source then 1 else 0))
    && (forall id :: Quota(next.taken, id) == Quota(c.taken, id) + (if id == source then 1 else 0))
  }

  /** A candidate of this chunk is accepted if it meets the five conditions and is no near duplicate; else the first that fails is counted. */
  ghost predicate Weighed(c: Consuming, next: Consuming, candidate: Candidate, chunk: Chunk, rules: Rules) {
    var card := Card(candidate.front, candidate.back, candidate.options, candidate.quote, chunk.page, chunk.section);
    if !Quoted(rules.normalize, candidate, chunk) then Turned(c, next, QuoteNotContiguous)
    else if !AnsweredInQuote(rules.normalize, candidate) then Turned(c, next, AnswerNotInQuote)
    else if !ClearQuestion(rules.normalize, candidate) then Turned(c, next, UnclearQuestion)
    else if !OptionsDiffer(rules.normalize, candidate) then Turned(c, next, OptionMatchesQuestion)
    else if exists i :: 0 <= i < |c.p.accepted| && rules.similarity(c.p.accepted[i], card) >= rules.threshold then Turned(c, next, NearDuplicate)
    else TakenUp(c, next, candidate.source, card)
  }

  ghost predicate Treated(c: Consuming, next: Consuming, candidate: Candidate, batch: Batch, rules: Rules) {
    if candidate.source !in batch.requested then Turned(c, next, UnknownSource)
    else if Quota(c.taken, candidate.source) >= batch.requested[candidate.source] then Turned(c, next, ChunkQuota)
    else exists chunk :: chunk in batch.chunks && chunk.id == candidate.source && Weighed(c, next, candidate, chunk, rules)
  }

  /** One candidate after the other, up to the first acceptance that reaches the target. */
  ghost predicate TreatedInTurn(trail: seq<Consuming>, candidates: seq<Candidate>, batch: Batch, target: int, rules: Rules) {
    && 1 <= |trail| <= |candidates| + 1
    && (forall i :: 0 <= i < |trail| - 1 ==> Treated(trail[i], trail[i + 1], candidates[i], batch, rules))
    && (forall i :: 0 <= i < |trail| - 1 && Reaches(trail[i], trail[i + 1], target) ==> i + 2 == |trail|)
    && (|trail| <= |candidates| ==> |trail| >= 2 && Reaches(trail[|trail| - 2], trail[|trail| - 1], target))
  }

  predicate Reaches(c: Consuming, next: Consuming, target: int) {
    |next.p.accepted| > |c.p.accepted| && |next.p.accepted| >= target
  }

  ghost predicate Handled(before: Progress, p: Progress, candidates: seq<Candidate>, batch: Batch, target: int, rules: Rules) {
    exists trail: seq<Consuming> :: TreatedInTurn(trail, candidates, batch, target, rules)
                    && trail[0] == Consuming(before.(requestedBy := p.requestedBy), map[]) && trail[|trail| - 1].p == p
  }

  lemma OneIsTreated(c: Consuming, candidate: Candidate, batch: Batch, rules: Rules)
    requires DistinctIds(batch.chunks) && batch.requested.Keys == Ids(batch.chunks)
    ensures Treated(c, ConsumeOne(c, candidate, batch, rules), candidate, batch, rules)
  {
    RejectionTurns(c);
    hide Inspect, DistinctIds, Turned, Reject;
    if candidate.source in batch.requested && Quota(c.taken, candidate.source) < batch.requested[candidate.source] {
      var chunk :| chunk in batch.chunks && chunk.id == candidate.source;
      OneIsWeighed(c, candidate, chunk, batch, rules);
    }
  }

  lemma OneIsWeighed(c: Consuming, candidate: Candidate, chunk: Chunk, batch: Batch, rules: Rules)
    requires DistinctIds(batch.chunks) && chunk in batch.chunks && chunk.id == candidate.source
    requires candidate.source in batch.requested && Quota(c.taken, candidate.source) < batch.requested[candidate.source]
    ensures Weighed(c, ConsumeOne(c, candidate, batch, rules), candidate, chunk, rules)
  {
    RejectionTurns(c);
    hide Inspect, DistinctIds, Quoted, AnsweredInQuote, ClearQuestion, OptionsDiffer, Turned, Reject;
    InspectionDecides(rules.normalize, candidate, batch.chunks, chunk);
  }

  lemma RejectionTurns(c: Consuming)
    ensures forall reason :: Turned(c, c.(p := Reject(c.p, reason)), reason)
  {
  }

  lemma OneReaches(c: Consuming, candidate: Candidate, batch: Batch, rules: Rules)
    ensures Judge(c, candidate, batch, rules).Valid? <==> |ConsumeOne(c, candidate, batch, rules).p.accepted| > |c.p.accepted|
    ensures ConsumeOne(c, candidate, batch, rules).p.requestedBy == c.p.requestedBy
  {
    hide Judge;
  }

  lemma {:induction false} AllTreated(c: Consuming, candidates: seq<Candidate>, batch: Batch, target: int, rules: Rules) returns (trail: seq<Consuming>)
    requires DistinctIds(batch.chunks) && batch.requested.Keys == Ids(batch.chunks)
    ensures TreatedInTurn(trail, candidates, batch, target, rules)
    ensures trail != [] && trail[0] == c && trail[|trail| - 1] == Consume(c, candidates, batch, target, rules)
    ensures Consume(c, candidates, batch, target, rules).p.requestedBy == c.p.requestedBy
    decreases |candidates|
  {
    hide Judge, ConsumeOne, Treated, DistinctIds, Ids;
    if candidates == [] {
      trail := [c];
    } else {
      var next := ConsumeOne(c, candidates[0], batch, rules);
      OneIsTreated(c, candidates[0], batch, rules);
      OneReaches(c, candidates[0], batch, rules);
      if Judge(c, candidates[0], batch, rules).Valid? && |next.p.accepted| >= target {
        trail := [c, next];
      } else {
        var rest := AllTreated(next, candidates[1..], batch, target, rules);
        trail := [c] + rest;
      }
    }
  }

  lemma ItIsHandled(before: Progress, p: Progress, candidates: seq<Candidate>, batch: Batch, target: int, rules: Rules)
    requires DistinctIds(batch.chunks) && batch.requested.Keys == Ids(batch.chunks)
    requires p == AfterCandidates(before, batch, candidates, target, rules).p
    ensures Handled(before, p, candidates, batch, target, rules)
  {
    hide TreatedInTurn, Consume, Added;
    var start := Consuming(before.(requestedBy := Added(before.requestedBy, batch.requested)), map[]);
    var trail := AllTreated(start, candidates, batch, target, rules);
    assert trail[0].p == before.(requestedBy := p.requestedBy) && trail[|trail| - 1].p == p by {
      assert p.requestedBy == start.p.requestedBy;
    }
    assert TreatedInTurn(trail, candidates, batch, target, rules);
  }

  lemma FirstCandidate(before: Progress, batch: Batch, candidates: seq<Candidate>, target: int, rules: Rules)
    ensures AfterCandidates(before, batch, candidates, target, rules)
            == Consume(Consuming(before.(requestedBy := Added(before.requestedBy, batch.requested)), map[]), candidates[0..], batch, target, rules)
  {
    assert candidates[0..] == candidates;
  }

  lemma NoCandidates(c: Consuming, batch: Batch, target: int, rules: Rules)
    ensures Consume(c, [], batch, target, rules) == c
  {
  }

  /** What the next candidate leads to, case by case. */
  lemma NextCandidate(c: Consuming, candidates: seq<Candidate>, i: nat, batch: Batch, target: int, rules: Rules)
    requires i < |candidates|
    ensures var result, candidate := Consume(c, candidates[i..], batch, target, rules), candidates[i];
            var verdict := Inspect(rules.normalize, candidate, batch.chunks);
            var rejected := (reason: Rejection) =>
              Consume(c.(p := Reject(c.p, reason)), candidates[i + 1..], batch, target, rules);
            if candidate.source !in batch.requested then result == rejected(UnknownSource)
            else if Quota(c.taken, candidate.source) >= batch.requested[candidate.source] then result == rejected(ChunkQuota)
            else if verdict.Invalid? then result == rejected(verdict.reason)
            else if !Novel(c.p.accepted, verdict.card, rules.similarity, rules.threshold) then result == rejected(NearDuplicate)
            else
              var next := Consuming(
                c.p.(accepted := c.p.accepted + [verdict.card],
                     acceptedBy := c.p.acceptedBy[candidate.source := Count(c.p.acceptedBy, candidate.source) + 1]),
                c.taken[candidate.source := Quota(c.taken, candidate.source) + 1]);
              result == if |next.p.accepted| >= target then next else Consume(next, candidates[i + 1..], batch, target, rules)
  {
    hide Inspect, Novel, Reject, Quota, Count;
    assert candidates[i..][0] == candidates[i] && candidates[i..][1..] == candidates[i + 1..];
  }

  lemma SourceIsThere(batch: Batch, chunks: seq<Chunk>, id: ChunkId)
    requires batch.requested.Keys == Ids(batch.chunks) && id in batch.requested
    requires forall c :: c in batch.chunks ==> c in chunks
    ensures id in Ids(chunks)
  {
    assert id in Ids(batch.chunks);
  }

  lemma HealthyDistinct(p: Progress, chunks: seq<Chunk>, rules: Rules)
    requires Healthy(p, chunks, rules)
    ensures AllDistinct(p.accepted, rules.similarity, rules.threshold)
  {
  }

  lemma QuotasNonNegative(batch: Batch)
    requires forall id :: id in batch.requested ==> batch.requested[id] >= 1
    ensures forall id :: Quota(batch.requested, id) >= 0
  {
  }

  lemma RequestedMeans(batch: Batch, before: Tally, after: Tally)
    requires batch.requested.Keys == Ids(batch.chunks)
    requires forall id :: id in batch.requested ==> batch.requested[id] >= 1
    requires forall id :: Count(after, id) == Count(before, id) + (if id in Ids(batch.chunks) then Quota(batch.requested, id) else 0)
    requires after.Keys == before.Keys + Ids(batch.chunks)
    ensures forall id :: Count(after, id) == Count(before, id) + Quota(batch.requested, id)
    ensures forall id :: 0 <= Quota(batch.requested, id)
    ensures after == Added(before, batch.requested)
  {
    hide Ids;
    forall id | id in after ensures after[id] == Added(before, batch.requested)[id] {
      assert Count(after, id) == Count(before, id) + Quota(batch.requested, id);
    }
  }

  // One round

  /** The run after the answer to one call. */
  function AfterBatch(p: Progress, batch: Batch, candidates: seq<Candidate>, target: int, rules: Rules, settings: Settings): Progress {
    AfterCandidates(Called(p, batch, candidates, settings), batch, candidates, target, rules).p
  }

  /** The run with this call made and answered, before the answer is looked at. */
  function Called(p: Progress, batch: Batch, candidates: seq<Candidate>, settings: Settings): Progress {
    p.(requests := p.requests + 1, reservedOutput := p.reservedOutput + BatchReserve(settings, batch),
       ceilings := p.ceilings + [BatchReserve(settings, batch)], answers := p.answers + [candidates])
  }

  /** The run after a wave: every call is shown the same accepted cards, and the answers are consumed in order. */
  function AfterWave(p: Progress, wave: seq<Batch>, shown: seq<Card>, round: nat, waveIndex: nat, target: int,
                     rules: Rules, settings: Settings, provider: Provider): Progress
    decreases |wave|
  {
    if wave == [] then p else
      var k := |wave| - 1;
      AfterBatch(AfterWave(p, wave[..k], shown, round, waveIndex, target, rules, settings, provider), wave[k],
                 provider(round, waveIndex, k, wave[k], shown), target, rules, settings)
  }

  /** The run after the waves of a round: once the target is met no further wave goes out. */
  function AfterWaves(p: Progress, waves: seq<seq<Batch>>, round: nat, target: int, rules: Rules, settings: Settings, provider: Provider): Progress
    decreases |waves|
  {
    if waves == [] then p else
      var k := |waves| - 1;
      var q := AfterWaves(p, waves[..k], round, target, rules, settings, provider);
      if |q.accepted| >= target then q
      else AfterWave(q, waves[k], q.accepted, round, k, target, rules, settings, provider)
  }

  lemma {:induction false} NoMoreWaves(p: Progress, waves: seq<seq<Batch>>, n: nat, round: nat, target: int,
                                       rules: Rules, settings: Settings, provider: Provider)
    requires n <= |waves| && |AfterWaves(p, waves[..n], round, target, rules, settings, provider).accepted| >= target
    ensures AfterWaves(p, waves, round, target, rules, settings, provider) == AfterWaves(p, waves[..n], round, target, rules, settings, provider)
    decreases |waves|
  {
    hide AfterWave;
    if n == |waves| {
      assert waves[..n] == waves;
    } else {
      var k := |waves| - 1;
      assert waves[..k][..n] == waves[..n];
      NoMoreWaves(p, waves[..k], n, round, target, rules, settings, provider);
    }
  }

  /** What a round sends out: a fair allocation of what is missing, in batches that are never closed early, in waves. */
  ghost predicate Planned(before: Progress, waves: seq<seq<Batch>>, round: nat, target: nat, chunks: seq<Chunk>, context: seq<Chunk>,
                          settings: Settings, prompting: Prompting)
  {
    exists allocation, batches :: PlannedAs(before, allocation, batches, round, target, chunks, context, settings, prompting)
                                  && Waves(waves, batches)
  }

  ghost predicate PlannedAs(before: Progress, allocation: map<ChunkId, int>, batches: seq<Batch>, round: nat, target: nat,
                            chunks: seq<Chunk>, context: seq<Chunk>, settings: Settings, prompting: Prompting)
  {
    var tokens := prompting(round, before.accepted);
    && Fair(chunks, before.requestedBy, target - |before.accepted|, allocation)
    && ProductiveFirst(chunks, before.requestedBy, before.acceptedBy, allocation)
    && (forall id :: Asked(batches, id) == if id in Ids(chunks) then Max(0, Quota(allocation, id)) else 0)
    && AllSound(batches, settings.cardsPerRequest, context, tokens, settings.promptReserve, settings.requestTarget)
    && Greedy(batches, settings.cardsPerRequest, tokens, settings.promptReserve, settings.requestTarget)
  }

  ghost predicate RoundStep(before: Progress, p: Progress, round: nat, target: nat, chunks: seq<Chunk>, context: seq<Chunk>,
                            rules: Rules, settings: Settings, prompting: Prompting, provider: Provider)
  {
    exists waves :: Planned(before, waves, round, target, chunks, context, settings, prompting)
                    && p == AfterWaves(before, waves, round, target, rules, settings, provider)
  }

  /** What a round's batches so far may have done to the run. */
  ghost predicate RoundSoFar(before: Progress, p: Progress, batches: seq<Batch>, done: nat, chunks: seq<Chunk>, settings: Settings)
    requires done <= |batches|
  {
    && |before.accepted| <= |p.accepted| <= |before.accepted| + AskedInAll(batches[..done])
    && TallyOf(chunks, p.requestedBy) == TallyOf(chunks, before.requestedBy) + AskedInAll(batches[..done])
    && p.requests == before.requests + done
    && p.reservedOutput == before.reservedOutput + OutputOf(settings, batches[..done])
  }

  /** The calls of a wave go out together; their answers are then consumed in order. */
  method RunWave(before: Progress, ghost batches: seq<Batch>, ghost from: nat, wave: seq<Batch>, round: nat, waveIndex: nat, target: int,
                 chunks: seq<Chunk>, rules: Rules, settings: Settings, provider: Provider, ghost start: Progress)
    returns (p: Progress)
    requires from + |wave| <= |batches| && wave == batches[from..from + |wave|]
    requires DistinctIds(chunks) && forall b :: b in wave ==> Usable(b, chunks)
    requires Healthy(before, chunks, rules) && RoundSoFar(start, before, batches, from, chunks, settings)
    ensures p == AfterWave(before, wave, before.accepted, round, waveIndex, target, rules, settings, provider)
    ensures Healthy(p, chunks, rules) && RoundSoFar(start, p, batches, from + |wave|, chunks, settings)
    ensures |before.accepted| <= |p.accepted|
  {
    hide *;
    p := before;
    NothingAnswered(before, round, waveIndex, target, rules, settings, provider);
    assert wave[..0] == [];
    for b := 0 to |wave|
      invariant Healthy(p, chunks, rules) && RoundSoFar(start, p, batches, from + b, chunks, settings)
      invariant |before.accepted| <= |p.accepted|
      invariant p == AfterWave(before, wave[..b], before.accepted, round, waveIndex, target, rules, settings, provider)
    {
      var candidates := provider(round, waveIndex, b, wave[b], before.accepted);
      UsableMeans(wave[b], chunks);
      CallIsHealthy(p, wave[b], candidates, settings, chunks, rules);
      var next := ConsumeBatch(Called(p, wave[b], candidates, settings), wave[b], candidates, target, chunks, rules);
      OneBatchMore(start, p, next, batches, from + b, wave[b], candidates, target, settings, chunks);
      OneAnswerMore(before, wave, b, round, waveIndex, target, rules, settings, provider);
      p := next;
    }
    assert wave[..|wave|] == wave;
  }

  lemma NothingAnswered(p: Progress, round: nat, waveIndex: nat, target: int, rules: Rules, settings: Settings, provider: Provider)
    ensures AfterWave(p, [], p.accepted, round, waveIndex, target, rules, settings, provider) == p
    ensures AfterWaves(p, [], round, target, rules, settings, provider) == p
  {
  }

  lemma OneAnswerMore(p: Progress, wave: seq<Batch>, b: nat, round: nat, waveIndex: nat, target: int,
                      rules: Rules, settings: Settings, provider: Provider)
    requires b < |wave|
    ensures var before := AfterWave(p, wave[..b], p.accepted, round, waveIndex, target, rules, settings, provider);
            var candidates := provider(round, waveIndex, b, wave[b], p.accepted);
            AfterWave(p, wave[..b + 1], p.accepted, round, waveIndex, target, rules, settings, provider)
            == AfterCandidates(Called(before, wave[b], candidates, settings), wave[b], candidates, target, rules).p
  {
    hide AfterCandidates, Called;
    assert wave[..b + 1][..b] == wave[..b];
  }

  lemma OneWaveMore(p: Progress, waves: seq<seq<Batch>>, w: nat, round: nat, target: int, rules: Rules, settings: Settings, provider: Provider)
    requires w < |waves| && |AfterWaves(p, waves[..w], round, target, rules, settings, provider).accepted| < target
    ensures var q := AfterWaves(p, waves[..w], round, target, rules, settings, provider);
            AfterWaves(p, waves[..w + 1], round, target, rules, settings, provider)
            == AfterWave(q, waves[w], q.accepted, round, w, target, rules, settings, provider)
  {
    hide AfterWave;
    assert waves[..w + 1][..w] == waves[..w];
  }

  ghost predicate Usable(batch: Batch, chunks: seq<Chunk>) {
    && DistinctIds(batch.chunks) && batch.requested.Keys == Ids(batch.chunks)
    && (forall id :: id in batch.requested ==> batch.requested[id] >= 1)
    && (forall c :: c in batch.chunks ==> c in chunks)
    && RequestedCount(batch) >= 1
  }

  lemma UsableMeans(batch: Batch, chunks: seq<Chunk>)
    requires Usable(batch, chunks)
    ensures DistinctIds(batch.chunks) && batch.requested.Keys == Ids(batch.chunks)
    ensures forall id :: id in batch.requested ==> batch.requested[id] >= 1
    ensures forall c :: c in batch.chunks ==> c in chunks
  {
  }

  lemma CallIsHealthy(p: Progress, batch: Batch, candidates: seq<Candidate>, settings: Settings, chunks: seq<Chunk>, rules: Rules)
    requires Healthy(p, chunks, rules)
    ensures Healthy(Called(p, batch, candidates, settings), chunks, rules) && candidates in Called(p, batch, candidates, settings).answers
  {
    hide Grounded, AllDistinct, AllRejections, BatchReserve, TallyOf, MadeFrom;
    SumSnoc(p.ceilings, BatchReserve(settings, batch));
    var q := Called(p, batch, candidates, settings);
    forall c | c in p.accepted ensures Sourced(c, q.answers, chunks) {
      var answer, candidate, chunk :| answer in p.answers && candidate in answer && chunk in chunks && MadeFrom(c, candidate, chunk);
      assert answer in q.answers;
    }
  }

  lemma OneBatchMore(start: Progress, before: Progress, next: Progress, batches: seq<Batch>, done: nat, batch: Batch,
                     candidates: seq<Candidate>, target: int, settings: Settings, chunks: seq<Chunk>)
    requires done < |batches| && batches[done] == batch && DistinctIds(chunks) && Usable(batch, chunks)
    requires RoundSoFar(start, before, batches, done, chunks, settings)
    requires BatchDone(Called(before, batch, candidates, settings), next, batch, |candidates|, target)
    ensures RoundSoFar(start, next, batches, done + 1, chunks, settings)
    ensures |before.accepted| <= |next.accepted|
  {
    hide RequestedFor, BatchReserve, TallyOf, Usable, DistinctIds;
    assert batches[..done + 1][..done] == batches[..done];
    TallyRises(before.requestedBy, next.requestedBy, batch, chunks);
  }

  lemma TallyRises(before: Tally, after: Tally, batch: Batch, chunks: seq<Chunk>)
    requires DistinctIds(chunks) && Usable(batch, chunks)
    requires forall id :: Count(after, id) == Count(before, id) + Quota(batch.requested, id)
    ensures TallyOf(chunks, after) == TallyOf(chunks, before) + RequestedCount(batch)
  {
    forall id | id in batch.requested ensures id in Ids(chunks) {
      assert id in Ids(batch.chunks);
    }
    hide TallyOf, RequestedFor, DistinctIds;
    TallySum(chunks, before, after, batch.requested);
    RequestedIsTotal(chunks, batch.requested);
    RequestedIsTotal(batch.chunks, batch.requested);
  }

  lemma {:induction false} TallySum(chunks: seq<Chunk>, before: Tally, after: Tally, requested: map<ChunkId, int>)
    requires forall id :: Count(after, id) == Count(before, id) + Quota(requested, id)
    ensures TallyOf(chunks, after) == TallyOf(chunks, before) + RequestedFor(chunks, requested)
    decreases |chunks|
  {
    if chunks != [] {
      TallySum(chunks[..|chunks| - 1], before, after, requested);
    }
  }

  lemma {:induction false} PartOfBatches(settings: Settings, batches: seq<Batch>, done: nat)
    requires done <= |batches| && forall b :: b in batches ==> RequestedCount(b) >= 0
    ensures AskedInAll(batches[..done]) <= AskedInAll(batches)
    ensures OutputOf(settings, batches[..done]) <= OutputOf(settings, batches)
    decreases |batches|
  {
    if done == |batches| {
      assert batches[..done] == batches;
    } else {
      var k := |batches| - 1;
      hide RequestedFor, BatchReserve;
      forall b | b in batches[..k] ensures b in batches {
      }
      assert batches[k] in batches && batches[..k][..done] == batches[..done];
      PartOfBatches(settings, batches[..k], done);
    }
  }

  lemma SoundIsUsable(batches: seq<Batch>, chunks: seq<Chunk>, cardsPerRequest: int, context: seq<Chunk>, tokens: PromptTokens,
                      reserve: int, target: int)
    requires AllSound(batches, cardsPerRequest, context, tokens, reserve, target) && Drawn(batches, chunks)
    ensures forall b :: b in batches ==> Usable(b, chunks)
    ensures forall b :: b in batches ==> RequestedCount(b) >= 0
  {
    hide RequestedFor, DistinctIds, Ids, Roomy;
  }

  /**
   * One round: it asks for what was missing when it began, and for all of it unless that met the target; what it
   * can add is no more.
   */
  method RunRound(before: Progress, round: nat, target: nat, chunks: seq<Chunk>, context: seq<Chunk>, rules: Rules, settings: Settings,
                  prompting: Prompting, provider: Provider)
    returns (p: Progress)
    requires settings.cardsPerRequest >= 1 && DistinctIds(chunks) && chunks != []
    requires |before.accepted| < target && Healthy(before, chunks, rules)
    ensures RoundStep(before, p, round, target, chunks, context, rules, settings, prompting, provider)
    ensures Healthy(p, chunks, rules) && |before.accepted| <= |p.accepted| <= target
    ensures TallyOf(chunks, p.requestedBy) <= TallyOf(chunks, before.requestedBy) + target - |before.accepted|
    ensures |p.accepted| < target ==> TallyOf(chunks, p.requestedBy) == TallyOf(chunks, before.requestedBy) + target - |before.accepted|
    ensures context != [] ==>
              && p.requests <= before.requests + BatchCount(settings.cardsPerRequest, target)
              && p.reservedOutput <= before.reservedOutput + OutputFor(settings, target)
  {
    hide *;
    p := before;
    var missing := target - |before.accepted|;
    var allocation := AllocateAdaptive(chunks, missing, p.requestedBy, p.acceptedBy);
    var batches := GenerationBatches(chunks, allocation.value, context, settings.cardsPerRequest,
                                     prompting(round, p.accepted), settings.promptReserve, settings.requestTarget);
    FairBatches(chunks, p.requestedBy, missing, allocation.value, batches, context, settings, prompting(round, p.accepted));
    SoundIsUsable(batches, chunks, settings.cardsPerRequest, context, prompting(round, p.accepted), settings.promptReserve, settings.requestTarget);
    var waves := CutIntoWaves(batches);
    IsPlanned(before, allocation.value, batches, waves, round, target, chunks, context, settings, prompting);
    WavesMean(waves, batches);
    ghost var done: nat := 0;
    RoundBegins(before, batches, chunks, settings);
    NothingAnswered(before, round, 0, target, rules, settings, provider);
    assert waves[..0] == [];
    for w := 0 to |waves|
      invariant done == |Flatten(waves[..w])| <= |batches|
      invariant Healthy(p, chunks, rules) && RoundSoFar(before, p, batches, done, chunks, settings)
      invariant |before.accepted| <= |p.accepted|
      invariant p == AfterWaves(before, waves[..w], round, target, rules, settings, provider)
    {
      if |p.accepted| >= target {
        NoMoreWaves(before, waves, w, round, target, rules, settings, provider);
        StepDone(before, p, waves, round, target, chunks, context, rules, settings, prompting, provider);
        RoundEnds(before, p, batches, done, chunks, settings, missing, target, context);
        return;
      }
      FlattenSlice(waves, w);
      InBatches(batches, done, waves[w]);
      OneWaveMore(before, waves, w, round, target, rules, settings, provider);
      p := RunWave(p, batches, done, waves[w], round, w, target, chunks, rules, settings, provider, before);
      done := done + |waves[w]|;
    }
    assert waves[..|waves|] == waves;
    StepDone(before, p, waves, round, target, chunks, context, rules, settings, prompting, provider);
    RoundEnds(before, p, batches, done, chunks, settings, missing, target, context);
  }

  lemma IsPlanned(before: Progress, allocation: map<ChunkId, int>, batches: seq<Batch>, waves: seq<seq<Batch>>, round: nat, target: nat,
                  chunks: seq<Chunk>, context: seq<Chunk>, settings: Settings, prompting: Prompting)
    requires Fair(chunks, before.requestedBy, target - |before.accepted|, allocation)
    requires ProductiveFirst(chunks, before.requestedBy, before.acceptedBy, allocation)
    requires forall id :: Asked(batches, id) == if id in Ids(chunks) then Max(0, Quota(allocation, id)) else 0
    requires var tokens := prompting(round, before.accepted);
             && AllSound(batches, settings.cardsPerRequest, context, tokens, settings.promptReserve, settings.requestTarget)
             && Greedy(batches, settings.cardsPerRequest, tokens, settings.promptReserve, settings.requestTarget)
    requires Waves(waves, batches)
    ensures Planned(before, waves, round, target, chunks, context, settings, prompting)
  {
    hide Fair, ProductiveFirst, AllSound, Greedy, Waves, Asked, Ids;
    assert PlannedAs(before, allocation, batches, round, target, chunks, context, settings, prompting);
  }

  lemma StepDone(before: Progress, p: Progress, waves: seq<seq<Batch>>, round: nat, target: nat, chunks: seq<Chunk>, context: seq<Chunk>,
                 rules: Rules, settings: Settings, prompting: Prompting, provider: Provider)
    requires Planned(before, waves, round, target, chunks, context, settings, prompting)
    requires p == AfterWaves(before, waves, round, target, rules, settings, provider)
    ensures RoundStep(before, p, round, target, chunks, context, rules, settings, prompting, provider)
  {
    hide Planned, AfterWaves;
  }

  lemma WavesMean(waves: seq<seq<Batch>>, batches: seq<Batch>)
    requires Waves(waves, batches)
    ensures Flatten(waves) == batches && |Flatten(waves[..0])| == 0
  {
  }

  lemma RoundBegins(before: Progress, batches: seq<Batch>, chunks: seq<Chunk>, settings: Settings)
    ensures RoundSoFar(before, before, batches, 0, chunks, settings)
  {
  }

  lemma InBatches(batches: seq<Batch>, from: nat, wave: seq<Batch>)
    requires from + |wave| <= |batches| && wave == batches[from..from + |wave|]
    ensures forall b :: b in wave ==> b in batches
  {
  }

  lemma RoundEnds(before: Progress, p: Progress, batches: seq<Batch>, done: nat, chunks: seq<Chunk>, settings: Settings,
                  missing: nat, target: nat, context: seq<Chunk>)
    requires settings.cardsPerRequest >= 1 && done <= |batches| && RoundSoFar(before, p, batches, done, chunks, settings)
    requires missing == target - |before.accepted| && AskedInAll(batches) == missing
    requires forall b :: b in batches ==> RequestedCount(b) >= 0
    requires |p.accepted| >= target || done == |batches|
    requires context != [] ==>
               |batches| == BatchCount(settings.cardsPerRequest, missing) && OutputOf(settings, batches) == OutputFor(settings, missing)
    ensures |p.accepted| <= target
    ensures TallyOf(chunks, p.requestedBy) <= TallyOf(chunks, before.requestedBy) + missing
    ensures |p.accepted| < target ==> TallyOf(chunks, p.requestedBy) == TallyOf(chunks, before.requestedBy) + missing
    ensures context != [] ==>
              && p.requests <= before.requests + BatchCount(settings.cardsPerRequest, target)
              && p.reservedOutput <= before.reservedOutput + OutputFor(settings, target)
  {
    hide AskedInAll, OutputOf, BatchCount, OutputFor, RequestedFor, TallyOf;
    PartOfBatches(settings, batches, done);
    assert batches[..|batches|] == batches;
    BatchCountGrows(settings.cardsPerRequest, missing, target);
    OutputGrows(settings, missing, target);
  }

  // Where the answers come from

  ghost predicate Given(provider: Provider, answer: seq<Candidate>) {
    exists round, waveIndex, place, batch, shown :: answer == provider(round, waveIndex, place, batch, shown)
  }

  ghost predicate AllGiven(provider: Provider, answers: seq<seq<Candidate>>) {
    forall answer :: answer in answers ==> Given(provider, answer)
  }

  lemma {:induction false} ConsumingAsksNothing(c: Consuming, candidates: seq<Candidate>, batch: Batch, target: int, rules: Rules)
    ensures Consume(c, candidates, batch, target, rules).p.answers == c.p.answers
    decreases |candidates|
  {
    hide Judge;
    if candidates != [] {
      ConsumingAsksNothing(ConsumeOne(c, candidates[0], batch, rules), candidates[1..], batch, target, rules);
    }
  }

  lemma {:induction false} WaveIsGiven(p: Progress, wave: seq<Batch>, shown: seq<Card>, round: nat, waveIndex: nat, target: int,
                                       rules: Rules, settings: Settings, provider: Provider)
    requires AllGiven(provider, p.answers)
    ensures AllGiven(provider, AfterWave(p, wave, shown, round, waveIndex, target, rules, settings, provider).answers)
    decreases |wave|
  {
    if wave != [] {
      hide Consume, BatchReserve, Added;
      var k := |wave| - 1;
      WaveIsGiven(p, wave[..k], shown, round, waveIndex, target, rules, settings, provider);
      var q := AfterWave(p, wave[..k], shown, round, waveIndex, target, rules, settings, provider);
      var answer := provider(round, waveIndex, k, wave[k], shown);
      var called := Called(q, wave[k], answer, settings);
      ConsumingAsksNothing(Consuming(called.(requestedBy := Added(called.requestedBy, wave[k].requested)), map[]), answer, wave[k], target, rules);
      assert Given(provider, answer);
    }
  }

  lemma {:induction false} WavesAreGiven(p: Progress, waves: seq<seq<Batch>>, round: nat, target: int, rules: Rules, settings: Settings,
                                         provider: Provider)
    requires AllGiven(provider, p.answers)
    ensures AllGiven(provider, AfterWaves(p, waves, round, target, rules, settings, provider).answers)
    decreases |waves|
  {
    if waves != [] {
      hide AfterWave, AllGiven;
      var k := |waves| - 1;
      WavesAreGiven(p, waves[..k], round, target, rules, settings, provider);
      var q := AfterWaves(p, waves[..k], round, target, rules, settings, provider);
      WaveIsGiven(q, waves[k], q.accepted, round, k, target, rules, settings, provider);
    }
  }

  lemma {:induction false} RunIsGiven(trace: seq<Progress>, target: nat, chunks: seq<Chunk>, context: seq<Chunk>, rules: Rules,
                                      settings: Settings, prompting: Prompting, provider: Provider, n: nat)
    requires Traced(trace, target, chunks, context, rules, settings, prompting, provider) && n < |trace|
    ensures AllGiven(provider, trace[n].answers)
    decreases n
  {
    hide RoundStep;
    if n > 0 {
      hide AllGiven;
      RunIsGiven(trace, target, chunks, context, rules, settings, prompting, provider, n - 1);
      RoundIsGiven(trace[n - 1], trace[n], n - 1, target, chunks, context, rules, settings, prompting, provider);
    }
  }

  lemma RoundIsGiven(before: Progress, p: Progress, round: nat, target: nat, chunks: seq<Chunk>, context: seq<Chunk>, rules: Rules,
                     settings: Settings, prompting: Prompting, provider: Provider)
    requires RoundStep(before, p, round, target, chunks, context, rules, settings, prompting, provider) && AllGiven(provider, before.answers)
    ensures AllGiven(provider, p.answers)
  {
    hide Planned, AfterWaves, AllGiven;
    var waves :| Planned(before, waves, round, target, chunks, context, settings, prompting)
                 && p == AfterWaves(before, waves, round, target, rules, settings, provider);
    WavesAreGiven(before, waves, round, target, rules, settings, provider);
  }

  // The run

  datatype Outcome = Finished(cards: seq<Card>) | Insufficient(validated: seq<Card>)

  /** One entry per moment between rounds: each round starts short of the target, and rounds end only there or when none is left. */
  ghost predicate Traced(trace: seq<Progress>, target: nat, chunks: seq<Chunk>, context: seq<Chunk>, rules: Rules, settings: Settings,
                         prompting: Prompting, provider: Provider)
  {
    && trace != [] && trace[0] == NOTHING && |trace| <= settings.refillRounds + 2
    && (forall r :: 0 <= r < |trace| - 1 ==>
          |trace[r].accepted| < target
          && RoundStep(trace[r], trace[r + 1], r, target, chunks, context, rules, settings, prompting, provider))
  }

  /**
   * The rounds of `_run`, for any provider, prompt sizes, normalisation and similarity. The run finishes with
   * exactly the target, or fails handing over fewer; every card is grounded, no two are near duplicates, no
   * chunk has more cards accepted than were requested of it, and all rejections are counted under a reason.
   * It gives up only after asking, in every round, for at least what is missing in the end. With one evidence
   * pack, requests and output reservations stay within what every round could ask for.
   */
  method RunRounds(target: nat, chunks: seq<Chunk>, context: seq<Chunk>, rules: Rules, settings: Settings,
                   prompting: Prompting, provider: Provider)
    returns (outcome: Outcome, p: Progress, ghost trace: seq<Progress>)
    requires settings.cardsPerRequest >= 1 && DistinctIds(chunks) && chunks != [] && target >= 1
    ensures Traced(trace, target, chunks, context, rules, settings, prompting, provider) && trace != [] && p == trace[|trace| - 1]
    ensures |p.accepted| < target ==> |trace| == settings.refillRounds + 2
    ensures Healthy(p, chunks, rules)
    ensures |p.accepted| <= target
    ensures outcome == if |p.accepted| == target then Finished(p.accepted) else Insufficient(p.accepted)
    ensures outcome.Insufficient? ==>
              TallyOf(chunks, p.requestedBy) >= (settings.refillRounds + 1) * (target - |p.accepted|)
    ensures TallyOf(chunks, p.requestedBy) <= (settings.refillRounds + 1) * target
    ensures context != [] ==>
              && p.requests <= BatchCount(settings.cardsPerRequest, target) * (settings.refillRounds + 1)
              && p.reservedOutput <= OutputFor(settings, target) * (settings.refillRounds + 1)
  {
    hide *;
    p := NOTHING;
    trace := [NOTHING];
    NothingIsHealthy(chunks, rules);
    NoRounds(target, chunks, context, rules, settings, prompting, provider);
    for round := 0 to settings.refillRounds + 1
      invariant Healthy(p, chunks, rules) && |p.accepted| <= target
      invariant |trace| == round + 1 && p == trace[round]
      invariant Traced(trace, target, chunks, context, rules, settings, prompting, provider)
      invariant Counted(p, round, target, chunks, context, settings)
    {
      if |p.accepted| >= target {
        CountedOut(p, round, target, chunks, context, settings);
        break;
      }
      ghost var before := p;
      p := RunRound(p, round, target, chunks, context, rules, settings, prompting, provider);
      RoundTraced(trace, p, target, chunks, context, rules, settings, prompting, provider);
      RoundCounted(before, p, round, target, chunks, context, settings);
      trace := trace + [p];
    }
    CountedMeans(p, settings.refillRounds + 1, target, chunks, context, settings);
    outcome := if |p.accepted| != target then Insufficient(p.accepted) else Finished(p.accepted);
  }

  /** What this many rounds may have asked for, in cards, requests and output. */
  ghost predicate Counted(p: Progress, rounds: nat, target: nat, chunks: seq<Chunk>, context: seq<Chunk>, settings: Settings) {
    && rounds * (target - |p.accepted|) <= TallyOf(chunks, p.requestedBy) <= rounds * target
    && (context != [] && settings.cardsPerRequest >= 1 ==>
          && p.requests <= BatchCount(settings.cardsPerRequest, target) * rounds
          && p.reservedOutput <= OutputFor(settings, target) * rounds)
  }

  lemma RoundCounted(before: Progress, p: Progress, round: nat, target: nat, chunks: seq<Chunk>, context: seq<Chunk>, settings: Settings)
    requires settings.cardsPerRequest >= 1 && Counted(before, round, target, chunks, context, settings)
    requires |before.accepted| < target && |before.accepted| <= |p.accepted| <= target
    requires TallyOf(chunks, p.requestedBy) <= TallyOf(chunks, before.requestedBy) + target - |before.accepted|
    requires |p.accepted| < target ==> TallyOf(chunks, p.requestedBy) == TallyOf(chunks, before.requestedBy) + target - |before.accepted|
    requires context != [] ==>
               && p.requests <= before.requests + BatchCount(settings.cardsPerRequest, target)
               && p.reservedOutput <= before.reservedOutput + OutputFor(settings, target)
    ensures Counted(p, round + 1, target, chunks, context, settings)
  {
    hide TallyOf, BatchCount, OutputFor;
    AskedEachRound(round, target, |before.accepted|, |p.accepted|, TallyOf(chunks, before.requestedBy), TallyOf(chunks, p.requestedBy));
    Times(BatchCount(settings.cardsPerRequest, target), round);
    Times(OutputFor(settings, target), round);
  }

  /** Rounds that are not needed ask for nothing. */
  lemma CountedOut(p: Progress, round: nat, target: nat, chunks: seq<Chunk>, context: seq<Chunk>, settings: Settings)
    requires settings.cardsPerRequest >= 1 && Counted(p, round, target, chunks, context, settings)
    requires |p.accepted| == target && round <= settings.refillRounds + 1
    ensures Counted(p, settings.refillRounds + 1, target, chunks, context, settings)
  {
    hide TallyOf, BatchCount, OutputFor;
    MoreRounds(BatchCount(settings.cardsPerRequest, target), round, settings.refillRounds + 1);
    MoreRounds(OutputFor(settings, target), round, settings.refillRounds + 1);
    MoreRounds(target, round, settings.refillRounds + 1);
  }

  lemma CountedMeans(p: Progress, rounds: nat, target: nat, chunks: seq<Chunk>, context: seq<Chunk>, settings: Settings)
    requires settings.cardsPerRequest >= 1 && Counted(p, rounds, target, chunks, context, settings)
    ensures rounds * (target - |p.accepted|) <= TallyOf(chunks, p.requestedBy) <= rounds * target
    ensures context != [] ==>
              && p.requests <= BatchCount(settings.cardsPerRequest, target) * rounds
              && p.reservedOutput <= OutputFor(settings, target) * rounds
  {
  }

  lemma NoRounds(target: nat, chunks: seq<Chunk>, context: seq<Chunk>, rules: Rules, settings: Settings, prompting: Prompting, provider: Provider)
    ensures Traced([NOTHING], target, chunks, context, rules, settings, prompting, provider)
    ensures Counted(NOTHING, 0, target, chunks, context, settings)
  {
    NothingTallied(chunks);
  }

  lemma RoundTraced(trace: seq<Progress>, p: Progress, target: nat, chunks: seq<Chunk>, context: seq<Chunk>, rules: Rules, settings: Settings,
                    prompting: Prompting, provider: Provider)
    requires Traced(trace, target, chunks, context, rules, settings, prompting, provider) && |trace| <= settings.refillRounds + 1
    requires |trace[|trace| - 1].accepted| < target
    requires RoundStep(trace[|trace| - 1], p, |trace| - 1, target, chunks, context, rules, settings, prompting, provider)
    ensures Traced(trace + [p], target, chunks, context, rules, settings, prompting, provider)
  {
    hide RoundStep;
  }

  lemma AskedEachRound(round: nat, target: nat, before: nat, after: nat, askedBefore: nat, asked: nat)
    requires before < target && before <= after <= target
    requires round * (target - before) <= askedBefore <= round * target
    requires asked <= askedBefore + target - before
    requires after < target ==> asked == askedBefore + target - before
    ensures (round + 1) * (target - after) <= asked <= (round + 1) * target || after == target
    ensures after == target ==> asked <= (round + 1) * target
  {
    assert (round + 1) * target == round * target + target;
    assert (round + 1) * (target - before) == round * (target - before) + (target - before);
    assert (round + 1) * (target - before) == (round + 1) * (target - after) + (round + 1) * (after - before);
  }

  lemma NothingIsHealthy(chunks: seq<Chunk>, rules: Rules)
    ensures Healthy(NOTHING, chunks, rules) && NOTHING.accepted == [] && NOTHING.requests == 0 && NOTHING.reservedOutput == 0
  {
    NothingTallied(chunks);
  }

  lemma MoreRounds(perRound: nat, done: nat, all: nat)
    requires done <= all
    ensures perRound * done <= perRound * all
  {
    assert perRound * all == perRound * done + perRound * (all - done);
  }

  // The whole run

  /** The cards a run hands over, whether it finished or not. */
  function CardsOf(outcome: Outcome): seq<Card> {
    match outcome
    case Finished(cards) => cards
    case Insufficient(validated) => validated
  }

  datatype Run = TooLarge(reason: Budget.Refusal) | Ran(outcome: Outcome)

  /**
   * `_run` behind chunking: the estimate, the evidence summaries if there are several packs, the rounds.
   * `ceilings` are the output ceilings of the calls the run makes, in order. With one pack the run makes no
   * more requests and reserves no more output than was estimated, so that no interleaving of its calls ever
   * meets a refusal for output tokens.
   */
  method GenerationRun(target: nat, chunks: seq<Chunk>, packs: seq<seq<Chunk>>, rules: Rules, settings: Settings,
                       placeholder: Prompts, prompting: Prompting, provider: Provider,
                       summarize: seq<Chunk> -> string, reduce: seq<string> -> string)
    returns (run: Run, estimate: Estimate, ceilings: seq<nat>, ghost answers: seq<seq<Candidate>>, ghost trace: seq<Progress>)
    requires settings.cardsPerRequest >= 1 && DistinctIds(chunks) && chunks != [] && target >= 1
    requires packs != [] && forall p :: p in packs ==> p != []
    ensures exists rounds :: EstimatedFrom(estimate, rounds, chunks, target, packs, settings, placeholder)
    ensures RefusedRightly(if run.TooLarge? then Some(run.reason) else None, estimate, settings.limits)
    ensures run.TooLarge? ==> ceilings == []
    ensures run.Ran? && run.outcome.Finished? ==> |run.outcome.cards| == target
    ensures run.Ran? && run.outcome.Insufficient? ==> |run.outcome.validated| < target
    ensures run.Ran? ==>
              && (forall c :: c in CardsOf(run.outcome) ==> Grounded(rules.normalize, c, chunks) && Sourced(c, answers, chunks))
              && AllDistinct(CardsOf(run.outcome), rules.similarity, rules.threshold)
    ensures AllGiven(provider, answers)
    ensures run.Ran? ==>
              && Traced(trace, target, chunks, if |packs| == 1 then packs[0] else [], rules, settings, prompting, provider) && trace != []
              && CardsOf(run.outcome) == trace[|trace| - 1].accepted && answers == trace[|trace| - 1].answers
              && ceilings == seq(if |packs| > 1 then |packs| + ReduceCalls(|packs|) else 0, i => settings.summaryOutputTokens)
                             + trace[|trace| - 1].ceilings
    ensures |packs| == 1 ==> |ceilings| <= estimate.requests && Sum(ceilings) <= estimate.outputTokens
    ensures |packs| == 1 ==> Budget.OutputSuffices(settings.limits, ceilings)
  {
    hide *;
    ceilings, answers, trace := [], [], [];
    NoneGiven(provider);
    var refusal;
    ghost var rounds;
    estimate, refusal, rounds := Estimated(chunks, target, packs, settings, placeholder);
    if refusal.Some? {
      CeilingsOf(settings, []);
      return TooLarge(refusal.value), estimate, [], [], [];
    }
    if |packs| > 1 {
      var summaries: seq<Summary> := [];
      for k := 0 to |packs|
        invariant |summaries| == k
      {
        summaries := summaries + [Summary(summarize(packs[k]), PackIds(packs[k]))];
      }
      var final, calls := ReduceSummaries(summaries, reduce);
      ceilings := seq(|packs| + calls, i => settings.summaryOutputTokens);
    }
    assert packs[0] in packs;
    var outcome, p;
    outcome, p, trace := RunRounds(target, chunks, if |packs| == 1 then packs[0] else [], rules, settings, prompting, provider);
    HealthyMeans(p, chunks, rules, outcome);
    RunIsGiven(trace, target, chunks, if |packs| == 1 then packs[0] else [], rules, settings, prompting, provider, |trace| - 1);
    answers := p.answers;
    ceilings := ceilings + p.ceilings;
    assert |packs| == 1 ==> ceilings == p.ceilings;
    if |packs| == 1 {
      AcceptedOutput(settings, estimate);
      CeilingsOf(settings, ceilings);
    }
    run := Ran(outcome);
  }

  lemma NoneGiven(provider: Provider)
    ensures AllGiven(provider, [])
  {
  }

  lemma CeilingsOf(settings: Settings, ceilings: seq<nat>)
    ensures Sum([]) == 0
    ensures Sum(ceilings) <= settings.limits.maxOutput ==> Budget.OutputSuffices(settings.limits, ceilings)
  {
    hide Budget.OutputSuffices;
    if Sum(ceilings) <= settings.limits.maxOutput {
      Budget.CeilingsSuffice(settings.limits, ceilings);
    }
  }

  lemma HealthyMeans(p: Progress, chunks: seq<Chunk>, rules: Rules, outcome: Outcome)
    requires Healthy(p, chunks, rules) && (outcome == Finished(p.accepted) || outcome == Insufficient(p.accepted))
    ensures forall c :: c in CardsOf(outcome) ==> Grounded(rules.normalize, c, chunks) && Sourced(c, p.answers, chunks)
    ensures AllDistinct(CardsOf(outcome), rules.similarity, rules.threshold)
    ensures p.requests == |p.ceilings| && p.reservedOutput == Sum(p.ceilings) && CardsOf(outcome) == p.accepted
  {
  }

  function PackIds(pack: seq<Chunk>): seq<ChunkId> {
    seq(|pack|, i requires 0 <= i < |pack| => pack[i].id)
  }
}
