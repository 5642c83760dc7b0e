/**
 * The estimate made before a run. With one evidence pack it is exact for the batches of every round, so it
 * bounds whatever the run does, however its rounds turn out.
 */
module Preflight {
  import opened Prelude
  import opened Chunks
  import opened Batching
  import opened SummaryTree
  import opened Adaptive
  import Budget

  datatype Settings = Settings(
    cardsPerRequest: nat,
    refillRounds: nat,
    maxOutputTokens: nat,
    summaryOutputTokens: nat,
    limits: Budget.Limits,
    requestTarget: int,
    promptReserve: nat)

  /** The output ceiling of a request for this many cards. */
  function OutputReserve(settings: Settings, cards: nat): nat {
    if settings.maxOutputTokens <= cards * 512 + 256 then settings.maxOutputTokens else cards * 512 + 256
  }

  function BatchReserve(settings: Settings, batch: Batch): nat {
    OutputReserve(settings, if RequestedCount(batch) >= 0 then RequestedCount(batch) else 0)
  }

  function OutputOf(settings: Settings, batches: seq<Batch>): nat {
    if batches == [] then 0 else
      OutputOf(settings, batches[..|batches| - 1]) + BatchReserve(settings, batches[|batches| - 1])
  }

  /** Requests that fill `cardsPerRequest` cards each, and one for the rest. */
  function BatchCount(cardsPerRequest: nat, cards: nat): nat
    requires cardsPerRequest >= 1
  {
    cards / cardsPerRequest + (if cards % cardsPerRequest > 0 then 1 else 0)
  }

  /** What those requests reserve for output. */
  function OutputFor(settings: Settings, cards: nat): nat
    requires settings.cardsPerRequest >= 1
    decreases cards
  {
    var n := settings.cardsPerRequest;
    if cards == 0 then 0
    else if cards <= n then OutputReserve(settings, cards)
    else OutputReserve(settings, n) + OutputFor(settings, cards - n)
  }

  // Batches with shared context are full, so their number and reserve depend on the card total only

  lemma {:induction false} FullBatches(settings: Settings, batches: seq<Batch>)
    requires settings.cardsPerRequest >= 1 && AllFull(batches, settings.cardsPerRequest)
    ensures AskedInAll(batches) == settings.cardsPerRequest * |batches|
    ensures OutputOf(settings, batches) == OutputReserve(settings, settings.cardsPerRequest) * |batches|
    decreases |batches|
  {
    if batches != [] {
      var k := |batches| - 1;
      assert batches[k] in batches;
      forall b | b in batches[..k] ensures b in batches {
      }
      FullBatches(settings, batches[..k]);
      Times(settings.cardsPerRequest, k);
      Times(OutputReserve(settings, settings.cardsPerRequest), k);
    }
  }

  lemma Times(a: int, k: int)
    ensures a * (k + 1) == a * k + a
  {
  }

  lemma {:induction false} OutputForFull(settings: Settings, full: int, rest: int)
    requires settings.cardsPerRequest >= 1 && full >= 0 && 1 <= rest <= settings.cardsPerRequest
    ensures settings.cardsPerRequest * full + rest >= 0
    ensures OutputFor(settings, settings.cardsPerRequest * full + rest)
            == OutputReserve(settings, settings.cardsPerRequest) * full + OutputReserve(settings, rest)
    decreases full
  {
    if full > 0 {
      OutputForFull(settings, full - 1, rest);
      Times(settings.cardsPerRequest, full - 1);
      Times(OutputReserve(settings, settings.cardsPerRequest), full - 1);
      assert settings.cardsPerRequest * full + rest - settings.cardsPerRequest == settings.cardsPerRequest * (full - 1) + rest;
    }
  }

  lemma BatchCountFull(cardsPerRequest: nat, full: int, rest: int)
    requires full >= 0 && 1 <= rest <= cardsPerRequest
    ensures cardsPerRequest * full + rest >= 0
    ensures BatchCount(cardsPerRequest, cardsPerRequest * full + rest) == full + 1
  {
    var n, cards := cardsPerRequest, cardsPerRequest * full + rest;
    if rest == n {
      Times(n, full);
      Divided(cards, n, full + 1, 0);
    } else {
      Divided(cards, n, full, rest);
    }
  }

  /** Any sound batches that are full but for the last: their number and their reserve follow from the total. */
  lemma ContextualBatches(settings: Settings, batches: seq<Batch>, context: seq<Chunk>, cards: nat)
    requires settings.cardsPerRequest >= 1 && AskedInAll(batches) == cards
    requires forall b :: b in batches ==> Sound(b, settings.cardsPerRequest, context)
    requires batches != [] ==> AllFull(batches[..|batches| - 1], settings.cardsPerRequest)
    ensures |batches| == BatchCount(settings.cardsPerRequest, cards)
    ensures OutputOf(settings, batches) == OutputFor(settings, cards)
  {
    if batches != [] {
      hide Sound, RequestedFor, AllFull, OutputFor, BatchCount, OutputReserve;
      var k, last := |batches| - 1, batches[|batches| - 1];
      FullBatches(settings, batches[..k]);
      SoundCounts(last, settings.cardsPerRequest, context);
      OutputForFull(settings, k, RequestedCount(last));
      BatchCountFull(settings.cardsPerRequest, k, RequestedCount(last));
    } else {
      Divided(0, settings.cardsPerRequest, 0, 0);
    }
  }

  lemma SoundCounts(batch: Batch, cardsPerRequest: int, context: seq<Chunk>)
    requires Sound(batch, cardsPerRequest, context)
    ensures 1 <= RequestedCount(batch) <= cardsPerRequest
  {
  }

  // More cards never need fewer requests or less output

  lemma BatchCountGrows(cardsPerRequest: nat, a: nat, b: nat)
    requires cardsPerRequest >= 1 && a <= b
    ensures BatchCount(cardsPerRequest, a) <= BatchCount(cardsPerRequest, b)
  {
    var n := cardsPerRequest;
    Euclid(a, n);
    Euclid(b, n);
    QuotientGrows(n, a / n, a % n, b / n, b % n);
  }

  lemma Euclid(a: nat, n: nat)
    requires n >= 1
    ensures a / n >= 0 && 0 <= a % n < n && a == n * (a / n) + a % n
  {
  }

  lemma QuotientGrows(n: nat, qa: nat, ra: nat, qb: nat, rb: nat)
    requires n >= 1 && ra < n && rb < n && n * qa + ra <= n * qb + rb
    ensures qa <= qb && (qa == qb ==> ra <= rb)
  {
    var d: int := qa - qb;
    assert n * qa == n * qb + n * d;
    if d > 0 {
      AtLeastOnce(n, d);
    }
  }

  lemma AtLeastOnce(n: nat, d: int)
    requires d > 0
    ensures n * d >= n
  {
  }

  lemma {:induction false} OutputGrows(settings: Settings, a: nat, b: nat)
    requires settings.cardsPerRequest >= 1 && a <= b
    ensures OutputFor(settings, a) <= OutputFor(settings, b)
    decreases b
  {
    var n := settings.cardsPerRequest;
    if b > n && a > n {
      OutputGrows(settings, a - n, b - n);
    }
  }

  // _preflight

  /** No way of batching needs fewer requests than full batches would. */
  lemma BatchesNeeded(batches: seq<Batch>, cardsPerRequest: nat, context: seq<Chunk>, cards: nat)
    requires cardsPerRequest >= 1 && AskedInAll(batches) == cards
    requires forall b :: b in batches ==> Sound(b, cardsPerRequest, context)
    ensures |batches| >= BatchCount(cardsPerRequest, cards)
  {
    hide Sound;
    AskedAtMost(batches, cardsPerRequest, context);
    if batches == [] {
      Divided(0, cardsPerRequest, 0, 0);
    } else {
      Times(cardsPerRequest, |batches| - 1);
      BatchCountGrows(cardsPerRequest, cards, cardsPerRequest * |batches|);
      BatchCountFull(cardsPerRequest, |batches| - 1, cardsPerRequest);
    }
  }

  lemma {:induction false} AskedAtMost(batches: seq<Batch>, cardsPerRequest: nat, context: seq<Chunk>)
    requires forall b :: b in batches ==> Sound(b, cardsPerRequest, context)
    ensures AskedInAll(batches) <= cardsPerRequest * |batches|
    decreases |batches|
  {
    hide Sound, RequestedFor;
    if batches != [] {
      var k := |batches| - 1;
      SoundCounts(batches[k], cardsPerRequest, context);
      AskedAtMost(batches[..k], cardsPerRequest, context);
      Times(cardsPerRequest, k);
    }
  }

  // The estimate

  /** Prompt sizes with the placeholder summary: of a card request, of a pack to summarise, of a full reduction. */
  datatype Prompts = Prompts(generation: PromptTokens, summary: seq<Chunk> -> nat, reduction: nat)

  datatype Estimate = Estimate(requests: nat, inputTokens: nat, outputTokens: nat, cost: Option<int>)

  function PacksInput(packs: seq<seq<Chunk>>, tokens: seq<Chunk> -> nat): nat {
    if packs == [] then 0 else PacksInput(packs[..|packs| - 1], tokens) + tokens(packs[|packs| - 1])
  }

  function BatchesInput(batches: seq<Batch>, settings: Settings, tokens: PromptTokens): nat {
    if batches == [] then 0 else
      BatchesInput(batches[..|batches| - 1], settings, tokens) + tokens(batches[|batches| - 1]) + settings.promptReserve
  }

  /** The first limit an estimate breaks; the cost limit is rounded to the nearest integer here. */
  function RefusalOf(settings: Settings, estimate: Estimate): Option<Budget.Refusal> {
    if estimate.inputTokens > settings.limits.maxInput then Some(Budget.InputTokens)
    else if estimate.outputTokens > settings.limits.maxOutput then Some(Budget.OutputTokens)
    else if estimate.cost.Some? && estimate.cost.value > Budget.HalfEven(settings.limits.maxCost) then Some(Budget.CostLimit)
    else None
  }

  function PromptSizes(batches: seq<Batch>, tokens: PromptTokens): seq<nat> {
    seq(|batches|, i requires 0 <= i < |batches| => tokens(batches[i]))
  }

  function PackSizes(packs: seq<seq<Chunk>>, tokens: seq<Chunk> -> nat): seq<nat> {
    seq(|packs|, i requires 0 <= i < |packs| => tokens(packs[i]))
  }

  /** 512 tokens a card and 256 on top, if the model can answer that much. */
  function Ceilings(batches: seq<Batch>, settings: Settings): seq<nat> {
    seq(|batches|, i requires 0 <= i < |batches| => Min(settings.maxOutputTokens, 256 + 512 * Max(0, RequestedCount(batches[i]))))
  }

  /** The estimate counts every request of the rounds and of the summaries once, in all four amounts. */
  ghost predicate AddsUp(estimate: Estimate, all: seq<Batch>, packs: seq<seq<Chunk>>, settings: Settings, prompts: Prompts) {
    var packed, reduced := if |packs| > 1 then |packs| else 0, if |packs| > 1 then ReduceCalls(|packs|) else 0;
    && estimate.requests == |all| + packed + reduced
    && estimate.inputTokens == Sum(PromptSizes(all, prompts.generation)) + |all| * settings.promptReserve
                               + (if |packs| > 1 then Sum(PackSizes(packs, prompts.summary)) else 0) + reduced * prompts.reduction
    && estimate.outputTokens == Sum(Ceilings(all, settings)) + (packed + reduced) * settings.summaryOutputTokens
    && Budget.Costs(settings.limits, estimate.inputTokens, estimate.outputTokens, estimate.cost)
  }

  lemma {:induction false} BatchesAddUp(batches: seq<Batch>, settings: Settings, tokens: PromptTokens)
    ensures BatchesInput(batches, settings, tokens) == Sum(PromptSizes(batches, tokens)) + |batches| * settings.promptReserve
    decreases |batches|
  {
    if batches != [] {
      var k := |batches| - 1;
      BatchesAddUp(batches[..k], settings, tokens);
      assert PromptSizes(batches, tokens)[..k] == PromptSizes(batches[..k], tokens);
      Times(settings.promptReserve, k);
    }
  }

  lemma {:induction false} CeilingsAddUp(batches: seq<Batch>, settings: Settings)
    ensures OutputOf(settings, batches) == Sum(Ceilings(batches, settings))
    decreases |batches|
  {
    if batches != [] {
      hide RequestedFor;
      var k := |batches| - 1;
      CeilingsAddUp(batches[..k], settings);
      assert Ceilings(batches, settings)[..k] == Ceilings(batches[..k], settings);
    }
  }

  lemma {:induction false} PacksAddUp(packs: seq<seq<Chunk>>, tokens: seq<Chunk> -> nat)
    ensures PacksInput(packs, tokens) == Sum(PackSizes(packs, tokens))
    decreases |packs|
  {
    if packs != [] {
      var k := |packs| - 1;
      PacksAddUp(packs[..k], tokens);
      assert PackSizes(packs, tokens)[..k] == PackSizes(packs[..k], tokens);
    }
  }

  /** What is refused, and for which limit first: the amounts themselves, at their prices. */
  ghost predicate RefusedRightly(refusal: Option<Budget.Refusal>, estimate: Estimate, limits: Budget.Limits) {
    var input, output := estimate.inputTokens, estimate.outputTokens;
    && (refusal == Some(Budget.InputTokens) <==> input > limits.maxInput)
    && (refusal == Some(Budget.OutputTokens) <==> input <= limits.maxInput && output > limits.maxOutput)
    && (refusal == Some(Budget.CostLimit) <==>
          && input <= limits.maxInput && output <= limits.maxOutput
          && limits.prices.Some? && Budget.Price(limits.prices.value, input, output) > Budget.HalfEven(limits.maxCost) as real)
    && refusal != Some(Budget.ContextWindow)
  }

  lemma RefusalIsRight(settings: Settings, estimate: Estimate)
    requires Budget.Costs(settings.limits, estimate.inputTokens, estimate.outputTokens, estimate.cost)
    ensures RefusedRightly(RefusalOf(settings, estimate), estimate, settings.limits)
  {
    hide Budget.Price, Budget.HalfEven;
    var rounded := Budget.HalfEven(settings.limits.maxCost);
    if estimate.cost.Some? && estimate.cost.value > rounded {
      assert (estimate.cost.value - 1) as real >= rounded as real;
    }
  }

  lemma AddedCost(estimate: Estimate, all: seq<Batch>, packs: seq<seq<Chunk>>, settings: Settings, prompts: Prompts)
    requires AddsUp(estimate, all, packs, settings, prompts)
    ensures Budget.Costs(settings.limits, estimate.inputTokens, estimate.outputTokens, estimate.cost)
  {
  }

  lemma AcceptedOutput(settings: Settings, estimate: Estimate)
    requires RefusalOf(settings, estimate).None?
    ensures estimate.outputTokens <= settings.limits.maxOutput
  {
  }

  /** Usage that stays within an accepted estimate meets none of the checks behind a call, cost included. */
  lemma AcceptedEstimateSuffices(estimate: Estimate, all: seq<Batch>, packs: seq<seq<Chunk>>, settings: Settings, prompts: Prompts, s: Budget.Ledger)
    requires AddsUp(estimate, all, packs, settings, prompts) && RefusalOf(settings, estimate).None? && settings.limits.Sane()
    requires 0 <= s.usageInput <= estimate.inputTokens && 0 <= s.usageOutput <= estimate.outputTokens
    ensures Budget.Overrun(settings.limits, s).None?
  {
    AddedCost(estimate, all, packs, settings, prompts);
    RefusalIsRight(settings, estimate);
    hide Budget.HalfEven, Budget.Cost, AddsUp;
    if settings.limits.prices.Some? {
      Budget.CostGrows(settings.limits, s.usageInput, s.usageOutput, estimate.inputTokens, estimate.outputTokens);
      Budget.CostIsLeast(settings.limits, estimate.inputTokens, estimate.outputTokens);
      SameLeast(settings.limits, estimate.inputTokens, estimate.outputTokens, estimate.cost.value,
                Budget.Cost(settings.limits, estimate.inputTokens, estimate.outputTokens).value);
    }
  }

  lemma SameLeast(limits: Budget.Limits, input: nat, output: nat, a: int, b: int)
    requires Budget.Costs(limits, input, output, Some(a)) && Budget.Costs(limits, input, output, Some(b))
    ensures a == b
  {
    hide Budget.Price;
    assert (a - 1) as real < b as real && (b - 1) as real < a as real;
  }

  /** What all rounds together ask of one chunk. */
  function RequestedIn(rounds: seq<seq<Batch>>, id: ChunkId): int {
    if rounds == [] then 0 else RequestedIn(rounds[..|rounds| - 1], id) + Asked(rounds[|rounds| - 1], id)
  }

  /** A simulated round: the whole target, allocated fairly after what the earlier rounds asked, in batches never closed early. */
  ghost predicate SimulatedAs(chunks: seq<Chunk>, before: seq<seq<Batch>>, requested: Tally, allocation: map<ChunkId, int>, batches: seq<Batch>,
                              target: nat, context: seq<Chunk>, settings: Settings, tokens: PromptTokens)
  {
    && (forall id :: Count(requested, id) == RequestedIn(before, id))
    && Fair(chunks, requested, target, allocation)
    && (forall id :: Asked(batches, id) == if id in Ids(chunks) then Max(0, Quota(allocation, id)) else 0)
    && AllSound(batches, settings.cardsPerRequest, context, tokens, settings.promptReserve, settings.requestTarget)
    && Greedy(batches, settings.cardsPerRequest, tokens, settings.promptReserve, settings.requestTarget)
  }

  ghost predicate SimulatedRound(chunks: seq<Chunk>, before: seq<seq<Batch>>, batches: seq<Batch>,
                                 target: nat, context: seq<Chunk>, settings: Settings, tokens: PromptTokens)
  {
    exists requested, allocation :: SimulatedAs(chunks, before, requested, allocation, batches, target, context, settings, tokens)
  }

  ghost predicate Simulated(chunks: seq<Chunk>, rounds: seq<seq<Batch>>, target: nat, context: seq<Chunk>, settings: Settings, tokens: PromptTokens) {
    forall r :: 0 <= r < |rounds| ==> SimulatedRound(chunks, rounds[..r], rounds[r], target, context, settings, tokens)
  }

  lemma RoundSimulated(chunks: seq<Chunk>, rounds: seq<seq<Batch>>, requested: Tally, allocation: map<ChunkId, int>, batches: seq<Batch>,
                       target: nat, context: seq<Chunk>, settings: Settings, tokens: PromptTokens)
    requires Simulated(chunks, rounds, target, context, settings, tokens)
    requires SimulatedAs(chunks, rounds, requested, allocation, batches, target, context, settings, tokens)
    ensures Simulated(chunks, rounds + [batches], target, context, settings, tokens)
  {
    hide SimulatedAs;
    assert SimulatedRound(chunks, rounds, batches, target, context, settings, tokens);
    hide SimulatedRound;
    var more := rounds + [batches];
    forall r | 0 <= r < |more| ensures SimulatedRound(chunks, more[..r], more[r], target, context, settings, tokens) {
      assert more[..r] == rounds[..r];
      assert r < |rounds| ==> SimulatedRound(chunks, rounds[..r], rounds[r], target, context, settings, tokens);
    }
  }

  lemma IsSimulated(chunks: seq<Chunk>, rounds: seq<seq<Batch>>, requested: Tally, allocation: map<ChunkId, int>, batches: seq<Batch>,
                    target: nat, context: seq<Chunk>, settings: Settings, tokens: PromptTokens)
    requires forall id :: Count(requested, id) == RequestedIn(rounds, id)
    requires Fair(chunks, requested, target, allocation)
    requires forall id :: Asked(batches, id) == if id in Ids(chunks) then Max(0, Quota(allocation, id)) else 0
    requires AllSound(batches, settings.cardsPerRequest, context, tokens, settings.promptReserve, settings.requestTarget)
    requires Greedy(batches, settings.cardsPerRequest, tokens, settings.promptReserve, settings.requestTarget)
    ensures SimulatedAs(chunks, rounds, requested, allocation, batches, target, context, settings, tokens)
  {
    hide Fair, AllSound, Greedy, Asked, RequestedIn;
  }

  lemma NothingSimulated(chunks: seq<Chunk>, target: nat, context: seq<Chunk>, settings: Settings, tokens: PromptTokens)
    ensures Simulated(chunks, [], target, context, settings, tokens)
    ensures forall id :: Count(map[], id) == RequestedIn([], id)
    ensures settings.cardsPerRequest >= 1 ==> Sized([], 0, target, true, settings) && Sized([], 0, target, false, settings)
    ensures Flatten<Batch>([]) == []
  {
  }

  /** How many requests this many rounds make and what they reserve: exactly, if all batches but the last of a round are full. */
  ghost predicate Sized(all: seq<Batch>, rounds: nat, target: nat, full: bool, settings: Settings)
    requires settings.cardsPerRequest >= 1
  {
    && |all| >= BatchCount(settings.cardsPerRequest, target) * rounds
    && (full ==>
          && |all| == BatchCount(settings.cardsPerRequest, target) * rounds
          && OutputOf(settings, all) == OutputFor(settings, target) * rounds)
  }

  lemma SizedMore(all: seq<Batch>, batches: seq<Batch>, rounds: nat, target: nat, full: bool, settings: Settings)
    requires settings.cardsPerRequest >= 1 && Sized(all, rounds, target, full, settings)
    requires |batches| >= BatchCount(settings.cardsPerRequest, target)
    requires full ==>
               |batches| == BatchCount(settings.cardsPerRequest, target) && OutputOf(settings, batches) == OutputFor(settings, target)
    ensures Sized(all + batches, rounds + 1, target, full, settings)
  {
    hide BatchCount, OutputFor, OutputOf;
    Times(BatchCount(settings.cardsPerRequest, target), rounds);
    Times(OutputFor(settings, target), rounds);
    OutputConcat(settings, all, batches);
  }

  lemma SizedMeans(all: seq<Batch>, rounds: nat, target: nat, full: bool, settings: Settings)
    requires settings.cardsPerRequest >= 1 && Sized(all, rounds, target, full, settings)
    ensures |all| >= BatchCount(settings.cardsPerRequest, target) * rounds
    ensures full ==>
              && |all| == BatchCount(settings.cardsPerRequest, target) * rounds
              && OutputOf(settings, all) == OutputFor(settings, target) * rounds
  {
  }

  /** The tallies and totals after one more simulated round. */
  lemma TalliesFollow(chunks: seq<Chunk>, rounds: seq<seq<Batch>>, requested: Tally, next: Tally, allocation: map<ChunkId, int>, batches: seq<Batch>)
    requires forall id :: Count(requested, id) == RequestedIn(rounds, id)
    requires forall id :: Count(next, id) == Count(requested, id) + (if id in Ids(chunks) then Quota(allocation, id) else 0)
    requires forall id :: Asked(batches, id) == if id in Ids(chunks) then Max(0, Quota(allocation, id)) else 0
    requires forall i :: 0 <= i < |chunks| ==> Asked(batches, chunks[i].id) == Quota(allocation, chunks[i].id) >= 0
    ensures forall id :: Count(next, id) == RequestedIn(rounds + [batches], id)
  {
    hide Asked, Quota, Count;
    assert (rounds + [batches])[..|rounds|] == rounds;
    forall id ensures Count(next, id) == RequestedIn(rounds + [batches], id) {
      if id in Ids(chunks) {
        var i :| 0 <= i < |chunks| && chunks[i].id == id;
      }
    }
  }

  lemma {:induction false} OutputConcat(settings: Settings, a: seq<Batch>, b: seq<Batch>)
    ensures OutputOf(settings, a + b) == OutputOf(settings, a) + OutputOf(settings, b)
    decreases |b|
  {
    hide BatchReserve;
    if b == [] {
      assert a + b == a;
    } else {
      assert (a + b)[..|a + b| - 1] == a + b[..|b| - 1];
      OutputConcat(settings, a, b[..|b| - 1]);
    }
  }

  lemma InputIs(packs: seq<seq<Chunk>>, all: seq<Batch>, settings: Settings, prompts: Prompts, reduceCalls: nat, input: nat)
    requires reduceCalls == ReduceCalls(if |packs| > 1 then |packs| else 0)
    requires input == (if |packs| > 1 then PacksInput(packs, prompts.summary) else 0) + reduceCalls * prompts.reduction
                      + BatchesInput(all, settings, prompts.generation)
    ensures input == Sum(PromptSizes(all, prompts.generation)) + |all| * settings.promptReserve
                     + (if |packs| > 1 then Sum(PackSizes(packs, prompts.summary)) else 0)
                     + (if |packs| > 1 then ReduceCalls(|packs|) else 0) * prompts.reduction
  {
    assert |packs| <= 1 ==> reduceCalls == 0;
    hide ReduceCalls;
    BatchesAddUp(all, settings, prompts.generation);
    PacksAddUp(packs, prompts.summary);
  }

  lemma EstimateIs(packs: seq<seq<Chunk>>, all: seq<Batch>, settings: Settings, prompts: Prompts, estimate: Estimate,
                   reduceCalls: nat, summaryCalls: nat, input: nat, output: nat)
    requires reduceCalls == ReduceCalls(if |packs| > 1 then |packs| else 0)
    requires summaryCalls == if |packs| > 1 then |packs| + reduceCalls else 0
    requires input == (if |packs| > 1 then PacksInput(packs, prompts.summary) else 0) + reduceCalls * prompts.reduction
                      + BatchesInput(all, settings, prompts.generation)
    requires output == summaryCalls * settings.summaryOutputTokens + OutputOf(settings, all)
    requires estimate == Estimate(summaryCalls + |all|, input, output, Budget.Cost(settings.limits, input, output))
    ensures AddsUp(estimate, all, packs, settings, prompts)
  {
    hide *;
    InputIs(packs, all, settings, prompts, reduceCalls, input);
    CeilingsAddUp(all, settings);
    Budget.CostIsLeast(settings.limits, input, output);
    var packed, reduced := if |packs| > 1 then |packs| else 0, if |packs| > 1 then ReduceCalls(|packs|) else 0;
    assert packed + reduced == summaryCalls;
    ItAddsUp(estimate, all, packs, settings, prompts, packed, reduced);
  }

  lemma ItAddsUp(estimate: Estimate, all: seq<Batch>, packs: seq<seq<Chunk>>, settings: Settings, prompts: Prompts, packed: nat, reduced: nat)
    requires packed == (if |packs| > 1 then |packs| else 0) && reduced == if |packs| > 1 then ReduceCalls(|packs|) else 0
    requires estimate.requests == |all| + packed + reduced
    requires estimate.inputTokens == Sum(PromptSizes(all, prompts.generation)) + |all| * settings.promptReserve
                                     + (if |packs| > 1 then Sum(PackSizes(packs, prompts.summary)) else 0) + reduced * prompts.reduction
    requires estimate.outputTokens == Sum(Ceilings(all, settings)) + (packed + reduced) * settings.summaryOutputTokens
    requires Budget.Costs(settings.limits, estimate.inputTokens, estimate.outputTokens, estimate.cost)
    ensures AddsUp(estimate, all, packs, settings, prompts)
  {
    hide Sum, PromptSizes, PackSizes, Ceilings, ReduceCalls, Budget.Costs;
  }

  lemma EstimateBounds(packs: seq<seq<Chunk>>, all: seq<Batch>, settings: Settings, prompts: Prompts, estimate: Estimate)
    requires AddsUp(estimate, all, packs, settings, prompts)
    ensures |packs| <= 1 ==> estimate.requests == |all| && estimate.outputTokens == OutputOf(settings, all)
    ensures |packs| > 1 ==>
              && estimate.requests == |packs| + ReduceCalls(|packs|) + |all|
              && estimate.outputTokens >= (|packs| + ReduceCalls(|packs|)) * settings.summaryOutputTokens
  {
    CeilingsAddUp(all, settings);
    hide Sum, PromptSizes, PackSizes, Ceilings, OutputOf, ReduceCalls, Budget.Costs;
  }

  /** The estimate adds up the requests of a simulation that ran all its rounds. */
  ghost predicate EstimatedFrom(estimate: Estimate, rounds: seq<seq<Batch>>, chunks: seq<Chunk>, target: nat, packs: seq<seq<Chunk>>,
                                settings: Settings, prompts: Prompts)
    requires packs != []
  {
    && |rounds| == settings.refillRounds + 1
    && Simulated(chunks, rounds, target, if |packs| > 1 then [] else packs[0], settings, prompts.generation)
    && AddsUp(estimate, Flatten(rounds), packs, settings, prompts)
  }

  lemma IsEstimated(estimate: Estimate, rounds: seq<seq<Batch>>, chunks: seq<Chunk>, target: nat, packs: seq<seq<Chunk>>,
                    settings: Settings, prompts: Prompts)
    requires packs != [] && |rounds| == settings.refillRounds + 1
    requires Simulated(chunks, rounds, target, if |packs| > 1 then [] else packs[0], settings, prompts.generation)
    requires AddsUp(estimate, Flatten(rounds), packs, settings, prompts)
    ensures EstimatedFrom(estimate, rounds, chunks, target, packs, settings, prompts)
  {
    hide Simulated, AddsUp, Flatten;
  }

  /**
   * The no-yield simulation: every round asks for the whole target, and nothing is ever accepted. The estimate
   * adds up its requests, and is refused for the first limit it breaks.
   */
  method Estimated(chunks: seq<Chunk>, target: nat, packs: seq<seq<Chunk>>, settings: Settings, prompts: Prompts)
    returns (estimate: Estimate, refusal: Option<Budget.Refusal>, ghost rounds: seq<seq<Batch>>)
    requires settings.cardsPerRequest >= 1 && DistinctIds(chunks) && chunks != [] && target >= 1
    requires packs != [] && forall p :: p in packs ==> p != []
    ensures refusal == RefusalOf(settings, estimate)
    ensures EstimatedFrom(estimate, rounds, chunks, target, packs, settings, prompts)
    ensures RefusedRightly(refusal, estimate, settings.limits)
    ensures |packs| == 1 ==>
              && estimate.requests == BatchCount(settings.cardsPerRequest, target) * (settings.refillRounds + 1)
              && estimate.outputTokens == OutputFor(settings, target) * (settings.refillRounds + 1)
    ensures |packs| > 1 ==>
              && estimate.requests >= |packs| + ReduceCalls(|packs|) + BatchCount(settings.cardsPerRequest, target) * (settings.refillRounds + 1)
              && estimate.outputTokens >= (|packs| + ReduceCalls(|packs|)) * settings.summaryOutputTokens
  {
    hide *;
    var planning := |packs| > 1;
    var reduceCalls := ReduceCallCount(if planning then |packs| else 0);
    var context := if planning then [] else packs[0];
    assert packs[0] in packs;
    var requested: Tally := map[];
    var all: seq<Batch> := [];
    rounds := [];
    NothingSimulated(chunks, target, context, settings, prompts.generation);
    for round := 0 to settings.refillRounds + 1
      invariant |rounds| == round && all == Flatten(rounds)
      invariant Simulated(chunks, rounds, target, context, settings, prompts.generation)
      invariant forall id :: Count(requested, id) == RequestedIn(rounds, id)
      invariant Sized(all, round, target, !planning, settings)
    {
      var allocation := AllocateAdaptive(chunks, target, requested, map[]);
      var batches := GenerationBatches(chunks, allocation.value, context, settings.cardsPerRequest,
                                       prompts.generation, settings.promptReserve, settings.requestTarget);
      FairBatches(chunks, requested, target, allocation.value, batches, context, settings, prompts.generation);
      EachSound(batches, settings, context, prompts.generation);
      BatchesNeeded(batches, settings.cardsPerRequest, context, target);
      SizedMore(all, batches, round, target, !planning, settings);
      IsSimulated(chunks, rounds, requested, allocation.value, batches, target, context, settings, prompts.generation);
      RoundSimulated(chunks, rounds, requested, allocation.value, batches, target, context, settings, prompts.generation);
      FlattenSnoc(rounds, batches);
      var next := AddCounts(chunks, requested, allocation.value);
      TalliesFollow(chunks, rounds, requested, next, allocation.value, batches);
      all, rounds, requested := all + batches, rounds + [batches], next;
    }
    SizedMeans(all, settings.refillRounds + 1, target, !planning, settings);
    var summaryCalls := if planning then |packs| + reduceCalls else 0;
    var input := (if planning then PacksInput(packs, prompts.summary) else 0) + reduceCalls * prompts.reduction
                 + BatchesInput(all, settings, prompts.generation);
    var output := summaryCalls * settings.summaryOutputTokens + OutputOf(settings, all);
    estimate := Estimate(summaryCalls + |all|, input, output, Budget.Cost(settings.limits, input, output));
    EstimateIs(packs, all, settings, prompts, estimate, reduceCalls, summaryCalls, input, output);
    EstimateBounds(packs, all, settings, prompts, estimate);
    IsEstimated(estimate, rounds, chunks, target, packs, settings, prompts);
    AddedCost(estimate, all, packs, settings, prompts);
    RefusalIsRight(settings, estimate);
    refusal := RefusalOf(settings, estimate);
  }

  lemma EachSound(batches: seq<Batch>, settings: Settings, context: seq<Chunk>, tokens: PromptTokens)
    requires AllSound(batches, settings.cardsPerRequest, context, tokens, settings.promptReserve, settings.requestTarget)
    ensures forall b :: b in batches ==> Sound(b, settings.cardsPerRequest, context)
  {
  }

  /** A fair allocation asks every chunk for what it was given, and for the target in all. */
  lemma FairBatches(chunks: seq<Chunk>, requested: Tally, target: nat, allocation: map<ChunkId, int>, batches: seq<Batch>,
                    context: seq<Chunk>, settings: Settings, tokens: PromptTokens)
    requires settings.cardsPerRequest >= 1 && DistinctIds(chunks) && Fair(chunks, requested, target, allocation)
    requires forall id :: Asked(batches, id) == if id in Ids(chunks) then Max(0, Quota(allocation, id)) else 0
    requires AllSound(batches, settings.cardsPerRequest, context, tokens, settings.promptReserve, settings.requestTarget)
    requires Drawn(batches, chunks)
    requires context != [] && batches != [] ==> AllFull(batches[..|batches| - 1], settings.cardsPerRequest)
    ensures AskedInAll(batches) == target
    ensures context != [] ==>
              |batches| == BatchCount(settings.cardsPerRequest, target) && OutputOf(settings, batches) == OutputFor(settings, target)
    ensures forall i :: 0 <= i < |chunks| ==> Asked(batches, chunks[i].id) == Quota(allocation, chunks[i].id) >= 0
  {
    hide Asked, AskedInAll, Sum, RequestedFor, Drawn, OutputOf, BatchCount, OutputFor, AllFull;
    forall i | 0 <= i < |chunks| ensures Asked(batches, chunks[i].id) == Quota(allocation, chunks[i].id) >= 0 {
      ShareIsQuota(chunks, requested, target, allocation, i);
      assert Asked(batches, chunks[i].id) == if chunks[i].id in Ids(chunks) then Max(0, Quota(allocation, chunks[i].id)) else 0;
    }
    AskedByChunk(chunks, batches, settings.cardsPerRequest, context);
    AskedIsAllocated(chunks, batches, allocation);
    AllocatedIsTarget(chunks, allocation);
    if context != [] {
      ContextualBatches(settings, batches, context, target);
    }
  }

  lemma ShareIsQuota(chunks: seq<Chunk>, requested: Tally, target: nat, allocation: map<ChunkId, int>, i: nat)
    requires Fair(chunks, requested, target, allocation) && i < |chunks|
    ensures chunks[i].id in Ids(chunks) && Quota(allocation, chunks[i].id) == Share(chunks, allocation, i) >= 0
  {
    hide Sum, ServedNew, Waiting, Unseen;
    assert chunks[i] in chunks;
    assert 0 <= Share(chunks, allocation, i) <= Share(chunks, allocation, i) + 1;
  }

  lemma {:induction false} AllocatedIsTarget(chunks: seq<Chunk>, allocation: map<ChunkId, int>)
    requires Ids(chunks) <= allocation.Keys
    ensures RequestedFor(chunks, allocation) == Sum(Shares(chunks, allocation))
    decreases |chunks|
  {
    if chunks != [] {
      FewerShares(chunks, allocation);
      AllocatedIsTarget(chunks[..|chunks| - 1], allocation);
    }
  }

  lemma FewerShares(chunks: seq<Chunk>, allocation: map<ChunkId, int>)
    requires Ids(chunks) <= allocation.Keys && chunks != []
    ensures var k := |chunks| - 1;
            && Ids(chunks[..k]) <= allocation.Keys
            && Shares(chunks, allocation)[..k] == Shares(chunks[..k], allocation)
            && Shares(chunks, allocation)[k] == Quota(allocation, chunks[k].id)
  {
    hide Sum, RequestedFor;
    var k := |chunks| - 1;
    assert chunks == chunks[..k] + [chunks[k]];
    assert chunks[k].id in Ids(chunks);
    forall id | id in Ids(chunks[..k]) ensures id in Ids(chunks) {
    }
  }

  /** The tallies after one more round of requests. */
  method AddCounts(chunks: seq<Chunk>, tally: Tally, allocation: map<ChunkId, int>) returns (sum: Tally)
    requires DistinctIds(chunks) && forall i :: 0 <= i < |chunks| ==> Quota(allocation, chunks[i].id) >= 0
    ensures forall id :: Count(sum, id) == Count(tally, id) + (if id in Ids(chunks) then Quota(allocation, id) else 0)
    ensures sum.Keys == tally.Keys + Ids(chunks)
  {
    sum := tally;
    for i := 0 to |chunks|
      invariant forall id :: Count(sum, id) == Count(tally, id) + (if id in Ids(chunks[..i]) then Quota(allocation, id) else 0)
      invariant sum.Keys == tally.Keys + Ids(chunks[..i])
    {
      assert chunks[..i + 1] == chunks[..i] + [chunks[i]];
      IdsSnoc(chunks[..i], chunks[i]);
      forall c | c in chunks[..i] ensures c.id != chunks[i].id {
      }
      assert chunks[i].id !in Ids(chunks[..i]);
      sum := sum[chunks[i].id := Count(sum, chunks[i].id) + Quota(allocation, chunks[i].id)];
    }
    assert chunks[..|chunks|] == chunks;
  }
}
