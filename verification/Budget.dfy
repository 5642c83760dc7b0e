/** The token and cost budget of one run: reserved, completed and uncertain calls, under every interleaving. */
module Budget {
  import opened Prelude
  import opened MapSums
  import opened Chunks

  type CallId = nat

  /** What a call may use at most: its prompt and its output ceiling. */
  datatype Envelope = Envelope(input: nat, output: nat)

  /** Prices are micro-dollars per token; `None` means that no pricing is configured. */
  datatype Prices = Prices(input: real, output: real)

  datatype Limits = Limits(
    contextWindow: nat,
    maxInput: nat,
    maxOutput: nat,
    maxCost: real,
    prices: Option<Prices>,
    concurrency: nat)
  {
    predicate Sane() {
      prices.Some? ==> prices.value.input >= 0.0 && prices.value.output >= 0.0
    }
  }

  // Costs

  function Ceiling(x: real): int {
    0 - (0.0 - x).Floor
  }

  /** Decimal `to_integral_value`: to the nearest integer, halves to the even one. */
  function HalfEven(x: real): int {
    var whole := x.Floor;
    var part := x - whole as real;
    if part < 0.5 || (part == 0.5 && whole % 2 == 0) then whole else whole + 1
  }

  /** `cost_microusd` */
  function Cost(limits: Limits, input: nat, output: nat): Option<int> {
    if limits.prices.None? then None
    else Some(Ceiling(input as real * limits.prices.value.input + output as real * limits.prices.value.output))
  }

  lemma CeilingIsLeast(x: real, n: int)
    ensures Ceiling(x) <= n <==> x <= n as real
  {
  }

  /** What tokens cost at the two prices, before rounding. */
  function Price(prices: Prices, input: int, output: int): real {
    input as real * prices.input + output as real * prices.output
  }

  /** No cost without prices; with them, the least integer that is not below the tokens at their prices. */
  ghost predicate Costs(limits: Limits, input: int, output: int, cost: Option<int>) {
    match cost
    case None => limits.prices.None?
    case Some(n) => limits.prices.Some? && n as real - 1.0 < Price(limits.prices.value, input, output) <= n as real
  }

  lemma CostIsLeast(limits: Limits, input: nat, output: nat)
    ensures Costs(limits, input, output, Cost(limits, input, output))
  {
    if limits.prices.Some? {
      var price, cost := Price(limits.prices.value, input, output), Cost(limits, input, output).value;
      CeilingIsLeast(price, cost);
      CeilingIsLeast(price, cost - 1);
    }
  }

  /** The rounded limit is a nearest integer, and the even one of two. */
  lemma HalfEvenIsNearest(x: real, n: int)
    ensures Distance(x, HalfEven(x)) <= Distance(x, n)
    ensures n != HalfEven(x) && Distance(x, HalfEven(x)) == Distance(x, n) ==> HalfEven(x) % 2 == 0
  {
    var whole, part := x.Floor, x - x.Floor as real;
    assert 0.0 <= part < 1.0;
    if n <= whole {
      assert n as real <= whole as real && Distance(x, n) >= part;
    } else {
      assert n as real >= whole as real + 1.0 && Distance(x, n) >= 1.0 - part;
    }
  }

  function Distance(x: real, n: int): real {
    if x <= n as real then n as real - x else x - n as real
  }

  /** An integer is above a real limit exactly when what it rounds up is above the last integer within the limit. */
  lemma ExactLimit(limits: Limits, input: nat, output: nat)
    requires limits.prices.Some?
    ensures Cost(limits, input, output).value as real > limits.maxCost
            <==> Price(limits.prices.value, input, output) > limits.maxCost.Floor as real
  {
    CostIsLeast(limits, input, output);
    hide Cost, Price;
    LeastAbove(Price(limits.prices.value, input, output), Cost(limits, input, output).value, limits.maxCost);
  }

  lemma LeastAbove(x: real, n: int, limit: real)
    requires n as real - 1.0 < x <= n as real
    ensures n as real > limit <==> x > limit.Floor as real
  {
    var whole := limit.Floor;
    assert whole as real <= limit < whole as real + 1.0;
    if n <= whole {
      assert n as real <= whole as real;
    } else {
      assert n as real >= whole as real + 1.0;
    }
  }

  lemma Scaled(price: real, a: nat, b: nat)
    requires price >= 0.0 && a <= b
    ensures a as real * price <= b as real * price
  {
    assert (b as real - a as real) * price >= 0.0;
  }

  /** More tokens never cost less. */
  lemma CostGrows(limits: Limits, input: nat, output: nat, moreInput: nat, moreOutput: nat)
    requires limits.Sane() && limits.prices.Some? && input <= moreInput && output <= moreOutput
    ensures Cost(limits, input, output).value <= Cost(limits, moreInput, moreOutput).value
  {
    hide Cost;
    Scaled(limits.prices.value.input, input, moreInput);
    Scaled(limits.prices.value.output, output, moreOutput);
    CostIsLeast(limits, input, output);
    CostIsLeast(limits, moreInput, moreOutput);
    hide Price;
    assert (Cost(limits, input, output).value - 1) as real < Cost(limits, moreInput, moreOutput).value as real;
  }

  /** A call is checked against the exact cost limit, the estimate and the totals against the rounded one. */
  predicate PassesExact(maxCost: real, cost: int) {
    cost as real <= maxCost
  }

  predicate PassesRounded(maxCost: real, cost: int) {
    cost <= HalfEven(maxCost)
  }

  /** The two checks agree on every cost exactly when rounding does not go up. */
  lemma RoundingsAgree(maxCost: real)
    ensures (forall cost: int :: PassesExact(maxCost, cost) <==> PassesRounded(maxCost, cost)) <==> HalfEven(maxCost) == maxCost.Floor
  {
    if HalfEven(maxCost) != maxCost.Floor {
      assert PassesRounded(maxCost, maxCost.Floor + 1) && !PassesExact(maxCost, maxCost.Floor + 1);
    }
  }

  /** A limit of 0.6 micro-dollars: a cost of one passes the estimate's check and fails the call's. */
  lemma RoundingsDisagree()
    ensures PassesRounded(0.6, 1) && !PassesExact(0.6, 1)
  {
  }

  // The ledger

  datatype Ledger = Ledger(
    usageInput: int,
    usageOutput: int,
    pendingInput: int,
    pendingOutput: int,
    uncertainInput: int,
    uncertainOutput: int,
    uncertainCalls: nat,
    requests: nat,
    receipts: nat,
    inFlight: map<CallId, Envelope>)

  const FRESH := Ledger(0, 0, 0, 0, 0, 0, 0, 0, 0, map[])

  datatype Refusal = ContextWindow | InputTokens | OutputTokens | CostLimit

  /** What admission decides for a call, from the ledger as it is. */
  function Objection(limits: Limits, s: Ledger, call: Envelope): Option<Refusal> {
    var input := s.usageInput + s.pendingInput + s.uncertainInput + call.input;
    var output := s.usageOutput + s.pendingOutput + s.uncertainOutput + call.output;
    if call.input + call.output > limits.contextWindow then Some(ContextWindow)
    else if input > limits.maxInput then Some(InputTokens)
    else if output > limits.maxOutput then Some(OutputTokens)
    else if input >= 0 && output >= 0 && Cost(limits, input, output).Some?
            && Cost(limits, input, output).value as real > limits.maxCost then Some(CostLimit)
    else None
  }

  /** The checks behind a completed call. */
  function Overrun(limits: Limits, s: Ledger): Option<Refusal> {
    if s.usageInput > limits.maxInput then Some(InputTokens)
    else if s.usageOutput > limits.maxOutput then Some(OutputTokens)
    else if s.usageInput >= 0 && s.usageOutput >= 0 && Cost(limits, s.usageInput, s.usageOutput).Some?
            && Cost(limits, s.usageInput, s.usageOutput).value > HalfEven(limits.maxCost) then Some(CostLimit)
    else None
  }

  /** One step of one of the calls: it asks to be admitted, gets its answer, or is lost to an error or cancellation. */
  datatype Event =
    | Ask(id: CallId, call: Envelope)
    | Receive(id: CallId, input: nat, output: nat)
    | Lose(id: CallId)

  predicate Enabled(limits: Limits, s: Ledger, e: Event) {
    match e
    case Ask(id, call) => id !in s.inFlight && |s.inFlight| < limits.concurrency && Objection(limits, s, call).None?
    case Receive(id, _, _) => id in s.inFlight
    case Lose(id) => id in s.inFlight
  }

  function Next(s: Ledger, e: Event): Ledger
    requires !e.Ask? ==> e.id in s.inFlight
  {
    match e
    case Ask(id, call) =>
      s.(pendingInput := s.pendingInput + call.input, pendingOutput := s.pendingOutput + call.output,
         requests := s.requests + 1, inFlight := s.inFlight[id := call])
    case Receive(id, input, output) =>
      var call := s.inFlight[id];
      s.(pendingInput := s.pendingInput - call.input, pendingOutput := s.pendingOutput - call.output,
         usageInput := s.usageInput + input, usageOutput := s.usageOutput + output,
         receipts := s.receipts + 1, inFlight := s.inFlight - {id})
    case Lose(id) =>
      var call := s.inFlight[id];
      s.(pendingInput := s.pendingInput - call.input, pendingOutput := s.pendingOutput - call.output,
         uncertainInput := s.uncertainInput + call.input, uncertainOutput := s.uncertainOutput + call.output,
         uncertainCalls := s.uncertainCalls + 1, inFlight := s.inFlight - {id})
  }

  function After(limits: Limits, events: seq<Event>): Ledger {
    if events == [] then FRESH else
      var s, e := After(limits, events[..|events| - 1]), events[|events| - 1];
      if Enabled(limits, s, e) then Next(s, e) else s
  }

  // What every interleaving keeps

  function Inputs(calls: map<CallId, Envelope>): map<CallId, int> {
    map c | c in calls :: calls[c].input
  }

  function Outputs(calls: map<CallId, Envelope>): map<CallId, int> {
    map c | c in calls :: calls[c].output
  }

  /** Pending is the sum of the calls in flight, and every admitted call is completed, uncertain or in flight. */
  ghost predicate Balanced(limits: Limits, s: Ledger) {
    && s.pendingInput == Total(Inputs(s.inFlight)) && s.pendingOutput == Total(Outputs(s.inFlight))
    && s.requests == s.receipts + s.uncertainCalls + |s.inFlight|
    && |s.inFlight| <= limits.concurrency
    && s.usageInput >= 0 && s.usageOutput >= 0 && s.uncertainInput >= 0 && s.uncertainOutput >= 0
  }

  lemma CallEnters(calls: map<CallId, Envelope>, id: CallId, call: Envelope)
    requires id !in calls
    ensures Total(Inputs(calls[id := call])) == Total(Inputs(calls)) + call.input
    ensures Total(Outputs(calls[id := call])) == Total(Outputs(calls)) + call.output
    ensures |calls[id := call]| == |calls| + 1
  {
    hide Total, Inputs, Outputs;
    InputsEnter(calls, id, call);
    TotalUpdate(Inputs(calls), id, call.input);
    TotalUpdate(Outputs(calls), id, call.output);
    OneMoreCall(calls, id, call);
  }

  lemma InputsEnter(calls: map<CallId, Envelope>, id: CallId, call: Envelope)
    requires id !in calls
    ensures Inputs(calls[id := call]) == Inputs(calls)[id := call.input] && id !in Inputs(calls)
    ensures Outputs(calls[id := call]) == Outputs(calls)[id := call.output] && id !in Outputs(calls)
  {
  }

  lemma OneMoreCall(calls: map<CallId, Envelope>, id: CallId, call: Envelope)
    requires id !in calls
    ensures |calls[id := call]| == |calls| + 1
  {
    assert calls[id := call].Keys == calls.Keys + {id};
    assert |calls[id := call].Keys| == |calls.Keys| + 1;
  }

  lemma CallLeaves(calls: map<CallId, Envelope>, id: CallId)
    requires id in calls
    ensures Total(Inputs(calls - {id})) == Total(Inputs(calls)) - calls[id].input
    ensures Total(Outputs(calls - {id})) == Total(Outputs(calls)) - calls[id].output
    ensures |calls - {id}| == |calls| - 1
  {
    hide Total, Inputs, Outputs;
    assert (calls - {id})[id := calls[id]] == calls;
    CallEnters(calls - {id}, id, calls[id]);
  }

  lemma AskKeepsBalance(limits: Limits, s: Ledger, id: CallId, call: Envelope)
    requires Balanced(limits, s) && Enabled(limits, s, Ask(id, call))
    ensures Balanced(limits, Next(s, Ask(id, call)))
  {
    hide Total, Inputs, Outputs, Objection;
    CallEnters(s.inFlight, id, call);
  }

  lemma LeaveKeepsBalance(limits: Limits, s: Ledger, e: Event)
    requires Balanced(limits, s) && Enabled(limits, s, e) && !e.Ask?
    ensures Balanced(limits, Next(s, e))
  {
    hide Total, Inputs, Outputs, Objection;
    CallLeaves(s.inFlight, e.id);
  }

  lemma StepKeepsBalance(limits: Limits, s: Ledger, e: Event)
    requires Balanced(limits, s) && Enabled(limits, s, e)
    ensures Balanced(limits, Next(s, e))
    ensures Next(s, e).uncertainInput >= s.uncertainInput && Next(s, e).uncertainOutput >= s.uncertainOutput
    ensures Next(s, e).uncertainCalls >= s.uncertainCalls
  {
    hide Balanced, Objection;
    if e.Ask? {
      AskKeepsBalance(limits, s, e.id, e.call);
    } else {
      LeaveKeepsBalance(limits, s, e);
    }
  }

  /** Whatever the calls do and however their steps interleave, the ledger balances and uncertain amounts never shrink. */
  lemma {:induction false} LedgerBalances(limits: Limits, start: seq<Event>, more: seq<Event>)
    ensures Balanced(limits, After(limits, start + more))
    ensures var s, t := After(limits, start), After(limits, start + more);
            && s.uncertainInput <= t.uncertainInput && s.uncertainOutput <= t.uncertainOutput
            && s.uncertainCalls <= t.uncertainCalls
    decreases |start| + |more|
  {
    hide Balanced, Enabled;
    if start + more == [] {
      FreshBalances(limits);
    } else if more == [] {
      var n := |start| - 1;
      assert start + more == start && start[..n] + [] == start[..n];
      LedgerBalances(limits, start[..n], []);
      if Enabled(limits, After(limits, start[..n]), start[n]) {
        StepKeepsBalance(limits, After(limits, start[..n]), start[n]);
      }
    } else {
      var n := |more| - 1;
      assert (start + more)[..|start + more| - 1] == start + more[..n];
      LedgerBalances(limits, start, more[..n]);
      if Enabled(limits, After(limits, start + more[..n]), more[n]) {
        StepKeepsBalance(limits, After(limits, start + more[..n]), more[n]);
      }
    }
  }

  lemma FreshBalances(limits: Limits)
    ensures Balanced(limits, FRESH)
  {
    assert Inputs(map[]) == map[] && Outputs(map[]) == map[];
  }

  // Safety

  /** The answer to a call stays within what was reserved for it. */
  predicate WithinReservation(s: Ledger, e: Event) {
    e.Receive? && e.id in s.inFlight ==> e.input <= s.inFlight[e.id].input && e.output <= s.inFlight[e.id].output
  }

  ghost predicate Honest(limits: Limits, events: seq<Event>) {
    forall i :: 0 <= i < |events| ==> WithinReservation(After(limits, events[..i]), events[i])
  }

  function Input(s: Ledger): int {
    s.usageInput + s.pendingInput + s.uncertainInput
  }

  function Output(s: Ledger): int {
    s.usageOutput + s.pendingOutput + s.uncertainOutput
  }

  /** Used, reserved and uncertain amounts together respect every limit. */
  predicate WithinLimits(limits: Limits, s: Ledger) {
    && 0 <= Input(s) <= limits.maxInput && 0 <= Output(s) <= limits.maxOutput
    && (Cost(limits, Input(s), Output(s)).Some? ==> Cost(limits, Input(s), Output(s)).value as real <= limits.maxCost)
  }

  lemma AmountsNonNegative(limits: Limits, s: Ledger)
    requires Balanced(limits, s)
    ensures s.usageInput >= 0 && s.usageOutput >= 0 && s.pendingInput >= 0 && s.pendingOutput >= 0
    ensures s.uncertainInput >= 0 && s.uncertainOutput >= 0
  {
    hide Total;
    TotalNonNegative(Inputs(s.inFlight));
    TotalNonNegative(Outputs(s.inFlight));
  }

  lemma StepStaysWithin(limits: Limits, s: Ledger, e: Event)
    requires limits.Sane() && Balanced(limits, s) && WithinLimits(limits, s)
    requires Enabled(limits, s, e) && WithinReservation(s, e)
    ensures WithinLimits(limits, Next(s, e))
  {
    hide Total, Cost, Inputs, Outputs;
    var t := Next(s, e);
    StepKeepsBalance(limits, s, e);
    AmountsNonNegative(limits, t);
    if !e.Ask? && Cost(limits, Input(t), Output(t)).Some? {
      assert Input(t) <= Input(s) && Output(t) <= Output(s);
      NoPriceNoCost(limits, Input(t), Output(t), Input(s), Output(s));
      CostGrows(limits, Input(t), Output(t), Input(s), Output(s));
    }
  }

  lemma NoPriceNoCost(limits: Limits, a: nat, b: nat, c: nat, d: nat)
    ensures Cost(limits, a, b).Some? <==> limits.prices.Some?
    ensures Cost(limits, c, d).Some? <==> limits.prices.Some?
  {
  }

  lemma FreshWithin(limits: Limits)
    requires limits.maxCost >= 0.0
    ensures WithinLimits(limits, FRESH)
  {
  }

  /** The checks made after a call cannot fire while the ledger is within its limits. */
  lemma NoOverrun(limits: Limits, s: Ledger)
    requires limits.Sane() && Balanced(limits, s) && WithinLimits(limits, s)
    ensures Overrun(limits, s).None?
  {
    hide Total, Cost, Inputs, Outputs, HalfEven;
    AmountsNonNegative(limits, s);
    NoPriceNoCost(limits, s.usageInput, s.usageOutput, Input(s), Output(s));
    if limits.prices.Some? {
      CostGrows(limits, s.usageInput, s.usageOutput, Input(s), Output(s));
      WholeCostUnderRounded(Cost(limits, s.usageInput, s.usageOutput).value, limits.maxCost);
    }
  }

  lemma WholeCostUnderRounded(cost: int, maxCost: real)
    requires cost as real <= maxCost
    ensures cost <= HalfEven(maxCost)
  {
  }

  /** If every answer stays within its reservation, no interleaving exceeds a limit and no check after a call fires. */
  lemma {:induction false} BudgetIsSafe(limits: Limits, events: seq<Event>)
    requires limits.Sane() && limits.maxCost >= 0.0 && Honest(limits, events)
    ensures WithinLimits(limits, After(limits, events))
    ensures Overrun(limits, After(limits, events)).None?
    decreases |events|
  {
    hide Balanced, Enabled, WithinLimits, WithinReservation, Overrun;
    if events == [] {
      FreshWithin(limits);
    } else {
      var n := |events| - 1;
      var s := After(limits, events[..n]);
      forall i | 0 <= i < n ensures WithinReservation(After(limits, events[..n][..i]), events[..n][i]) {
        assert events[..n][..i] == events[..i];
      }
      BudgetIsSafe(limits, events[..n]);
      LedgerBalances(limits, events[..n], []);
      assert events[..n] + [] == events[..n];
      if Enabled(limits, s, events[n]) {
        StepStaysWithin(limits, s, events[n]);
      }
    }
    LedgerBalances(limits, events, []);
    assert events + [] == events;
    NoOverrun(limits, After(limits, events));
  }

  // Output reservations

  /** What all admitted calls of a run have reserved for output. */
  function AskedOutput(limits: Limits, events: seq<Event>): nat {
    if events == [] then 0 else
      var k := |events| - 1;
      AskedOutput(limits, events[..k])
      + (if events[k].Ask? && Enabled(limits, After(limits, events[..k]), events[k]) then events[k].call.output else 0)
  }

  lemma StepOutput(limits: Limits, s: Ledger, e: Event)
    requires Enabled(limits, s, e) && WithinReservation(s, e)
    ensures Output(Next(s, e)) <= Output(s) + (if e.Ask? then e.call.output else 0)
  {
    hide Objection;
  }

  lemma {:induction false} OutputWithinAsked(limits: Limits, events: seq<Event>)
    requires Honest(limits, events)
    ensures Output(After(limits, events)) <= AskedOutput(limits, events)
    decreases |events|
  {
    hide Enabled, WithinReservation, Next;
    if events != [] {
      hide Output;
      var k := |events| - 1;
      forall i | 0 <= i < k ensures WithinReservation(After(limits, events[..k][..i]), events[..k][i]) {
        assert events[..k][..i] == events[..i];
      }
      OutputWithinAsked(limits, events[..k]);
      var s := After(limits, events[..k]);
      if Enabled(limits, s, events[k]) {
        StepOutput(limits, s, events[k]);
      }
    }
  }

  /** As long as all reservations, with the next one, stay within the output limit, admission never refuses for output. */
  lemma ReservedOutputSuffices(limits: Limits, events: seq<Event>, call: Envelope)
    requires Honest(limits, events) && AskedOutput(limits, events) + call.output <= limits.maxOutput
    ensures Objection(limits, After(limits, events), call) != Some(OutputTokens)
  {
    hide Honest, After, AskedOutput, Cost;
    OutputWithinAsked(limits, events);
  }

  // A run whose calls are known beforehand

  /** The calls admitted so far. */
  function AdmittedIds(limits: Limits, events: seq<Event>): set<CallId> {
    if events == [] then {} else
      var k := |events| - 1;
      AdmittedIds(limits, events[..k])
      + (if events[k].Ask? && Enabled(limits, After(limits, events[..k]), events[k]) then {events[k].id} else {})
  }

  /** Every call that asks is one of the run's calls, with its output ceiling, and asks no more once it was admitted. */
  ghost predicate FromCalls(limits: Limits, events: seq<Event>, ceilings: seq<nat>) {
    forall k :: 0 <= k < |events| && events[k].Ask? ==>
      && events[k].id < |ceilings| && events[k].call.output == ceilings[events[k].id]
      && events[k].id !in AdmittedIds(limits, events[..k])
  }

  function Ceilings(ceilings: seq<nat>, ids: set<CallId>): map<CallId, int> {
    map id | id in ids && id < |ceilings| :: ceilings[id]
  }

  lemma OneCeilingMore(ceilings: seq<nat>, ids: set<CallId>, id: CallId)
    requires id < |ceilings| && id !in ids
    ensures Total(Ceilings(ceilings, ids + {id})) == Total(Ceilings(ceilings, ids)) + ceilings[id]
  {
    hide Total;
    TotalRemove(Ceilings(ceilings, ids + {id}), id);
    assert Ceilings(ceilings, ids + {id}) - {id} == Ceilings(ceilings, ids);
  }

  lemma {:induction false} AskedIsAdmitted(limits: Limits, events: seq<Event>, ceilings: seq<nat>)
    requires FromCalls(limits, events, ceilings)
    ensures AskedOutput(limits, events) == Total(Ceilings(ceilings, AdmittedIds(limits, events)))
    decreases |events|
  {
    hide Enabled, After, Total;
    if events == [] {
      EmptyTotal(Ceilings(ceilings, {}));
    } else {
      var k := |events| - 1;
      forall i | 0 <= i < k ensures events[..k][..i] == events[..i] {
      }
      AskedIsAdmitted(limits, events[..k], ceilings);
      if events[k].Ask? {
        OneCeilingMore(ceilings, AdmittedIds(limits, events[..k]), events[k].id);
      }
      assert AdmittedIds(limits, events[..k]) + {} == AdmittedIds(limits, events[..k]);
    }
  }

  lemma {:induction false} PartOfCeilings(ceilings: seq<nat>, ids: set<CallId>)
    ensures Total(Ceilings(ceilings, ids)) <= Sum(ceilings)
    decreases |ceilings|
  {
    hide Total;
    if ceilings == [] {
      EmptyTotal(Ceilings(ceilings, ids));
    } else {
      var k := |ceilings| - 1;
      PartOfCeilings(ceilings[..k], ids - {k});
      assert Ceilings(ceilings[..k], ids - {k}) == Ceilings(ceilings, ids - {k});
      if k in ids {
        OneCeilingMore(ceilings, ids - {k}, k);
        assert ids - {k} + {k} == ids;
      } else {
        assert ids - {k} == ids;
      }
    }
  }

  /**
   * However its calls are interleaved, wait, succeed, fail or are cancelled, as long as answers stay within
   * their ceilings no call of the run is ever refused for output tokens.
   */
  ghost predicate OutputSuffices(limits: Limits, ceilings: seq<nat>) {
    forall events, id, input: nat ::
      Honest(limits, events) && FromCalls(limits, events, ceilings) && 0 <= id < |ceilings| && id !in AdmittedIds(limits, events) ==>
        Objection(limits, After(limits, events), Envelope(input, ceilings[id])) != Some(OutputTokens)
  }

  /** Calls whose ceilings add up to no more than the job's output limit always find room for their output. */
  lemma CeilingsSuffice(limits: Limits, ceilings: seq<nat>)
    requires Sum(ceilings) <= limits.maxOutput
    ensures OutputSuffices(limits, ceilings)
  {
    hide Objection, After, Honest, FromCalls, AskedOutput, Sum, Total;
    forall events, id, input: nat
      | Honest(limits, events) && FromCalls(limits, events, ceilings) && 0 <= id < |ceilings| && id !in AdmittedIds(limits, events)
      ensures Objection(limits, After(limits, events), Envelope(input, ceilings[id])) != Some(OutputTokens)
    {
      AskedIsAdmitted(limits, events, ceilings);
      OneCeilingMore(ceilings, AdmittedIds(limits, events), id);
      PartOfCeilings(ceilings, AdmittedIds(limits, events) + {id});
      ReservedOutputSuffices(limits, events, Envelope(input, ceilings[id]));
    }
  }

  /** An answer within its reservation keeps the limits, so that no check behind it can fire. */
  lemma Answered(limits: Limits, s: Ledger, id: CallId, input: nat, output: nat)
    requires Balanced(limits, s) && id in s.inFlight
    ensures var t := Next(s, Receive(id, input, output));
            limits.Sane() && WithinLimits(limits, s) && input <= s.inFlight[id].input && output <= s.inFlight[id].output ==>
              WithinLimits(limits, t) && Overrun(limits, t).None?
  {
    hide Balanced, WithinLimits, Overrun, Next;
    var e := Receive(id, input, output);
    if limits.Sane() && WithinLimits(limits, s) && input <= s.inFlight[id].input && output <= s.inFlight[id].output {
      StepStaysWithin(limits, s, e);
      StepKeepsBalance(limits, s, e);
      NoOverrun(limits, Next(s, e));
    }
  }

  // The pipeline object

  datatype Admission = Admitted | Waits | Denied(reason: Refusal)

  /** The accounting fields of the pipeline, with the suspended calls and what each has reserved. */
  class Calls {
    const limits: Limits
    var usageInput: int
    var usageOutput: int
    var pendingInput: int
    var pendingOutput: int
    var uncertainInput: int
    var uncertainOutput: int
    var uncertainCalls: nat
    var requests: nat
    var inFlight: map<CallId, Envelope>
    ghost var receipts: nat

    constructor (limits: Limits)
      ensures this.limits == limits && State() == FRESH
    {
      this.limits := limits;
      usageInput, usageOutput, pendingInput, pendingOutput, uncertainInput, uncertainOutput := 0, 0, 0, 0, 0, 0;
      uncertainCalls, requests, receipts := 0, 0, 0;
      inFlight := map[];
    }

    ghost function State(): Ledger
      reads this
    {
      Ledger(usageInput, usageOutput, pendingInput, pendingOutput, uncertainInput, uncertainOutput, uncertainCalls,
             requests, receipts, inFlight)
    }

    /** The synchronous part of `_call` before the provider is awaited. */
    method Admit(id: CallId, call: Envelope) returns (r: Admission)
      requires Balanced(limits, State()) && id !in inFlight
      modifies this
      ensures r == if Objection(limits, old(State()), call) == Some(ContextWindow) then Denied(ContextWindow)
                   else if |old(inFlight)| >= limits.concurrency then Waits
                   else if Objection(limits, old(State()), call).Some? then Denied(Objection(limits, old(State()), call).value)
                   else Admitted
      ensures State() == if r == Admitted then Next(old(State()), Ask(id, call)) else old(State())
      ensures r == Denied(ContextWindow) <==> call.input + call.output > limits.contextWindow
      ensures r == Waits <==> call.input + call.output <= limits.contextWindow && old(|inFlight|) >= limits.concurrency
      ensures r != Denied(ContextWindow) && r != Waits ==>
                var input, output := old(usageInput + pendingInput + uncertainInput) + call.input,
                                     old(usageOutput + pendingOutput + uncertainOutput) + call.output;
                && (r == Denied(InputTokens) <==> input > limits.maxInput)
                && (r == Denied(OutputTokens) <==> input <= limits.maxInput && output > limits.maxOutput)
                && (r == Denied(CostLimit) <==>
                      && input <= limits.maxInput && output <= limits.maxOutput
                      && limits.prices.Some? && Price(limits.prices.value, input, output) > limits.maxCost.Floor as real)
    {
      AmountsNonNegative(limits, State());
      hide Balanced, Cost, Price;
      if call.input + call.output > limits.contextWindow {
        return Denied(ContextWindow);
      }
      if |inFlight| >= limits.concurrency {
        return Waits;
      }
      var plannedInput := usageInput + pendingInput + uncertainInput + call.input;
      var plannedOutput := usageOutput + pendingOutput + uncertainOutput + call.output;
      if plannedInput > limits.maxInput {
        return Denied(InputTokens);
      }
      if plannedOutput > limits.maxOutput {
        return Denied(OutputTokens);
      }
      var plannedCost := Cost(limits, plannedInput, plannedOutput);
      CostIsLeast(limits, plannedInput, plannedOutput);
      if plannedCost.Some? {
        ExactLimit(limits, plannedInput, plannedOutput);
      }
      if plannedCost.Some? && plannedCost.value as real > limits.maxCost {
        return Denied(CostLimit);
      }
      pendingInput := pendingInput + call.input;
      pendingOutput := pendingOutput + call.output;
      requests := requests + 1;
      inFlight := inFlight[id := call];
      return Admitted;
    }

    /** The provider answered: its usage replaces the reservation, then the totals are checked. */
    method Complete(id: CallId, input: nat, output: nat) returns (overrun: Option<Refusal>)
      requires Balanced(limits, State()) && id in inFlight
      modifies this
      ensures State() == Next(old(State()), Receive(id, input, output))
      ensures overrun == Overrun(limits, State())
      ensures usageInput == old(usageInput) + input && usageOutput == old(usageOutput) + output
      ensures overrun == Some(InputTokens) <==> usageInput > limits.maxInput
      ensures overrun == Some(OutputTokens) <==> usageInput <= limits.maxInput && usageOutput > limits.maxOutput
      ensures overrun == Some(CostLimit) <==>
                && usageInput <= limits.maxInput && usageOutput <= limits.maxOutput
                && limits.prices.Some? && Price(limits.prices.value, usageInput, usageOutput) > HalfEven(limits.maxCost) as real
      ensures overrun != Some(ContextWindow)
      ensures Output(State()) == old(Output(State())) - old(inFlight)[id].output + output
      ensures limits.Sane() && old(WithinLimits(limits, State())) && input <= old(inFlight)[id].input && output <= old(inFlight)[id].output ==>
                WithinLimits(limits, State()) && overrun.None?
    {
      Answered(limits, State(), id, input, output);
      AmountsNonNegative(limits, State());
      hide WithinLimits, Cost, HalfEven, Balanced, Price;
      var call := inFlight[id];
      pendingInput := pendingInput - call.input;
      pendingOutput := pendingOutput - call.output;
      usageInput := usageInput + input;
      usageOutput := usageOutput + output;
      inFlight := inFlight - {id};
      receipts := receipts + 1;
      if usageInput > limits.maxInput {
        return Some(InputTokens);
      }
      if usageOutput > limits.maxOutput {
        return Some(OutputTokens);
      }
      var cost := Cost(limits, usageInput, usageOutput);
      CostIsLeast(limits, usageInput, usageOutput);
      if cost.Some? && cost.value > HalfEven(limits.maxCost) {
        return Some(CostLimit);
      }
      return None;
    }

    /** The provider failed or the call was cancelled: the reservation stays charged as uncertain. */
    method Fail(id: CallId)
      requires id in inFlight
      modifies this
      ensures State() == Next(old(State()), Lose(id))
      ensures uncertainInput == old(uncertainInput) + old(inFlight)[id].input
      ensures uncertainOutput == old(uncertainOutput) + old(inFlight)[id].output
      ensures pendingInput + uncertainInput == old(pendingInput + uncertainInput)
      ensures pendingOutput + uncertainOutput == old(pendingOutput + uncertainOutput)
      ensures old(WithinLimits(limits, State())) ==> WithinLimits(limits, State())
    {
      var call := inFlight[id];
      pendingInput := pendingInput - call.input;
      pendingOutput := pendingOutput - call.output;
      uncertainInput := uncertainInput + call.input;
      uncertainOutput := uncertainOutput + call.output;
      uncertainCalls := uncertainCalls + 1;
      inFlight := inFlight - {id};
    }
  }
}
