/** Reducing evidence summaries eight at a time: the number of calls is known beforehand and bounded, and no source is lost. */
module SummaryTree {
  import opened Chunks

  const FAN_IN := 8

  datatype Summary = Summary(text: string, sources: seq<ChunkId>)

  /** Calls on one level: one for every group of at least two. */
  function LevelCalls(size: nat): nat {
    size / FAN_IN + (if size % FAN_IN > 1 then 1 else 0)
  }

  /** How many summaries a level leaves. */
  function NextSize(size: nat): nat {
    (size + FAN_IN - 1) / FAN_IN
  }

  function ReduceCalls(size: nat): nat
    decreases size
  {
    if size <= 1 then 0 else LevelCalls(size) + ReduceCalls(NextSize(size))
  }

  /** `_reduce_call_count` */
  method ReduceCallCount(mapCalls: nat) returns (reduceCalls: nat)
    ensures reduceCalls == ReduceCalls(mapCalls)
  {
    reduceCalls := 0;
    var levelSize := mapCalls;
    while levelSize > 1
      invariant reduceCalls + ReduceCalls(levelSize) == ReduceCalls(mapCalls)
      decreases levelSize
    {
      var fullGroups, remainder := levelSize / 8, levelSize % 8;
      reduceCalls := reduceCalls + fullGroups + (if remainder > 1 then 1 else 0);
      levelSize := (levelSize + 7) / 8;
    }
  }

  function Sources(summaries: seq<Summary>): seq<ChunkId> {
    if summaries == [] then [] else Sources(summaries[..|summaries| - 1]) + summaries[|summaries| - 1].sources
  }

  lemma {:induction false} SourcesConcat(a: seq<Summary>, b: seq<Summary>)
    ensures Sources(a + b) == Sources(a) + Sources(b)
    decreases |b|
  {
    if b == [] {
      assert a + b == a;
    } else {
      assert (a + b)[..|a + b| - 1] == a + b[..|b| - 1];
      SourcesConcat(a, b[..|b| - 1]);
    }
  }

  /** The calls a level has made when it has got through `start` summaries. */
  function CallsUpTo(size: nat, start: nat): nat {
    if start >= size then LevelCalls(size) else start / FAN_IN
  }

  lemma GroupCounts(size: nat, n: nat)
    requires FAN_IN * n < size
    ensures var start := FAN_IN * n;
            && CallsUpTo(size, start + FAN_IN) == CallsUpTo(size, start) + (if start + 1 == size then 0 else 1)
    ensures n < NextSize(size)
  {
  }

  function Texts(group: seq<Summary>): seq<string> {
    seq(|group|, i requires 0 <= i < |group| => group[i].text)
  }

  // Whether the text gets through: with a provider that only joins texts, the summary of all is all texts joined

  function Glued(texts: seq<string>): string {
    if texts == [] then "" else Glued(texts[..|texts| - 1]) + texts[|texts| - 1]
  }

  ghost predicate Lossless(provider: seq<string> -> string) {
    forall texts :: provider(texts) == Glued(texts)
  }

  lemma GluedSnoc(a: seq<Summary>, last: Summary)
    ensures Glued(Texts(a + [last])) == Glued(Texts(a)) + last.text
  {
    assert Texts(a + [last]) == Texts(a) + [last.text];
    hide Texts;
    assert (Texts(a) + [last.text])[..|Texts(a)|] == Texts(a);
  }

  lemma {:induction false} GluedConcat(a: seq<Summary>, b: seq<Summary>)
    ensures Glued(Texts(a + b)) == Glued(Texts(a)) + Glued(Texts(b))
    decreases |b|
  {
    if b == [] {
      assert a + b == a && Glued(Texts(b)) == "";
    } else {
      hide Glued, Texts;
      var n := |b| - 1;
      GluedConcat(a, b[..n]);
      GluedSnoc(a + b[..n], b[n]);
      GluedSnoc(b[..n], b[n]);
      OneFurther(a, b);
      Associates(Glued(Texts(a)), Glued(Texts(b[..n])), b[n].text);
    }
  }

  lemma OneFurther(a: seq<Summary>, b: seq<Summary>)
    requires b != []
    ensures var n := |b| - 1; a + b == (a + b[..n]) + [b[n]] && b == b[..n] + [b[n]]
  {
  }

  lemma Associates(a: string, b: string, c: string)
    ensures (a + b) + c == a + (b + c)
  {
  }

  /** What a group becomes: the provider's summary of its texts, with all their sources; a group of one stays as it is. */
  function Merged(group: seq<Summary>, provider: seq<string> -> string): Summary
    requires group != []
  {
    if |group| == 1 then group[0] else Summary(provider(Texts(group)), Sources(group))
  }

  /** One level of `_reduce_summaries`: groups of eight in order, a group of one passed on as it is. */
  method ReduceLevel(current: seq<Summary>, provider: seq<string> -> string) returns (next: seq<Summary>, calls: nat)
    requires |current| > 1
    ensures |next| == NextSize(|current|) && calls == LevelCalls(|current|)
    ensures Sources(next) == Sources(current)
    ensures forall g :: 0 <= g < |next| ==>
              next[g] == Merged(Group(current, g), provider)
    ensures Lossless(provider) ==> Glued(Texts(next)) == Glued(Texts(current))
  {
    hide Sources, CallsUpTo, Merged, Glued, Texts, Reducing, NextSize, LevelCalls, Lossless, Group;
    next, calls := [], 0;
    var start := 0;
    NothingReduced(current, provider);
    while start < |current|
      invariant start == FAN_IN * |next| < |current| + FAN_IN
      invariant calls == CallsUpTo(|current|, start)
      invariant Reducing(current, next, if start < |current| then start else |current|, provider)
      decreases |current| - start
    {
      GroupCounts(|current|, |next|);
      var end := if start + FAN_IN <= |current| then start + FAN_IN else |current|;
      var group := current[start..end];
      OneGroupMore(current, next, group, start, end, provider);
      if |group| == 1 {
        next := next + [group[0]];
      } else {
        var reduced := Summary(provider(Texts(group)), Sources(group));
        calls := calls + 1;
        next := next + [reduced];
      }
      start := start + FAN_IN;
    }
    LevelReduced(current, next, provider);
  }

  /** The groups so far are merged one by one, and nothing of the first `done` summaries is lost. */
  ghost predicate Reducing(current: seq<Summary>, next: seq<Summary>, done: nat, provider: seq<string> -> string) {
    && |next| <= NextSize(|current|)
    && (forall g :: 0 <= g < |next| ==> next[g] == Merged(Group(current, g), provider))
    && Flows(current, next, done, provider)
  }

  ghost predicate Flows(current: seq<Summary>, next: seq<Summary>, done: nat, provider: seq<string> -> string) {
    && done <= |current|
    && Sources(next) == Sources(current[..done])
    && (Lossless(provider) ==> Glued(Texts(next)) == Glued(Texts(current[..done])))
  }

  lemma FlowsOn(current: seq<Summary>, next: seq<Summary>, group: seq<Summary>, start: nat, end: nat, provider: seq<string> -> string)
    requires start < end <= |current| && Flows(current, next, start, provider) && group == current[start..end]
    ensures Flows(current, next + [Merged(group, provider)], end, provider)
  {
    hide Sources, Merged, Glued, Texts, Lossless;
    assert current[..end] == current[..start] + group;
    SourcesConcat(current[..start], group);
    GluedConcat(current[..start], group);
    MergedKeeps(next, group, provider);
  }

  lemma NothingReduced(current: seq<Summary>, provider: seq<string> -> string)
    requires |current| > 1
    ensures Reducing(current, [], 0, provider) && CallsUpTo(|current|, 0) == 0
  {
  }

  lemma OneGroupMore(current: seq<Summary>, next: seq<Summary>, group: seq<Summary>, start: nat, end: nat, provider: seq<string> -> string)
    requires start == FAN_IN * |next| < end <= |current| && Reducing(current, next, start, provider)
    requires end == if start + FAN_IN <= |current| then start + FAN_IN else |current|
    requires group == current[start..end] && |next| < NextSize(|current|)
    ensures Reducing(current, next + [if |group| == 1 then group[0] else Summary(provider(Texts(group)), Sources(group))], end, provider)
  {
    hide Flows, Merged, Texts, Sources, NextSize, Group;
    GroupIs(current, |next|, end);
    MergedIs(group, provider);
    FlowsOn(current, next, group, start, end, provider);
  }

  lemma GroupIs(current: seq<Summary>, n: nat, end: nat)
    requires n < NextSize(|current|) && FAN_IN * n < end <= |current|
    requires end == if FAN_IN * n + FAN_IN <= |current| then FAN_IN * n + FAN_IN else |current|
    ensures Group(current, n) == current[FAN_IN * n..end]
  {
  }

  lemma MergedIs(group: seq<Summary>, provider: seq<string> -> string)
    requires group != []
    ensures Merged(group, provider) == if |group| == 1 then group[0] else Summary(provider(Texts(group)), Sources(group))
  {
    hide Texts, Sources;
  }

  lemma LevelReduced(current: seq<Summary>, next: seq<Summary>, provider: seq<string> -> string)
    requires |current| > 1 && |current| <= FAN_IN * |next| < |current| + FAN_IN && Reducing(current, next, |current|, provider)
    ensures |next| == NextSize(|current|) && CallsUpTo(|current|, FAN_IN * |next|) == LevelCalls(|current|)
    ensures Sources(next) == Sources(current)
    ensures forall g :: 0 <= g < |next| ==> next[g] == Merged(Group(current, g), provider)
    ensures Lossless(provider) ==> Glued(Texts(next)) == Glued(Texts(current))
  {
    hide Sources, Merged, Glued, Texts, Group;
    assert current[..|current|] == current;
  }

  /** The g-th eight, or what is left of them. */
  function Group(current: seq<Summary>, g: nat): (group: seq<Summary>)
    requires g < NextSize(|current|)
    ensures group != []
  {
    current[FAN_IN * g..if FAN_IN * g + FAN_IN <= |current| then FAN_IN * g + FAN_IN else |current|]
  }

  lemma MergedKeeps(next: seq<Summary>, group: seq<Summary>, provider: seq<string> -> string)
    requires group != []
    ensures Sources(next + [Merged(group, provider)]) == Sources(next) + Sources(group)
    ensures Lossless(provider) ==> Glued(Texts(next + [Merged(group, provider)])) == Glued(Texts(next)) + Glued(Texts(group))
  {
    var one := Merged(group, provider);
    SourcesConcat(next, [one]);
    GluedConcat(next, [one]);
    OneSummary(one);
    if |group| == 1 {
      assert group == [group[0]];
    }
  }

  lemma OneSummary(s: Summary)
    ensures Sources([s]) == s.sources && Glued(Texts([s])) == s.text
  {
    assert [s][..0] == [] && Texts([s])[..0] == [];
  }

  /**
   * `_reduce_summaries`, with any provider: the final summary names every source in order, after exactly the
   * estimated calls, and no text is dropped, doubled or moved on the way.
   */
  method ReduceSummaries(summaries: seq<Summary>, provider: seq<string> -> string) returns (final: Summary, calls: nat)
    requires summaries != []
    ensures final.sources == Sources(summaries)
    ensures Lossless(provider) ==> final.text == Glued(Texts(summaries))
    ensures |summaries| == 1 ==> final == summaries[0]
    ensures calls == ReduceCalls(|summaries|)
  {
    hide *;
    var current := summaries;
    calls := 0;
    while |current| > 1
      invariant current != [] && Sources(current) == Sources(summaries)
      invariant Lossless(provider) ==> Glued(Texts(current)) == Glued(Texts(summaries))
      invariant |summaries| == 1 ==> current == summaries
      invariant calls + ReduceCalls(|current|) == ReduceCalls(|summaries|)
      decreases |current|
    {
      NextCalls(|current|);
      var next, levelCalls := ReduceLevel(current, provider);
      calls := calls + levelCalls;
      current := next;
    }
    NextCalls(|current|);
    OneSummary(current[0]);
    assert current == [current[0]];
    final := current[0];
  }

  lemma NextCalls(size: nat)
    ensures size > 1 ==> 1 <= NextSize(size) < size && ReduceCalls(size) == LevelCalls(size) + ReduceCalls(NextSize(size))
    ensures size <= 1 ==> ReduceCalls(size) == 0
  {
  }

  /** Each call merges at most eight summaries into one and at least two, so the calls lie between these bounds. */
  lemma {:induction false} ReduceCallsBounds(size: nat)
    requires size >= 1
    ensures size - 1 <= 7 * ReduceCalls(size)
    ensures ReduceCalls(size) <= size - 1
    decreases size
  {
    if size > 1 {
      ReduceCallsBounds(NextSize(size));
      LevelShrinks(size);
    }
  }

  lemma LevelShrinks(size: nat)
    requires size > 1
    ensures LevelCalls(size) <= size - NextSize(size) <= 7 * LevelCalls(size)
  {
  }
}
