/**
 * Splitting pages into chunks: nothing is lost, the token budget is met, and with a monotone estimator the
 * pieces of an oversized unit are as long as they can be. The token estimator is any function of the text.
 */
module Chunking {
  import opened Prelude
  import opened TextWords
  import opened Chunks

  type Estimator = string -> int

  /** A range of the words of a unit or of a page. */
  datatype Span = Span(start: nat, end: nat)

  /** Ranges that start at 0, leave no gap and end at `end`; they may overlap. */
  ghost predicate Chain(spans: seq<Span>, end: nat) {
    && (if spans == [] then end == 0 else spans[0].start == 0 && spans[|spans| - 1].end == end)
    && (forall i :: 0 <= i < |spans| ==> spans[i].start < spans[i].end <= end)
    && (forall i :: 0 < i < |spans| ==> spans[i].start <= spans[i - 1].end)
  }

  /** The texts consist of exactly these ranges of the words. */
  ghost predicate Spell(texts: seq<string>, words: seq<string>, spans: seq<Span>) {
    && |texts| == |spans|
    && forall i :: 0 <= i < |spans| ==>
         spans[i].start <= spans[i].end <= |words| && Words(texts[i]) == words[spans[i].start..spans[i].end]
  }

  /** The texts are exactly these ranges, with one space between words. */
  ghost predicate Written(texts: seq<string>, words: seq<string>, spans: seq<Span>) {
    && |texts| == |spans|
    && forall i :: 0 <= i < |spans| ==> spans[i].start <= spans[i].end <= |words| && texts[i] == Join(words[spans[i].start..spans[i].end])
  }

  /** Every text is within the budget or a single word. */
  ghost predicate Bounded(texts: seq<string>, estimate: Estimator, maxTokens: int) {
    forall i :: 0 <= i < |texts| ==> estimate(texts[i]) <= maxTokens || |Words(texts[i])| == 1
  }

  /** What a range repeats from the range before it is within the overlap budget, or nothing. */
  ghost predicate OverlapsFit(words: seq<string>, spans: seq<Span>, estimate: Estimator, overlapTokens: int) {
    forall i :: 0 < i < |spans| ==>
      OverlapFits(words, spans[i].start, spans[i - 1].end, estimate, overlapTokens)
  }

  predicate OverlapFits(words: seq<string>, start: nat, end: nat, estimate: Estimator, overlapTokens: int) {
    start == end || (start < end <= |words| && overlapTokens != 0 && estimate(Join(words[start..end])) <= overlapTokens)
  }

  /** A range repeats as much as it may: one word more would not fit, or would be all of the range before. */
  predicate OverlapFull(words: seq<string>, previous: Span, start: nat, estimate: Estimator, overlapTokens: int) {
    if overlapTokens == 0 then start == previous.end else
      start == previous.start + 1
      || (0 < start <= previous.end <= |words| && estimate(Join(words[start - 1..previous.end])) > overlapTokens)
  }

  ghost predicate OverlapsFull(words: seq<string>, spans: seq<Span>, estimate: Estimator, overlapTokens: int) {
    forall i :: 0 < i < |spans| ==> OverlapFull(words, spans[i - 1], spans[i].start, estimate, overlapTokens)
  }

  /** A longer run of the same words never costs less. */
  ghost predicate Monotone(words: seq<string>, estimate: Estimator) {
    forall a, b, c, d :: 0 <= a <= b <= c <= d <= |words| ==> estimate(Join(words[b..c])) <= estimate(Join(words[a..d]))
  }

  /** No range could be longer, and each reaches at least as far as the one before. */
  ghost predicate Maximal(words: seq<string>, spans: seq<Span>, estimate: Estimator, maxTokens: int) {
    && (forall i, e :: 0 <= i < |spans| && spans[i].start <= spans[i].end < e <= |words| ==>
          estimate(Join(words[spans[i].start..e])) > maxTokens)
    && (forall i :: 0 < i < |spans| ==> spans[i - 1].end <= spans[i].end)
  }

  // _split_oversized_unit

  /** The binary search for the end of a piece. */
  method LongestPiece(words: seq<string>, start: nat, maxTokens: int, estimate: Estimator) returns (best: nat)
    requires start < |words|
    ensures start < best <= |words|
    ensures estimate(Join(words[start..best])) <= maxTokens || best == start + 1
    ensures Monotone(words, estimate) ==> forall e :: best < e <= |words| ==> estimate(Join(words[start..e])) > maxTokens
  {
    hide Join;
    var low, high := start + 1, |words|;
    best := low;
    while low <= high
      invariant start < low <= high + 1 && high <= |words| && start < best <= |words|
      invariant best == start + 1 || (best == low - 1 && estimate(Join(words[start..best])) <= maxTokens)
      invariant best + 1 >= low
      invariant Monotone(words, estimate) ==> forall e :: high < e <= |words| ==> estimate(Join(words[start..e])) > maxTokens
      decreases high - low
    {
      var middle := (low + high) / 2;
      if estimate(Join(words[start..middle])) <= maxTokens {
        best := middle;
        low := middle + 1;
      } else {
        ghost var tooMuch := estimate(Join(words[start..middle]));
        if Monotone(words, estimate) {
          forall e | middle <= e <= |words| ensures estimate(Join(words[start..e])) >= tooMuch {
          }
        }
        high := middle - 1;
      }
    }
  }

  /** Where the next piece starts: back from `best` as far as the overlap budget allows, but past `start`. */
  method NextStart(words: seq<string>, start: nat, best: nat, overlapTokens: int, estimate: Estimator) returns (next: nat)
    requires start < best <= |words|
    ensures start < next <= best && OverlapFits(words, next, best, estimate, overlapTokens)
    ensures OverlapFull(words, Span(start, best), next, estimate, overlapTokens)
  {
    next := best;
    if overlapTokens != 0 {
      var overlapStart := best;
      while overlapStart > start
        invariant start <= overlapStart <= best
        invariant forall k :: overlapStart <= k < best ==> estimate(Join(words[k..best])) <= overlapTokens
        decreases overlapStart
      {
        if estimate(Join(words[overlapStart - 1..best])) > overlapTokens {
          assert overlapStart > start + 1 ==> estimate(Join(words[overlapStart - 1..best])) > overlapTokens;
          break;
        }
        overlapStart := overlapStart - 1;
      }
      next := if start + 1 >= overlapStart then start + 1 else overlapStart;
    }
  }

  /** Ranges under construction: the next one will start at `start`, past the last start but not past its end. */
  ghost predicate Open(words: seq<string>, spans: seq<Span>, start: nat) {
    && (if spans == [] then start == 0 else
          spans[0].start == 0 && spans[|spans| - 1].start < start <= spans[|spans| - 1].end)
    && (forall i :: 0 <= i < |spans| ==> spans[i].start < spans[i].end <= |words|)
    && (forall i :: 0 < i < |spans| ==> spans[i].start <= spans[i - 1].end)
  }

  lemma PieceSpells(words: seq<string>, start: nat, best: nat)
    requires AllWords(words) && start < best <= |words|
    ensures Words(Join(words[start..best])) == words[start..best]
    ensures best == start + 1 ==> Join(words[start..best]) == words[start]
  {
    WordsOfJoin(words[start..best]);
  }

  /** With a monotone estimator the next piece reaches at least as far as the last. */
  lemma LaterReachesFurther(words: seq<string>, last: Span, start: nat, best: nat, estimate: Estimator, maxTokens: int)
    requires last.start < start <= last.end <= |words| && start < best <= |words| && Monotone(words, estimate)
    requires estimate(Join(words[last.start..last.end])) <= maxTokens || last.end == last.start + 1
    requires forall e :: best < e <= |words| ==> estimate(Join(words[start..e])) > maxTokens
    ensures last.end <= best
  {
    hide Join;
    assert estimate(Join(words[start..last.end])) <= estimate(Join(words[last.start..last.end]));
  }

  /** What a piece from `start` to `best` has to satisfy on its own. */
  ghost predicate Piece(words: seq<string>, piece: string, start: nat, best: nat, estimate: Estimator, maxTokens: int) {
    && start < best <= |words| && piece == Join(words[start..best])
    && Words(piece) == words[start..best]
    && (estimate(piece) <= maxTokens || best == start + 1)
    && (estimate(Join(words[start..best])) <= maxTokens || best == start + 1)
    && (Monotone(words, estimate) ==> forall e :: best < e <= |words| ==> estimate(Join(words[start..e])) > maxTokens)
  }

  /** The pieces so far, with the next one to start at `start`. */
  ghost predicate SoFar(words: seq<string>, pieces: seq<string>, spans: seq<Span>, start: nat,
                        estimate: Estimator, maxTokens: int, overlapTokens: int) {
    && Open(words, spans, start)
    && |pieces| == |spans|
    && (forall i :: 0 <= i < |spans| ==> Piece(words, pieces[i], spans[i].start, spans[i].end, estimate, maxTokens))
    && OverlapsFit(words, spans, estimate, overlapTokens)
    && (spans != [] ==> OverlapFits(words, start, spans[|spans| - 1].end, estimate, overlapTokens))
    && OverlapsFull(words, spans, estimate, overlapTokens)
    && (spans != [] && start < |words| ==> OverlapFull(words, spans[|spans| - 1], start, estimate, overlapTokens))
    && (Monotone(words, estimate) ==> forall i :: 0 < i < |spans| ==> spans[i - 1].end <= spans[i].end)
  }

  lemma AddPiece(words: seq<string>, pieces: seq<string>, spans: seq<Span>, piece: string, start: nat, best: nat, next: nat,
                 estimate: Estimator, maxTokens: int, overlapTokens: int)
    requires SoFar(words, pieces, spans, start, estimate, maxTokens, overlapTokens)
    requires Piece(words, piece, start, best, estimate, maxTokens)
    requires start < |words| && start < next <= best && OverlapFits(words, next, best, estimate, overlapTokens)
    requires next < |words| ==> OverlapFull(words, Span(start, best), next, estimate, overlapTokens)
    ensures SoFar(words, pieces + [piece], spans + [Span(start, best)], next, estimate, maxTokens, overlapTokens)
  {
    hide Monotone, OverlapFits, OverlapFull, Join, Words;
    if spans != [] && Monotone(words, estimate) {
      LaterReachesFurther(words, spans[|spans| - 1], start, best, estimate, maxTokens);
    }
  }

  lemma AllPieces(words: seq<string>, pieces: seq<string>, spans: seq<Span>,
                  estimate: Estimator, maxTokens: int, overlapTokens: int)
    requires SoFar(words, pieces, spans, |words|, estimate, maxTokens, overlapTokens) && words != []
    ensures Chain(spans, |words|) && Spell(pieces, words, spans) && Written(pieces, words, spans)
    ensures Bounded(pieces, estimate, maxTokens) && OverlapsFit(words, spans, estimate, overlapTokens)
    ensures OverlapsFull(words, spans, estimate, overlapTokens)
    ensures Monotone(words, estimate) ==> Maximal(words, spans, estimate, maxTokens)
    ensures pieces != []
  {
    hide Monotone, OverlapFits, OverlapFull, Join, Words;
    assert spans[|spans| - 1].end == |words|;
    forall i | 0 <= i < |spans|
      ensures Words(pieces[i]) == words[spans[i].start..spans[i].end] && pieces[i] == Join(words[spans[i].start..spans[i].end])
      ensures estimate(pieces[i]) <= maxTokens || |Words(pieces[i])| == 1
    {
      assert Piece(words, pieces[i], spans[i].start, spans[i].end, estimate, maxTokens);
    }
  }

  method SplitOversizedUnit(text: string, maxTokens: int, overlapTokens: int, estimate: Estimator)
    returns (pieces: seq<string>, ghost spans: seq<Span>)
    ensures var words := Words(text);
            && Chain(spans, |words|) && Spell(pieces, words, spans) && Written(pieces, words, spans)
            && Bounded(pieces, estimate, maxTokens) && OverlapsFit(words, spans, estimate, overlapTokens)
            && OverlapsFull(words, spans, estimate, overlapTokens)
            && (Monotone(words, estimate) ==> Maximal(words, spans, estimate, maxTokens))
    ensures Bounded(pieces, estimate, maxTokens)
    ensures pieces == [] ==> Words(text) == []
  {
    hide *;
    var words := Words(text);
    WordsAreWords(text);
    pieces, spans := [], [];
    if words == [] {
      NoWords(estimate, maxTokens, overlapTokens);
      return;
    }
    var start := 0;
    NoPieces(words, estimate, maxTokens, overlapTokens);
    while start < |words|
      invariant start <= |words|
      invariant SoFar(words, pieces, spans, start, estimate, maxTokens, overlapTokens)
      decreases |words| - start
    {
      var best := LongestPiece(words, start, maxTokens, estimate);
      var piece := Join(words[start..best]);
      if estimate(piece) > maxTokens {
        piece := words[start];
        best := start + 1;
      }
      IsPiece(words, piece, start, best, estimate, maxTokens);
      ghost var before, beforeSpans := pieces, spans;
      pieces, spans := pieces + [piece], spans + [Span(start, best)];
      if best >= |words| {
        WholeRest(words, best, estimate, overlapTokens);
        AddPiece(words, before, beforeSpans, piece, start, best, best, estimate, maxTokens, overlapTokens);
        start := best;
        break;
      }
      var next := NextStart(words, start, best, overlapTokens, estimate);
      AddPiece(words, before, beforeSpans, piece, start, best, next, estimate, maxTokens, overlapTokens);
      start := next;
    }
    AllPieces(words, pieces, spans, estimate, maxTokens, overlapTokens);
  }

  lemma IsPiece(words: seq<string>, piece: string, start: nat, best: nat, estimate: Estimator, maxTokens: int)
    requires AllWords(words) && start < best <= |words|
    requires piece == Join(words[start..best]) || (best == start + 1 && piece == words[start])
    requires estimate(piece) <= maxTokens || best == start + 1
    requires Monotone(words, estimate) ==> forall e :: best < e <= |words| ==> estimate(Join(words[start..e])) > maxTokens
    ensures Piece(words, piece, start, best, estimate, maxTokens)
  {
    hide Monotone, Words, Join;
    PieceSpells(words, start, best);
  }

  lemma NoWords(estimate: Estimator, maxTokens: int, overlapTokens: int)
    ensures Chain([], 0) && Spell([], [], []) && Written([], [], []) && Bounded([], estimate, maxTokens) && OverlapsFit([], [], estimate, overlapTokens)
    ensures OverlapsFull([], [], estimate, overlapTokens) && Maximal([], [], estimate, maxTokens)
  {
  }

  lemma NoPieces(words: seq<string>, estimate: Estimator, maxTokens: int, overlapTokens: int)
    ensures SoFar(words, [], [], 0, estimate, maxTokens, overlapTokens)
  {
  }

  lemma WholeRest(words: seq<string>, end: nat, estimate: Estimator, overlapTokens: int)
    ensures OverlapFits(words, end, end, estimate, overlapTokens)
  {
  }
}
