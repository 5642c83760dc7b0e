/** What makes a candidate card acceptable: it quotes its source, answers from the quote, and repeats no accepted card. */
module Grounding {
  import opened Prelude
  import opened Chunks

  /** Text comparison is up to this normalisation; it can be any function. */
  type Normalize = string -> string

  datatype Candidate = Candidate(front: string, back: string, options: seq<string>, source: ChunkId, quote: string)

  datatype Card = Card(front: string, back: string, options: seq<string>, snippet: string, page: nat, section: Option<string>)

  datatype Rejection =
    | UnknownSource | ChunkQuota | QuoteNotContiguous | AnswerNotInQuote | UnclearQuestion | OptionMatchesQuestion | NearDuplicate

  datatype Verdict = Valid(card: Card) | Invalid(reason: Rejection)

  predicate Within(part: string, whole: string) {
    part <= whole || (whole != "" && Within(part, whole[1..]))
  }

  lemma {:induction false} WithinMeans(part: string, whole: string)
    ensures Within(part, whole) <==> exists i :: 0 <= i <= |whole| && part <= whole[i..]
    decreases |whole|
  {
    if part <= whole {
      assert whole[0..] == whole;
    } else if whole != [] {
      WithinMeans(part, whole[1..]);
      assert whole[0..] == whole;
      if i :| 0 < i <= |whole| && part <= whole[i..] {
        assert whole[1..][i - 1..] == whole[i..];
      }
      if j :| 0 <= j <= |whole[1..]| && part <= whole[1..][j..] {
        var i := j + 1;
        assert whole[1..][j..] == whole[i..];
      }
    }
  }

  function Find(chunks: seq<Chunk>, id: ChunkId): Option<Chunk> {
    if chunks == [] then None
    else if chunks[|chunks| - 1].id == id then Some(chunks[|chunks| - 1])
    else Find(chunks[..|chunks| - 1], id)
  }

  /** `inspect_grounded_candidate` */
  function Inspect(normalize: Normalize, candidate: Candidate, chunks: seq<Chunk>): Verdict {
    var chunk := Find(chunks, candidate.source);
    if chunk.None? then Invalid(UnknownSource) else
      var quote, source, answer := normalize(candidate.quote), normalize(chunk.value.text), normalize(candidate.back);
      if quote == "" || !Within(quote, source) then Invalid(QuoteNotContiguous)
      else if answer == "" || !Within(answer, quote) then Invalid(AnswerNotInQuote)
      else
        var question := normalize(candidate.front);
        if |question| < 5 || question == answer then Invalid(UnclearQuestion)
        else if exists o | o in candidate.options :: normalize(o) == question then Invalid(OptionMatchesQuestion)
        else Valid(Card(candidate.front, candidate.back, candidate.options, candidate.quote, chunk.value.page, chunk.value.section))
  }

  /** The card's snippet stands in a chunk of its page, and its answer stands in the snippet. */
  ghost predicate Grounded(normalize: Normalize, card: Card, chunks: seq<Chunk>) {
    && (exists chunk :: chunk in chunks && QuotedFrom(normalize, card, chunk))
    && normalize(card.back) != "" && Within(normalize(card.back), normalize(card.snippet))
    && normalize(card.front) != normalize(card.back)
    && (forall o :: o in card.options ==> normalize(o) != normalize(card.front))
  }

  predicate QuotedFrom(normalize: Normalize, card: Card, chunk: Chunk) {
    && normalize(card.snippet) != "" && Within(normalize(card.snippet), normalize(chunk.text))
    && card.page == chunk.page && card.section == chunk.section
  }

  lemma {:induction false} FoundIsThere(chunks: seq<Chunk>, id: ChunkId)
    ensures Find(chunks, id).Some? ==> Find(chunks, id).value in chunks && Find(chunks, id).value.id == id
    decreases |chunks|
  {
    if chunks != [] && chunks[|chunks| - 1].id != id {
      FoundIsThere(chunks[..|chunks| - 1], id);
    }
  }

  // What a candidate has to meet, condition by condition

  predicate Quoted(normalize: Normalize, candidate: Candidate, chunk: Chunk) {
    normalize(candidate.quote) != "" && Within(normalize(candidate.quote), normalize(chunk.text))
  }

  predicate AnsweredInQuote(normalize: Normalize, candidate: Candidate) {
    normalize(candidate.back) != "" && Within(normalize(candidate.back), normalize(candidate.quote))
  }

  predicate ClearQuestion(normalize: Normalize, candidate: Candidate) {
    |normalize(candidate.front)| >= 5 && normalize(candidate.front) != normalize(candidate.back)
  }

  predicate OptionsDiffer(normalize: Normalize, candidate: Candidate) {
    forall o | o in candidate.options :: normalize(o) != normalize(candidate.front)
  }

  /** The card says what the candidate says, verbatim, and names the place of the chunk that the candidate names. */
  predicate MadeFrom(card: Card, candidate: Candidate, chunk: Chunk) {
    && (card.front, card.back, card.options, card.snippet) == (candidate.front, candidate.back, candidate.options, candidate.quote)
    && (card.page, card.section) == (chunk.page, chunk.section) && chunk.id == candidate.source
  }

  lemma {:induction false} TheOneFound(chunks: seq<Chunk>, chunk: Chunk)
    requires DistinctIds(chunks) && chunk in chunks
    ensures Find(chunks, chunk.id) == Some(chunk)
    decreases |chunks|
  {
    var k := |chunks| - 1;
    if chunks[k] != chunk {
      assert chunk in chunks[..k] && chunks[k].id != chunk.id;
      TheOneFound(chunks[..k], chunk);
    }
  }

  /** A candidate is valid exactly when it meets all conditions, and then every part of it is kept; else the first it breaks is named. */
  lemma InspectionDecides(normalize: Normalize, candidate: Candidate, chunks: seq<Chunk>, chunk: Chunk)
    requires DistinctIds(chunks) && chunk in chunks && chunk.id == candidate.source
    ensures var verdict := Inspect(normalize, candidate, chunks);
            if !Quoted(normalize, candidate, chunk) then verdict == Invalid(QuoteNotContiguous)
            else if !AnsweredInQuote(normalize, candidate) then verdict == Invalid(AnswerNotInQuote)
            else if !ClearQuestion(normalize, candidate) then verdict == Invalid(UnclearQuestion)
            else if !OptionsDiffer(normalize, candidate) then verdict == Invalid(OptionMatchesQuestion)
            else verdict.Valid? && MadeFrom(verdict.card, candidate, chunk)
  {
    hide Within, Find;
    TheOneFound(chunks, chunk);
  }

  /** A card that passes inspection is grounded in one of the chunks it could come from. */
  lemma ValidIsGrounded(normalize: Normalize, candidate: Candidate, chunks: seq<Chunk>)
    ensures Inspect(normalize, candidate, chunks).Valid? ==>
              && Grounded(normalize, Inspect(normalize, candidate, chunks).card, chunks)
              && exists chunk :: chunk in chunks && MadeFrom(Inspect(normalize, candidate, chunks).card, candidate, chunk)
  {
    hide Within, Find;
    FoundIsThere(chunks, candidate.source);
    if Inspect(normalize, candidate, chunks).Valid? {
      assert MadeFrom(Inspect(normalize, candidate, chunks).card, candidate, Find(chunks, candidate.source).value);
      assert QuotedFrom(normalize, Inspect(normalize, candidate, chunks).card, Find(chunks, candidate.source).value);
    }
  }

  lemma GroundedInMore(normalize: Normalize, card: Card, chunks: seq<Chunk>, more: seq<Chunk>)
    requires Grounded(normalize, card, chunks) && forall c :: c in chunks ==> c in more
    ensures Grounded(normalize, card, more)
  {
    hide Within, QuotedFrom;
  }

  type Similarity = (Card, Card) -> real

  /** No two cards are as similar as the threshold. */
  ghost predicate AllDistinct(cards: seq<Card>, similarity: Similarity, threshold: real) {
    forall i, j :: 0 <= i < j < |cards| ==> similarity(cards[i], cards[j]) < threshold
  }

  predicate Novel(accepted: seq<Card>, card: Card, similarity: Similarity, threshold: real) {
    forall i | 0 <= i < |accepted| :: similarity(accepted[i], card) < threshold
  }

  /** `append_if_distinct` */
  method AppendIfDistinct(accepted: seq<Card>, card: Card, similarity: Similarity, threshold: real) returns (cards: seq<Card>, added: bool)
    requires AllDistinct(accepted, similarity, threshold)
    ensures added <==> Novel(accepted, card, similarity, threshold)
    ensures cards == if added then accepted + [card] else accepted
    ensures AllDistinct(cards, similarity, threshold)
  {
    for i := 0 to |accepted|
      invariant forall k :: 0 <= k < i ==> similarity(accepted[k], card) < threshold
    {
      if similarity(accepted[i], card) >= threshold {
        return accepted, false;
      }
    }
    return accepted + [card], true;
  }
}
