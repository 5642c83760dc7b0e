/** The chunks of a whole document, and what can be read back from them. */
module DocumentChunks {
  import opened Prelude
  import opened TextWords
  import opened Chunks
  import opened Chunking
  import opened PageChunks

  function Numbered(pending: seq<Pending>, estimate: Estimator): seq<Chunk>
    requires forall i | 0 <= i < |pending| :: estimate(pending[i].text) >= 0
  {
    seq(|pending|, i requires 0 <= i < |pending| =>
      Chunk(ChunkId(i + 1, pending[i].page), pending[i].text, pending[i].page, pending[i].section, estimate(pending[i].text)))
  }

  /** Page by page: the texts of one page cover its words under the budgets, keep to its sections, are laid out to the letter, and carry its number. */
  ghost predicate CoversPages(pages: seq<Page>, parts: seq<seq<Pending>>, spans: seq<seq<Span>>,
                              estimate: Estimator, maxTokens: int, overlapTokens: int)
  {
    && |parts| == |spans| == |pages|
    && forall p :: 0 <= p < |pages| ==> CoversPage(pages[p], parts[p], spans[p], estimate, maxTokens, overlapTokens)
  }

  ghost predicate CoversPage(page: Page, part: seq<Pending>, spans: seq<Span>, estimate: Estimator, maxTokens: int, overlapTokens: int) {
    && Covers(UnitWords(page.units), part, spans, |UnitWords(page.units)|, estimate, maxTokens, overlapTokens)
    && (exists firsts ::
          && Sectioned(page.units, part, spans, firsts, |page.units|, estimate, maxTokens)
          && LaidOut(page.units, part, spans, firsts, |page.units|, estimate, maxTokens, overlapTokens))
    && forall i :: 0 <= i < |part| ==> part[i].page == page.number
  }

  /** `chunk_document`; the token ceiling must be positive and the overlap non-negative and below it. */
  method ChunkDocument(pages: seq<Page>, maxTokens: int, overlapTokens: int, estimate: Estimator)
    returns (chunks: Option<seq<Chunk>>, ghost parts: seq<seq<Pending>>, ghost spans: seq<seq<Span>>)
    requires forall p | 0 <= p < |pages| :: Spoken(pages[p].units)
    requires forall text :: estimate(text) >= 0
    ensures chunks.None? <==> maxTokens < 1 || overlapTokens < 0 || overlapTokens >= maxTokens
    ensures chunks.Some? ==>
              && CoversPages(pages, parts, spans, estimate, maxTokens, overlapTokens)
              && chunks.value == Numbered(Flatten(parts), estimate)
              && DistinctIds(chunks.value)
  {
    hide *;
    parts, spans := [], [];
    if maxTokens < 1 || overlapTokens < 0 || overlapTokens >= maxTokens {
      return None, [], [];
    }
    var pending: seq<Pending> := [];
    NoPages(pages, estimate, maxTokens, overlapTokens);
    for p := 0 to |pages|
      invariant CoversPages(pages[..p], parts, spans, estimate, maxTokens, overlapTokens)
      invariant Flatten(parts) == pending
    {
      var part, partSpans, firsts := ChunkPage(pages[p], maxTokens, overlapTokens, estimate);
      FlattenSnoc(parts, part);
      OneMorePage(pages, p, parts, spans, part, partSpans, firsts, estimate, maxTokens, overlapTokens);
      pending := pending + part;
      parts, spans := parts + [part], spans + [partSpans];
    }
    assert pages[..|pages|] == pages;
    AllSpeak(pages, parts, spans, estimate, maxTokens, overlapTokens);
    var kept := Keep(pending, estimate);
    NumbersDiffer(pending, estimate);
    chunks := Some(kept);
  }

  /** Numbering before filtering: a blank text would leave a gap in the numbers. */
  method Keep(pending: seq<Pending>, estimate: Estimator) returns (kept: seq<Chunk>)
    requires forall text :: estimate(text) >= 0
    requires forall i | 0 <= i < |pending| :: Words(pending[i].text) != []
    ensures kept == Numbered(pending, estimate)
  {
    hide Words;
    kept := [];
    for i := 0 to |pending|
      invariant kept == Numbered(pending[..i], estimate)
    {
      var item := pending[i];
      if Words(item.text) != [] {
        kept := kept + [Chunk(ChunkId(i + 1, item.page), item.text, item.page, item.section, estimate(item.text))];
      }
    }
    assert pending[..|pending|] == pending;
  }

  lemma NumbersDiffer(pending: seq<Pending>, estimate: Estimator)
    requires forall text :: estimate(text) >= 0
    ensures DistinctIds(Numbered(pending, estimate))
  {
  }

  lemma NoPages(pages: seq<Page>, estimate: Estimator, maxTokens: int, overlapTokens: int)
    ensures CoversPages(pages[..0], [], [], estimate, maxTokens, overlapTokens) && Flatten<Pending>([]) == []
  {
  }

  lemma OneMorePage(pages: seq<Page>, p: nat, parts: seq<seq<Pending>>, spans: seq<seq<Span>>, part: seq<Pending>, partSpans: seq<Span>,
                    firsts: seq<nat>, estimate: Estimator, maxTokens: int, overlapTokens: int)
    requires p < |pages| && CoversPages(pages[..p], parts, spans, estimate, maxTokens, overlapTokens)
    requires Covers(UnitWords(pages[p].units), part, partSpans, |UnitWords(pages[p].units)|, estimate, maxTokens, overlapTokens)
    requires Sectioned(pages[p].units, part, partSpans, firsts, |pages[p].units|, estimate, maxTokens)
    requires LaidOut(pages[p].units, part, partSpans, firsts, |pages[p].units|, estimate, maxTokens, overlapTokens)
    requires forall i | 0 <= i < |part| :: part[i].page == pages[p].number
    ensures CoversPages(pages[..p + 1], parts + [part], spans + [partSpans], estimate, maxTokens, overlapTokens)
  {
    hide Covers, UnitWords, Sectioned, LaidOut;
  }

  /** No chunk is blank, so dropping blank chunks drops nothing. */
  lemma {:induction false} AllSpeak(pages: seq<Page>, parts: seq<seq<Pending>>, spans: seq<seq<Span>>,
                                    estimate: Estimator, maxTokens: int, overlapTokens: int)
    requires CoversPages(pages, parts, spans, estimate, maxTokens, overlapTokens)
    ensures forall i | 0 <= i < |Flatten(parts)| :: Words(Flatten(parts)[i].text) != []
    decreases |parts|
  {
    hide Words;
    if parts != [] {
      var n := |parts| - 1;
      hide Covers;
      AllSpeak(pages[..n], parts[..n], spans[..n], estimate, maxTokens, overlapTokens);
      PageSpeaks(pages[n], parts[n], spans[n], estimate, maxTokens, overlapTokens);
    }
  }

  lemma PageSpeaks(page: Page, part: seq<Pending>, spans: seq<Span>, estimate: Estimator, maxTokens: int, overlapTokens: int)
    requires CoversPage(page, part, spans, estimate, maxTokens, overlapTokens)
    ensures forall i | 0 <= i < |part| :: Words(part[i].text) != []
  {
    hide Words, UnitWords;
    forall i | 0 <= i < |part| ensures Words(part[i].text) != [] {
      assert Texts(part)[i] == part[i].text && spans[i].start < spans[i].end;
    }
  }

  // Reading back

  /** How far the ranges reach. */
  function Reach(spans: seq<Span>): nat {
    if spans == [] then 0 else
      var before, end := Reach(spans[..|spans| - 1]), spans[|spans| - 1].end;
      if before >= end then before else end
  }

  /** The words of all texts in order, without what each repeats of the texts before it. */
  ghost function Rebuilt(texts: seq<string>, spans: seq<Span>): seq<string>
    requires |texts| == |spans|
  {
    if spans == [] then [] else
      var n := |spans| - 1;
      Rebuilt(texts[..n], spans[..n]) + Added(texts[n], spans[n], Reach(spans[..n]))
  }

  /** What one more text adds. */
  ghost function Added(text: string, span: Span, reach: nat): seq<string> {
    var repeated := reach - span.start;
    if 0 <= repeated <= |Words(text)| then Words(text)[repeated..] else []
  }

  lemma OneMoreText(texts: seq<string>, spans: seq<Span>, k: nat)
    requires 0 < k <= |spans| == |texts|
    ensures Reach(spans[..k]) == Max(Reach(spans[..k - 1]), spans[k - 1].end)
    ensures Rebuilt(texts[..k], spans[..k])
            == Rebuilt(texts[..k - 1], spans[..k - 1]) + Added(texts[k - 1], spans[k - 1], Reach(spans[..k - 1]))
  {
    assert spans[..k][..k - 1] == spans[..k - 1] && texts[..k][..k - 1] == texts[..k - 1];
  }

  lemma AddedIsNew(words: seq<string>, text: string, span: Span, reach: nat)
    requires span.start < span.end <= |words| && span.start <= reach <= |words| && Words(text) == words[span.start..span.end]
    ensures words[..reach] + Added(text, span, reach) == words[..Max(reach, span.end)]
  {
    hide Words;
    if span.end >= reach {
      assert words[span.start..span.end][reach - span.start..] == words[reach..span.end];
    }
  }

  lemma {:induction false} RebuiltPrefix(texts: seq<string>, words: seq<string>, spans: seq<Span>, k: nat)
    requires Chain(spans, |words|) && Spell(texts, words, spans) && k <= |spans|
    ensures Reach(spans[..k]) <= |words| && (k > 0 ==> spans[k - 1].end <= Reach(spans[..k]))
    ensures Rebuilt(texts[..k], spans[..k]) == words[..Reach(spans[..k])]
    decreases k
  {
    if k == 0 {
      assert spans[..0] == [];
    } else {
      hide Words, Rebuilt, Reach, Added;
      RebuiltPrefix(texts, words, spans, k - 1);
      OneMoreText(texts, spans, k);
      AddedIsNew(words, texts[k - 1], spans[k - 1], Reach(spans[..k - 1]));
    }
  }

  lemma RebuiltWhole(texts: seq<string>, words: seq<string>, spans: seq<Span>)
    requires Chain(spans, |words|) && Spell(texts, words, spans)
    ensures Rebuilt(texts, spans) == words
  {
    hide Words, Rebuilt, Reach;
    RebuiltPrefix(texts, words, spans, |spans|);
    assert spans[..|spans|] == spans && texts[..|texts|] == texts;
    assert Reach(spans) == |words|;
  }

  /** Dropping the recorded overlaps and reading the chunks of a page in order gives back exactly the words of its units. */
  lemma NothingIsLost(page: Page, part: seq<Pending>, spans: seq<Span>, estimate: Estimator, maxTokens: int, overlapTokens: int)
    requires CoversPage(page, part, spans, estimate, maxTokens, overlapTokens)
    ensures |Texts(part)| == |spans| && Rebuilt(Texts(part), spans) == UnitWords(page.units)
  {
    hide Words, UnitWords, Bounded, OverlapsFit, Chain, Rebuilt;
    assert |Texts(part)| == |spans|;
    RebuiltWhole(Texts(part), UnitWords(page.units), spans);
  }

  /** The units that begin in a chunk all stand under its heading: no chunk crosses a section, whatever it repeats as overlap. */
  lemma ChunkKeepsSection(page: Page, part: seq<Pending>, spans: seq<Span>, firsts: seq<nat>, i: nat, u: nat, estimate: Estimator, maxTokens: int)
    requires Sectioned(page.units, part, spans, firsts, |page.units|, estimate, maxTokens) && i < |part|
    requires firsts[i] <= u < if i + 1 < |part| then firsts[i + 1] else |page.units|
    ensures u < |page.units| && page.units[u].section == part[i].section
  {
    hide Parted, Oversized, UnitWords;
    if i + 1 < |part| {
      assert Neighbours(page.units, part[i].text, spans[i], firsts[i], firsts[i + 1], estimate, maxTokens);
    }
  }
}
