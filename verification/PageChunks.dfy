/** `chunk_document`: units are gathered into chunks page by page, with overlap, under the token budget. */
module PageChunks {
  import opened Prelude
  import opened TextWords
  import opened Chunks
  import opened Chunking

  /** A paragraph and the heading it stands under; units come stripped and are never blank. */
  datatype Unit = Unit(section: Option<string>, text: string)

  datatype Page = Page(number: nat, units: seq<Unit>)

  datatype Pending = Pending(text: string, page: nat, section: Option<string>)

  function UnitWords(units: seq<Unit>): seq<string> {
    if units == [] then [] else UnitWords(units[..|units| - 1]) + Words(units[|units| - 1].text)
  }

  predicate Spoken(units: seq<Unit>) {
    forall i | 0 <= i < |units| :: Words(units[i].text) != []
  }

  function Texts(pending: seq<Pending>): seq<string> {
    seq(|pending|, i requires 0 <= i < |pending| => pending[i].text)
  }

  // _tail_within_budget

  method TailWithinBudget(text: string, budget: int, estimate: Estimator) returns (tail: string, ghost from: nat)
    ensures from <= |Words(text)| && Words(tail) == Words(text)[from..] && tail == Join(Words(text)[from..])
    ensures from == |Words(text)| || (budget > 0 && estimate(Join(Words(text)[from..])) <= budget)
    ensures budget > 0 && from > 0 ==> estimate(Join(Words(text)[from - 1..])) > budget
    ensures tail == "" <==> from == |Words(text)|
    ensures |Words(tail)| <= |Words(text)| && Words(tail) == Words(text)[|Words(text)| - |Words(tail)|..]
    ensures budget <= 0 ==> tail == ""
  {
    hide *;
    var words := Words(text);
    WordsAreWords(text);
    TailSpells(words, |words|);
    if budget <= 0 {
      return "", |words|;
    }
    var start: nat := |words|;
    while start > 0
      invariant start <= |words|
      invariant start == |words| || estimate(Join(words[start..])) <= budget
      decreases start
    {
      if estimate(Join(words[start - 1..])) > budget {
        break;
      }
      start := start - 1;
    }
    TailSpells(words, start);
    return Join(words[start..]), start;
  }

  lemma TailSpells(words: seq<string>, from: nat)
    requires AllWords(words) && from <= |words|
    ensures Words(Join(words[from..])) == words[from..]
    ensures Join(words[from..]) == "" <==> from == |words|
    ensures from == |words| ==> Words("") == words[from..] && Join(words[from..]) == ""
  {
    WordsOfJoin(words[from..]);
  }

  // What each chunk says, to the letter

  /** Units in a row, blank lines between them. */
  function Paragraphs(units: seq<Unit>): string {
    if units == [] then "" else
      (if |units| == 1 then "" else Paragraphs(units[..|units| - 1]) + "\n\n") + units[|units| - 1].text
  }

  /** Going back word by word from the end of the text, this is as far as the overlap budget allows. */
  ghost predicate TailFrom(text: string, from: nat, overlapTokens: int, estimate: Estimator) {
    && from <= |Words(text)|
    && (from < |Words(text)| ==> overlapTokens > 0 && estimate(Join(Words(text)[from..])) <= overlapTokens)
    && (from > 0 && overlapTokens > 0 ==> estimate(Join(Words(text)[from - 1..])) > overlapTokens)
  }

  /**
   * What a gathered chunk repeats in front of its first unit: behind another gathered chunk, the tail of that
   * one, unless the tail is empty or does not fit beside the unit; else nothing. `end` is where the unit begins.
   */
  ghost predicate Repeats(before: Option<string>, tail: string, unit: string, start: nat, end: nat,
                          estimate: Estimator, maxTokens: int, overlapTokens: int)
  {
    match before
    case None => tail == "" && start == end
    case Some(text) =>
      exists from :: TailFrom(text, from, overlapTokens, estimate) && RepeatsFrom(text, from, tail, unit, start, end, estimate, maxTokens)
  }

  ghost predicate RepeatsFrom(text: string, from: nat, tail: string, unit: string, start: nat, end: nat, estimate: Estimator, maxTokens: int) {
    && from <= |Words(text)|
    && var whole := Join(Words(text)[from..]);
    if whole == "" || estimate(whole + "\n\n" + unit) > maxTokens then tail == "" && start == end
    else tail == whole && start + |Words(text)| - from == end
  }

  /** The text that a gathered chunk may repeat from: the chunk before it, if that is not a piece of an oversized unit. */
  ghost function Before(units: seq<Unit>, pending: seq<Pending>, firsts: seq<nat>, i: nat, estimate: Estimator, maxTokens: int): Option<string> {
    if 0 < i <= |pending| && i <= |firsts| && firsts[i - 1] < |units| && !Oversized(units[firsts[i - 1]], estimate, maxTokens)
    then Some(pending[i - 1].text) else None
  }

  /** A gathered chunk of the units from `from` up to `to`: what it repeats, a blank line, and the units. */
  ghost predicate Gathered(units: seq<Unit>, before: Option<string>, text: string, from: nat, to: nat, start: nat,
                           estimate: Estimator, maxTokens: int, overlapTokens: int)
  {
    && from < to <= |units|
    && exists tail :: Repeats(before, tail, units[from].text, start, |UnitWords(units[..from])|, estimate, maxTokens, overlapTokens)
                      && text == (if tail == "" then "" else tail + "\n\n") + Paragraphs(units[from..to])
  }

  /** A piece of oversized unit `u`: its words, as many as fit, from as far back in the piece before as the overlap budget allows. */
  ghost predicate PieceOf(units: seq<Unit>, text: string, span: Span, previous: Option<Span>, u: nat,
                          estimate: Estimator, maxTokens: int, overlapTokens: int)
  {
    && u < |units|
    && var words, part := UnitWords(units[..u + 1]), Words(units[u].text);
    && span.start <= span.end <= |words| && text == Join(words[span.start..span.end])
    && (match previous
        case None => span.start == |UnitWords(units[..u])|
        case Some(last) => OverlapFull(words, last, span.start, estimate, overlapTokens))
    && (Monotone(part, estimate) ==> forall e :: span.end < e <= |words| ==> estimate(Join(words[span.start..e])) > maxTokens)
  }

  /** The unit behind the last one of this chunk. */
  function Behind(firsts: seq<nat>, i: nat, n: nat): nat {
    if i + 1 < |firsts| then firsts[i + 1] else n
  }

  ghost predicate LaidAt(units: seq<Unit>, pending: seq<Pending>, spans: seq<Span>, firsts: seq<nat>, i: nat, n: nat,
                         estimate: Estimator, maxTokens: int, overlapTokens: int)
    requires |pending| == |spans| == |firsts| && i < |pending|
  {
    && firsts[i] < |units|
    && if Oversized(units[firsts[i]], estimate, maxTokens)
       then PieceOf(units, pending[i].text, spans[i], if i > 0 && firsts[i - 1] == firsts[i] then Some(spans[i - 1]) else None, firsts[i],
                    estimate, maxTokens, overlapTokens)
       else Gathered(units, Before(units, pending, firsts, i, estimate, maxTokens), pending[i].text, firsts[i], Behind(firsts, i, n),
                     spans[i].start, estimate, maxTokens, overlapTokens)
  }

  /** The text of every chunk of the first `n` units, to the letter, and where it starts. */
  ghost predicate LaidOut(units: seq<Unit>, pending: seq<Pending>, spans: seq<Span>, firsts: seq<nat>, n: nat,
                          estimate: Estimator, maxTokens: int, overlapTokens: int)
  {
    && |pending| == |spans| == |firsts|
    && forall i :: 0 <= i < |firsts| ==> LaidAt(units, pending, spans, firsts, i, n, estimate, maxTokens, overlapTokens)
  }

  // One page

  /** The chunks of a page so far: they cover its first `end` words. */
  ghost predicate Covers(words: seq<string>, pending: seq<Pending>, spans: seq<Span>, end: nat,
                         estimate: Estimator, maxTokens: int, overlapTokens: int)
  {
    && end <= |words|
    && Chain(spans, end) && Spell(Texts(pending), words, spans)
    && Bounded(Texts(pending), estimate, maxTokens) && OverlapsFit(words, spans, estimate, overlapTokens)
  }

  /** The chunk under construction: it starts in what is covered or right behind it, and ends at `end`. */
  ghost predicate Growing(words: seq<string>, current: string, start: nat, covered: nat, end: nat,
                          estimate: Estimator, maxTokens: int, overlapTokens: int, first: bool)
  {
    && start <= covered < end <= |words|
    && Words(current) == words[start..end]
    && estimate(current) <= maxTokens
    && (first ==> start == 0)
    && (!first ==> OverlapFits(words, start, covered, estimate, overlapTokens))
  }

  // Where chunks end

  predicate Oversized(unit: Unit, estimate: Estimator, maxTokens: int) {
    estimate(unit.text) > maxTokens
  }

  /** These units make up one chunk: they share a section, and an oversized unit stands alone. */
  ghost predicate Together(units: seq<Unit>, from: nat, to: nat, estimate: Estimator, maxTokens: int) {
    && from < to <= |units|
    && (forall u :: from <= u < to ==> units[u].section == units[from].section)
    && (to == from + 1 || forall u :: from <= u < to ==> !Oversized(units[u], estimate, maxTokens))
  }

  /** Why a chunk of the units from `from` ends before unit `to`: another section, an oversized unit, or no room. */
  ghost predicate Parted(units: seq<Unit>, text: string, from: nat, to: nat, estimate: Estimator, maxTokens: int) {
    && from <= to < |units|
    && (|| Oversized(units[from], estimate, maxTokens)
        || Oversized(units[to], estimate, maxTokens)
        || units[to].section != units[from].section
        || estimate(text + "\n\n" + units[to].text) > maxTokens)
  }

  /** Two chunks in a row: two pieces of one oversized unit, or a chunk that had to end and the one behind it. */
  ghost predicate Neighbours(units: seq<Unit>, text: string, span: Span, from: nat, to: nat, estimate: Estimator, maxTokens: int) {
    if from == to then to < |units| && Oversized(units[to], estimate, maxTokens) else
      && Together(units, from, to, estimate, maxTokens) && Parted(units, text, from, to, estimate, maxTokens)
      && span.end == |UnitWords(units[..to])|
  }

  /** The chunks of the first `n` units, each with the unit it begins with: they carry its section and end only where they must. */
  ghost predicate Sectioned(units: seq<Unit>, pending: seq<Pending>, spans: seq<Span>, firsts: seq<nat>, n: nat,
                            estimate: Estimator, maxTokens: int)
  {
    && |firsts| == |pending| == |spans| && n <= |units|
    && (forall i :: 0 <= i < |firsts| ==> firsts[i] < |units| && pending[i].section == units[firsts[i]].section)
    && (forall i :: 0 < i < |firsts| ==>
          Neighbours(units, pending[i - 1].text, spans[i - 1], firsts[i - 1], firsts[i], estimate, maxTokens))
    && (if firsts == [] then n == 0 else
          var last := |firsts| - 1;
          && firsts[0] == 0 && Together(units, firsts[last], n, estimate, maxTokens)
          && spans[last].end == |UnitWords(units[..n])|)
  }

  /** The last chunk so far does not go on into unit `n`. */
  ghost predicate Ended(units: seq<Unit>, pending: seq<Pending>, firsts: seq<nat>, n: nat, estimate: Estimator, maxTokens: int) {
    && |firsts| == |pending|
    && (firsts != [] && n < |units| ==>
          Parted(units, pending[|pending| - 1].text, firsts[|firsts| - 1], n, estimate, maxTokens))
  }

  /** A chunk under construction out of the units from `begun` up to `u`, behind chunks that ended where they must. */
  ghost predicate Filling(units: seq<Unit>, pending: seq<Pending>, spans: seq<Span>, firsts: seq<nat>, begun: nat, section: Option<string>, u: nat,
                          estimate: Estimator, maxTokens: int)
  {
    && Sectioned(units, pending, spans, firsts, begun, estimate, maxTokens)
    && Ended(units, pending, firsts, begun, estimate, maxTokens)
    && Together(units, begun, u, estimate, maxTokens) && !Oversized(units[begun], estimate, maxTokens)
    && section == units[begun].section
  }

  /** No chunk under construction: the chunks so far are made of the first `u` units. */
  ghost predicate Waiting(units: seq<Unit>, pending: seq<Pending>, spans: seq<Span>, firsts: seq<nat>, u: nat, estimate: Estimator, maxTokens: int) {
    && Sectioned(units, pending, spans, firsts, u, estimate, maxTokens)
    && Ended(units, pending, firsts, u, estimate, maxTokens)
  }

  /** Behind the first `u` units, which are the first `end` words, with no chunk under construction. */
  ghost predicate Idle(page: Page, pending: seq<Pending>, spans: seq<Span>, firsts: seq<nat>, u: nat, end: nat,
                       estimate: Estimator, maxTokens: int, overlapTokens: int)
  {
    && u <= |page.units| && end <= |UnitWords(page.units)| && UnitWords(page.units[..u]) == UnitWords(page.units)[..end]
    && Covers(UnitWords(page.units), pending, spans, end, estimate, maxTokens, overlapTokens)
    && Waiting(page.units, pending, spans, firsts, u, estimate, maxTokens)
    && LaidOut(page.units, pending, spans, firsts, u, estimate, maxTokens, overlapTokens)
    && forall i | 0 <= i < |pending| :: pending[i].page == page.number
  }

  /** Behind the first `u` units, with a chunk under construction. */
  ghost predicate Busy(page: Page, pending: seq<Pending>, spans: seq<Span>, firsts: seq<nat>, begun: nat, section: Option<string>, u: nat,
                       current: string, start: nat, covered: nat, end: nat, estimate: Estimator, maxTokens: int, overlapTokens: int)
  {
    && u <= |page.units| && end <= |UnitWords(page.units)| && UnitWords(page.units[..u]) == UnitWords(page.units)[..end]
    && Covers(UnitWords(page.units), pending, spans, covered, estimate, maxTokens, overlapTokens)
    && Growing(UnitWords(page.units), current, start, covered, end, estimate, maxTokens, overlapTokens, pending == [])
    && Filling(page.units, pending, spans, firsts, begun, section, u, estimate, maxTokens)
    && LaidOut(page.units, pending, spans, firsts, begun, estimate, maxTokens, overlapTokens)
    && Gathered(page.units, Before(page.units, pending, firsts, |pending|, estimate, maxTokens), current, begun, u, start,
                estimate, maxTokens, overlapTokens)
    && forall i | 0 <= i < |pending| :: pending[i].page == page.number
  }

  ghost predicate Says(words: seq<string>, text: string, start: nat, end: nat) {
    start < end <= |words| && Words(text) == words[start..end]
  }

  /** What a chunk opens with: its first unit, behind the tail that it repeats. */
  ghost predicate Opening(words: seq<string>, candidate: string, tail: string, unit: string, cut: nat, end: nat, first: bool,
                          estimate: Estimator, maxTokens: int, overlapTokens: int)
  {
    if tail == "" then candidate == unit && cut == end else
      && candidate == tail + "\n\n" + unit && estimate(candidate) <= maxTokens && !first
      && cut < end <= |words| && Words(tail) == words[cut..end] && OverlapFits(words, cut, end, estimate, overlapTokens)
  }

  lemma FirstUnit(units: seq<Unit>, pending: seq<Pending>, spans: seq<Span>, firsts: seq<nat>, u: nat, estimate: Estimator, maxTokens: int)
    requires u < |units| && !Oversized(units[u], estimate, maxTokens) && Waiting(units, pending, spans, firsts, u, estimate, maxTokens)
    ensures Filling(units, pending, spans, firsts, u, units[u].section, u + 1, estimate, maxTokens)
  {
    hide Neighbours, Parted, Oversized, UnitWords;
  }

  lemma NextUnitJoins(units: seq<Unit>, pending: seq<Pending>, spans: seq<Span>, firsts: seq<nat>, begun: nat, section: Option<string>, u: nat,
                      estimate: Estimator, maxTokens: int)
    requires Filling(units, pending, spans, firsts, begun, section, u, estimate, maxTokens)
    requires u < |units| && !Oversized(units[u], estimate, maxTokens) && units[u].section == section
    ensures Filling(units, pending, spans, firsts, begun, section, u + 1, estimate, maxTokens)
  {
    hide Neighbours, Parted, Oversized, UnitWords;
  }

  /** The chunk under construction ends before unit `u`, if there is one. */
  lemma ChunkEnds(units: seq<Unit>, pending: seq<Pending>, spans: seq<Span>, firsts: seq<nat>, begun: nat, section: Option<string>, u: nat,
                  text: string, page: nat, span: Span, estimate: Estimator, maxTokens: int)
    requires Filling(units, pending, spans, firsts, begun, section, u, estimate, maxTokens)
    requires u < |units| ==> Parted(units, text, begun, u, estimate, maxTokens)
    requires span.end == |UnitWords(units[..u])|
    ensures Waiting(units, pending + [Pending(text, page, section)], spans + [span], firsts + [begun], u, estimate, maxTokens)
  {
    hide Parted, Oversized, UnitWords;
  }

  lemma PartedHere(units: seq<Unit>, pending: seq<Pending>, spans: seq<Span>, firsts: seq<nat>, begun: nat, section: Option<string>, u: nat,
                   text: string, estimate: Estimator, maxTokens: int)
    requires Filling(units, pending, spans, firsts, begun, section, u, estimate, maxTokens) && u < |units|
    requires Oversized(units[u], estimate, maxTokens) || units[u].section != section || estimate(text + "\n\n" + units[u].text) > maxTokens
    ensures Parted(units, text, begun, u, estimate, maxTokens)
  {
  }

  lemma PiecesEnd(units: seq<Unit>, pending: seq<Pending>, spans: seq<Span>, firsts: seq<nat>, u: nat, added: seq<Pending>, more: seq<Span>,
                  estimate: Estimator, maxTokens: int)
    requires Waiting(units, pending, spans, firsts, u, estimate, maxTokens)
    requires u < |units| && Oversized(units[u], estimate, maxTokens)
    requires |added| == |more| > 0 && forall i :: 0 <= i < |added| ==> added[i].section == units[u].section
    requires more[|more| - 1].end == |UnitWords(units[..u + 1])|
    ensures Waiting(units, pending + added, spans + more, firsts + seq(|added|, _ => u), u + 1, estimate, maxTokens)
  {
    hide UnitWords, Oversized;
    var all, starts := pending + added, firsts + seq(|added|, _ => u);
    forall i | 0 < i < |starts|
      ensures Neighbours(units, all[i - 1].text, (spans + more)[i - 1], starts[i - 1], starts[i], estimate, maxTokens)
    {
      if i < |firsts| {
        assert Neighbours(units, pending[i - 1].text, spans[i - 1], firsts[i - 1], firsts[i], estimate, maxTokens);
      }
    }
  }

  lemma Size(unit: Unit, estimate: Estimator, maxTokens: int)
    ensures Oversized(unit, estimate, maxTokens) <==> estimate(unit.text) > maxTokens
  {
  }

  lemma LastPiece(units: seq<Unit>, u: nat, end: nat, pieces: seq<string>, spans: seq<Span>)
    requires u < |units| && Spoken(units) && Chain(spans, |Words(units[u].text)|) && Spell(pieces, Words(units[u].text), spans)
    requires end == |UnitWords(units[..u])|
    ensures |pieces| == |spans| == |Shift(spans, end)| > 0
    ensures Shift(spans, end)[|spans| - 1].end == |UnitWords(units[..u + 1])|
  {
    hide Words;
    assert units[..u + 1][..u] == units[..u];
  }

  method ChunkPage(page: Page, maxTokens: int, overlapTokens: int, estimate: Estimator)
    returns (pending: seq<Pending>, ghost spans: seq<Span>, ghost firsts: seq<nat>)
    requires Spoken(page.units)
    ensures Covers(UnitWords(page.units), pending, spans, |UnitWords(page.units)|, estimate, maxTokens, overlapTokens)
    ensures Sectioned(page.units, pending, spans, firsts, |page.units|, estimate, maxTokens)
    ensures LaidOut(page.units, pending, spans, firsts, |page.units|, estimate, maxTokens, overlapTokens)
    ensures forall i | 0 <= i < |pending| :: pending[i].page == page.number
  {
    hide *;
    pending, spans, firsts := [], [], [];
    ghost var begun: nat := 0;
    var current, currentSection := "", None;
    ghost var start: nat, covered: nat, end: nat := 0, 0, 0;
    NothingYet(page, estimate, maxTokens, overlapTokens);
    for u := 0 to |page.units|
      invariant current == "" ==> Idle(page, pending, spans, firsts, u, end, estimate, maxTokens, overlapTokens)
      invariant current == "" ==> Before(page.units, pending, firsts, |pending|, estimate, maxTokens) == None
      invariant current != "" ==>
                  Busy(page, pending, spans, firsts, begun, currentSection, u, current, start, covered, end, estimate, maxTokens, overlapTokens)
    {
      Size(page.units[u], estimate, maxTokens);
      var section, unit := page.units[u].section, page.units[u].text;
      ghost var next := end + |Words(unit)|;
      if estimate(unit) > maxTokens {
        if current != "" {
          Closes(page, pending, spans, firsts, begun, currentSection, u, current, start, covered, end, estimate, maxTokens, overlapTokens);
          pending, spans, firsts := pending + [Pending(current, page.number, currentSection)], spans + [Span(start, end)], firsts + [begun];
          current := "";
        }
        var pieces, pieceSpans := SplitOversizedUnit(unit, maxTokens, overlapTokens, estimate);
        var added := seq(|pieces|, i requires 0 <= i < |pieces| => Pending(pieces[i], page.number, section));
        Splits(page, pending, spans, firsts, u, pieces, pieceSpans, added, end, estimate, maxTokens, overlapTokens);
        pending, spans, firsts := pending + added, spans + Shift(pieceSpans, end), firsts + seq(|added|, _ => u);
        currentSection := section;
      } else {
        var candidate := if current != "" then current + "\n\n" + unit else unit;
        if current != "" && (section != currentSection || estimate(candidate) > maxTokens) {
          Closes(page, pending, spans, firsts, begun, currentSection, u, current, start, covered, end, estimate, maxTokens, overlapTokens);
          BusyWords(page, pending, spans, firsts, begun, currentSection, u, current, start, covered, end, estimate, maxTokens, overlapTokens);
          pending, spans, firsts := pending + [Pending(current, page.number, currentSection)], spans + [Span(start, end)], firsts + [begun];
          var overlap, from := TailWithinBudget(current, overlapTokens, estimate);
          candidate := if overlap != "" then overlap + "\n\n" + unit else unit;
          ghost var tail, cut := overlap, if overlap != "" then start + from else end;
          if estimate(candidate) > maxTokens {
            candidate := unit;
            tail, cut := "", end;
          }
          Reopens(UnitWords(page.units), current, start, end, from, overlap, unit, candidate, tail, cut, estimate, maxTokens, overlapTokens);
          Begins(page, pending, spans, firsts, u, candidate, tail, cut, end, estimate, maxTokens, overlapTokens);
          start, covered, begun := cut, end, u;
        } else if current != "" {
          Grows(page, pending, spans, firsts, begun, currentSection, u, current, start, covered, end, estimate, maxTokens, overlapTokens);
        } else {
          BeginsAlone(page, pending, spans, firsts, u, end, estimate, maxTokens, overlapTokens);
          start, covered, begun := end, end, u;
        }
        current := candidate;
        currentSection := section;
      }
      end := next;
    }
    if current != "" {
      Closes(page, pending, spans, firsts, begun, currentSection, |page.units|, current, start, covered, end, estimate, maxTokens, overlapTokens);
      pending, spans, firsts := pending + [Pending(current, page.number, currentSection)], spans + [Span(start, end)], firsts + [begun];
    }
    AllUnits(page, pending, spans, firsts, end, estimate, maxTokens, overlapTokens);
  }

  function Shift(spans: seq<Span>, offset: nat): seq<Span> {
    seq(|spans|, i requires 0 <= i < |spans| => Span(spans[i].start + offset, spans[i].end + offset))
  }

  lemma NothingYet(page: Page, estimate: Estimator, maxTokens: int, overlapTokens: int)
    ensures Idle(page, [], [], [], 0, 0, estimate, maxTokens, overlapTokens)
    ensures Before(page.units, [], [], 0, estimate, maxTokens) == None
  {
  }

  lemma AllUnits(page: Page, pending: seq<Pending>, spans: seq<Span>, firsts: seq<nat>, end: nat,
                 estimate: Estimator, maxTokens: int, overlapTokens: int)
    requires Idle(page, pending, spans, firsts, |page.units|, end, estimate, maxTokens, overlapTokens)
    ensures Covers(UnitWords(page.units), pending, spans, |UnitWords(page.units)|, estimate, maxTokens, overlapTokens)
    ensures Sectioned(page.units, pending, spans, firsts, |page.units|, estimate, maxTokens)
    ensures LaidOut(page.units, pending, spans, firsts, |page.units|, estimate, maxTokens, overlapTokens)
    ensures forall i | 0 <= i < |pending| :: pending[i].page == page.number
  {
    hide Covers, UnitWords, Sectioned, Ended, LaidOut;
    assert page.units[..|page.units|] == page.units;
  }

  lemma BusyWords(page: Page, pending: seq<Pending>, spans: seq<Span>, firsts: seq<nat>, begun: nat, section: Option<string>, u: nat,
                  current: string, start: nat, covered: nat, end: nat, estimate: Estimator, maxTokens: int, overlapTokens: int)
    requires Busy(page, pending, spans, firsts, begun, section, u, current, start, covered, end, estimate, maxTokens, overlapTokens)
    ensures Says(UnitWords(page.units), current, start, end)
  {
    hide Covers, Filling, UnitWords, Words, OverlapFits, LaidOut, Gathered;
  }

  /** What is under construction becomes the next chunk, because unit `u` cannot join it or there is none. */
  lemma Closes(page: Page, pending: seq<Pending>, spans: seq<Span>, firsts: seq<nat>, begun: nat, section: Option<string>, u: nat,
               current: string, start: nat, covered: nat, end: nat, estimate: Estimator, maxTokens: int, overlapTokens: int)
    requires Busy(page, pending, spans, firsts, begun, section, u, current, start, covered, end, estimate, maxTokens, overlapTokens)
    requires u < |page.units| ==>
               || Oversized(page.units[u], estimate, maxTokens) || page.units[u].section != section
               || estimate(current + "\n\n" + page.units[u].text) > maxTokens
    ensures Idle(page, pending + [Pending(current, page.number, section)], spans + [Span(start, end)], firsts + [begun], u, end,
                 estimate, maxTokens, overlapTokens)
    ensures Before(page.units, pending + [Pending(current, page.number, section)], firsts + [begun], |pending| + 1, estimate, maxTokens)
            == Some(current)
  {
    NotAPiece(page.units, pending, spans, firsts, begun, section, u, estimate, maxTokens);
    hide Filling, Oversized, Covers, Growing, Waiting, Parted, UnitWords, LaidOut, Gathered;
    OneMoreGathered(page.units, pending, spans, firsts, begun, u, Pending(current, page.number, section), Span(start, end),
                    estimate, maxTokens, overlapTokens);
    if u < |page.units| {
      PartedHere(page.units, pending, spans, firsts, begun, section, u, current, estimate, maxTokens);
    }
    ChunkEnds(page.units, pending, spans, firsts, begun, section, u, current, page.number, Span(start, end), estimate, maxTokens);
    Finish(UnitWords(page.units), pending, spans, current, section, page.number, start, covered, end, estimate, maxTokens, overlapTokens);
  }

  lemma NotAPiece(units: seq<Unit>, pending: seq<Pending>, spans: seq<Span>, firsts: seq<nat>, begun: nat, section: Option<string>, u: nat,
                  estimate: Estimator, maxTokens: int)
    requires Filling(units, pending, spans, firsts, begun, section, u, estimate, maxTokens)
    ensures begun < |units| && !Oversized(units[begun], estimate, maxTokens) && |firsts| == |pending| == |spans|
  {
    hide Neighbours, Ended, UnitWords;
  }

  /** Chunks behind it leave a chunk as it was laid out, if the next one begins where it ended. */
  lemma StaysLaid(units: seq<Unit>, pending: seq<Pending>, spans: seq<Span>, firsts: seq<nat>, n: nat,
                  pending': seq<Pending>, spans': seq<Span>, firsts': seq<nat>, n': nat, i: nat,
                  estimate: Estimator, maxTokens: int, overlapTokens: int)
    requires LaidOut(units, pending, spans, firsts, n, estimate, maxTokens, overlapTokens) && i < |firsts| < |firsts'|
    requires |pending'| == |spans'| == |firsts'| && pending <= pending' && spans <= spans' && firsts <= firsts' && firsts'[|firsts|] == n
    ensures LaidAt(units, pending', spans', firsts', i, n', estimate, maxTokens, overlapTokens)
  {
    hide Gathered, PieceOf, Oversized;
    assert LaidAt(units, pending, spans, firsts, i, n, estimate, maxTokens, overlapTokens);
    assert Before(units, pending', firsts', i, estimate, maxTokens) == Before(units, pending, firsts, i, estimate, maxTokens);
    assert Behind(firsts', i, n') == Behind(firsts, i, n);
  }

  lemma OneMoreGathered(units: seq<Unit>, pending: seq<Pending>, spans: seq<Span>, firsts: seq<nat>, begun: nat, u: nat, next: Pending, span: Span,
                        estimate: Estimator, maxTokens: int, overlapTokens: int)
    requires LaidOut(units, pending, spans, firsts, begun, estimate, maxTokens, overlapTokens)
    requires begun < |units| && !Oversized(units[begun], estimate, maxTokens)
    requires Gathered(units, Before(units, pending, firsts, |pending|, estimate, maxTokens), next.text, begun, u, span.start,
                      estimate, maxTokens, overlapTokens)
    ensures LaidOut(units, pending + [next], spans + [span], firsts + [begun], u, estimate, maxTokens, overlapTokens)
    ensures Before(units, pending + [next], firsts + [begun], |pending| + 1, estimate, maxTokens) == Some(next.text)
  {
    hide Gathered, PieceOf, Oversized;
    var all, ranges, starts := pending + [next], spans + [span], firsts + [begun];
    forall i | 0 <= i < |starts|
      ensures LaidAt(units, all, ranges, starts, i, u, estimate, maxTokens, overlapTokens)
    {
      if i < |firsts| {
        StaysLaid(units, pending, spans, firsts, begun, all, ranges, starts, u, i, estimate, maxTokens, overlapTokens);
      }
      assert Before(units, all, starts, i, estimate, maxTokens) == Before(units, pending, firsts, i, estimate, maxTokens);
    }
  }

  /** The pieces of an oversized unit become the next chunks. */
  lemma Splits(page: Page, pending: seq<Pending>, spans: seq<Span>, firsts: seq<nat>, u: nat, pieces: seq<string>, pieceSpans: seq<Span>,
               added: seq<Pending>, end: nat, estimate: Estimator, maxTokens: int, overlapTokens: int)
    requires Idle(page, pending, spans, firsts, u, end, estimate, maxTokens, overlapTokens)
    requires Spoken(page.units) && u < |page.units| && Oversized(page.units[u], estimate, maxTokens)
    requires Chain(pieceSpans, |Words(page.units[u].text)|) && Spell(pieces, Words(page.units[u].text), pieceSpans)
    requires Bounded(pieces, estimate, maxTokens) && OverlapsFit(Words(page.units[u].text), pieceSpans, estimate, overlapTokens)
    requires Written(pieces, Words(page.units[u].text), pieceSpans)
    requires OverlapsFull(Words(page.units[u].text), pieceSpans, estimate, overlapTokens)
    requires Monotone(Words(page.units[u].text), estimate) ==> Maximal(Words(page.units[u].text), pieceSpans, estimate, maxTokens)
    requires |added| == |pieces| && forall i :: 0 <= i < |pieces| ==> added[i] == Pending(pieces[i], page.number, page.units[u].section)
    ensures Idle(page, pending + added, spans + Shift(pieceSpans, end), firsts + seq(|added|, _ => u), u + 1, end + |Words(page.units[u].text)|,
                 estimate, maxTokens, overlapTokens)
    ensures Before(page.units, pending + added, firsts + seq(|added|, _ => u), |pending + added|, estimate, maxTokens) == None
  {
    hide Oversized, Waiting, Covers, UnitWords, Words, Chain, Spell, Bounded, OverlapsFit, Spoken, Shift, LaidOut, Written, OverlapsFull, Maximal, Monotone;
    LastEarlier(page.units, pending, spans, firsts, u, estimate, maxTokens);
    NextUnit(page.units, u, end);
    AddPieces(UnitWords(page.units), pending, spans, page.units[u].text, pieces, pieceSpans, added, page.number, page.units[u].section, end,
              estimate, maxTokens, overlapTokens);
    LastPiece(page.units, u, end, pieces, pieceSpans);
    assert |pieceSpans| == |pieces| > 0;
    PiecesLaidOut(page.units, pending, spans, firsts, u, pieces, pieceSpans, added, end, estimate, maxTokens, overlapTokens);
    PiecesEnd(page.units, pending, spans, firsts, u, added, Shift(pieceSpans, end), estimate, maxTokens);
  }

  lemma LastEarlier(units: seq<Unit>, pending: seq<Pending>, spans: seq<Span>, firsts: seq<nat>, u: nat, estimate: Estimator, maxTokens: int)
    requires Waiting(units, pending, spans, firsts, u, estimate, maxTokens)
    ensures |firsts| == |pending| == |spans| && (firsts != [] ==> firsts[|firsts| - 1] < u)
  {
    hide Neighbours, Ended, UnitWords, Oversized;
  }

  /** The pieces of unit `u` stand in the page as they stood in the unit. */
  lemma PiecesInPlace(units: seq<Unit>, u: nat, pieces: seq<string>, spans: seq<Span>, end: nat, j: nat,
                      estimate: Estimator, maxTokens: int, overlapTokens: int)
    requires u < |units| && end == |UnitWords(units[..u])| && j < |pieces|
    requires UnitWords(units[..u + 1]) == UnitWords(units[..u]) + Words(units[u].text)
    requires Chain(spans, |Words(units[u].text)|) && Written(pieces, Words(units[u].text), spans)
    requires OverlapsFull(Words(units[u].text), spans, estimate, overlapTokens)
    requires Monotone(Words(units[u].text), estimate) ==> Maximal(Words(units[u].text), spans, estimate, maxTokens)
    ensures PieceOf(units, pieces[j], Shift(spans, end)[j], if j > 0 then Some(Shift(spans, end)[j - 1]) else None, u,
                    estimate, maxTokens, overlapTokens)
  {
    hide Words, UnitWords, Join, Monotone;
    var part, words, span := Words(units[u].text), UnitWords(units[..u + 1]), spans[j];
    Slice(words, part, end, span.start, span.end);
    if j > 0 {
      var last := spans[j - 1];
      assert OverlapFull(part, last, span.start, estimate, overlapTokens);
      if 0 < span.start <= last.end {
        Slice(words, part, end, span.start - 1, last.end);
      }
    }
    if Monotone(part, estimate) {
      var start := span.start + end;
      forall e | span.end + end < e <= |words| ensures estimate(Join(words[start..e])) > maxTokens {
        Slice(words, part, end, span.start, e - end);
      }
    }
  }

  lemma Slice(words: seq<string>, part: seq<string>, end: nat, a: nat, b: nat)
    requires a <= b <= |part| && end + |part| == |words| && words[end..] == part
    ensures part[a..b] == words[a + end..b + end]
  {
  }

  lemma PiecesLaidOut(units: seq<Unit>, pending: seq<Pending>, spans: seq<Span>, firsts: seq<nat>, u: nat, pieces: seq<string>,
                      pieceSpans: seq<Span>, added: seq<Pending>, end: nat, estimate: Estimator, maxTokens: int, overlapTokens: int)
    requires LaidOut(units, pending, spans, firsts, u, estimate, maxTokens, overlapTokens)
    requires firsts != [] ==> firsts[|firsts| - 1] < u
    requires u < |units| && Oversized(units[u], estimate, maxTokens) && Spoken(units) && end == |UnitWords(units[..u])|
    requires Chain(pieceSpans, |Words(units[u].text)|) && Written(pieces, Words(units[u].text), pieceSpans)
    requires OverlapsFull(Words(units[u].text), pieceSpans, estimate, overlapTokens)
    requires Monotone(Words(units[u].text), estimate) ==> Maximal(Words(units[u].text), pieceSpans, estimate, maxTokens)
    requires |added| == |pieces| == |pieceSpans| > 0 && forall j :: 0 <= j < |added| ==> added[j].text == pieces[j]
    ensures LaidOut(units, pending + added, spans + Shift(pieceSpans, end), firsts + seq(|added|, _ => u), u + 1,
                    estimate, maxTokens, overlapTokens)
    ensures Before(units, pending + added, firsts + seq(|added|, _ => u), |pending + added|, estimate, maxTokens) == None
  {
    OneUnitMore(units, u);
    hide Gathered, PieceOf, Chain, Written, OverlapsFull, Monotone, Maximal, Words, UnitWords, Oversized, Spoken, LaidOut, LaidAt, Before;
    var all, ranges, starts := pending + added, spans + Shift(pieceSpans, end), firsts + seq(|added|, _ => u);
    var n := u + 1;
    forall i | 0 <= i < |starts| ensures LaidAt(units, all, ranges, starts, i, n, estimate, maxTokens, overlapTokens) {
      if i < |firsts| {
        StaysLaid(units, pending, spans, firsts, u, all, ranges, starts, n, i, estimate, maxTokens, overlapTokens);
      } else {
        var j := i - |firsts|;
        PiecesInPlace(units, u, pieces, pieceSpans, end, j, estimate, maxTokens, overlapTokens);
        assert all[i].text == pieces[j] && ranges[i] == Shift(pieceSpans, end)[j] && starts[i] == u;
        assert j > 0 ==> ranges[i - 1] == Shift(pieceSpans, end)[j - 1];
        PieceLaid(units, all, ranges, starts, i, u, n, estimate, maxTokens, overlapTokens);
      }
    }
    ItIsLaidOut(units, all, ranges, starts, u, n, estimate, maxTokens, overlapTokens);
  }

  lemma PieceLaid(units: seq<Unit>, all: seq<Pending>, ranges: seq<Span>, starts: seq<nat>, i: nat, u: nat, n: nat,
                  estimate: Estimator, maxTokens: int, overlapTokens: int)
    requires |all| == |ranges| == |starts| && i < |starts| && starts[i] == u < |units| && Oversized(units[u], estimate, maxTokens)
    requires PieceOf(units, all[i].text, ranges[i], if i > 0 && starts[i - 1] == u then Some(ranges[i - 1]) else None, u,
                     estimate, maxTokens, overlapTokens)
    ensures LaidAt(units, all, ranges, starts, i, n, estimate, maxTokens, overlapTokens)
  {
    hide PieceOf, Gathered;
  }

  lemma ItIsLaidOut(units: seq<Unit>, all: seq<Pending>, ranges: seq<Span>, starts: seq<nat>,
                    u: nat, n: nat, estimate: Estimator, maxTokens: int, overlapTokens: int)
    requires |all| == |ranges| == |starts| > 0 && starts[|starts| - 1] == u < |units| && Oversized(units[u], estimate, maxTokens)
    requires forall i :: 0 <= i < |starts| ==> LaidAt(units, all, ranges, starts, i, n, estimate, maxTokens, overlapTokens)
    ensures LaidOut(units, all, ranges, starts, n, estimate, maxTokens, overlapTokens)
    ensures Before(units, all, starts, |all|, estimate, maxTokens) == None
  {
    hide LaidAt, Oversized;
  }

  /** Unit `u` begins the next chunk, behind the overlap where that leaves room. */
  lemma Begins(page: Page, pending: seq<Pending>, spans: seq<Span>, firsts: seq<nat>, u: nat, candidate: string, tail: string,
               cut: nat, end: nat, estimate: Estimator, maxTokens: int, overlapTokens: int)
    requires Idle(page, pending, spans, firsts, u, end, estimate, maxTokens, overlapTokens)
    requires Spoken(page.units) && u < |page.units| && !Oversized(page.units[u], estimate, maxTokens)
    requires Opening(UnitWords(page.units), candidate, tail, page.units[u].text, cut, end, pending == [], estimate, maxTokens, overlapTokens)
    requires Repeats(Before(page.units, pending, firsts, |pending|, estimate, maxTokens), tail, page.units[u].text, cut, end,
                     estimate, maxTokens, overlapTokens)
    ensures candidate != ""
    ensures Busy(page, pending, spans, firsts, u, page.units[u].section, u + 1, candidate, cut, end, end + |Words(page.units[u].text)|,
                 estimate, maxTokens, overlapTokens)
  {
    hide *;
    IdleParts(page, pending, spans, firsts, u, end, estimate, maxTokens, overlapTokens);
    Size(page.units[u], estimate, maxTokens);
    NextUnit(page.units, u, end);
    FirstUnit(page.units, pending, spans, firsts, u, estimate, maxTokens);
    GatheredOne(page.units, Before(page.units, pending, firsts, |pending|, estimate, maxTokens), candidate, tail, u, cut,
                estimate, maxTokens, overlapTokens, UnitWords(page.units), end, pending == []);
    Begin(UnitWords(page.units), candidate, tail, page.units[u].text, cut, end, end + |Words(page.units[u].text)|,
          pending, spans, estimate, maxTokens, overlapTokens);
    IsBusy(page, pending, spans, firsts, u, page.units[u].section, u + 1, candidate, cut, end, end + |Words(page.units[u].text)|,
           estimate, maxTokens, overlapTokens);
  }

  lemma IdleParts(page: Page, pending: seq<Pending>, spans: seq<Span>, firsts: seq<nat>, u: nat, end: nat,
                  estimate: Estimator, maxTokens: int, overlapTokens: int)
    requires Idle(page, pending, spans, firsts, u, end, estimate, maxTokens, overlapTokens)
    ensures u <= |page.units| && end <= |UnitWords(page.units)| && UnitWords(page.units[..u]) == UnitWords(page.units)[..end]
    ensures Covers(UnitWords(page.units), pending, spans, end, estimate, maxTokens, overlapTokens)
    ensures Waiting(page.units, pending, spans, firsts, u, estimate, maxTokens)
    ensures LaidOut(page.units, pending, spans, firsts, u, estimate, maxTokens, overlapTokens)
    ensures forall i | 0 <= i < |pending| :: pending[i].page == page.number
  {
    hide Covers, Waiting, UnitWords, LaidOut;
  }

  lemma IsBusy(page: Page, pending: seq<Pending>, spans: seq<Span>, firsts: seq<nat>, begun: nat, section: Option<string>, u: nat,
               current: string, start: nat, covered: nat, end: nat, estimate: Estimator, maxTokens: int, overlapTokens: int)
    requires u <= |page.units| && end <= |UnitWords(page.units)| && UnitWords(page.units[..u]) == UnitWords(page.units)[..end]
    requires Covers(UnitWords(page.units), pending, spans, covered, estimate, maxTokens, overlapTokens)
    requires Growing(UnitWords(page.units), current, start, covered, end, estimate, maxTokens, overlapTokens, pending == [])
    requires Filling(page.units, pending, spans, firsts, begun, section, u, estimate, maxTokens)
    requires LaidOut(page.units, pending, spans, firsts, begun, estimate, maxTokens, overlapTokens)
    requires Gathered(page.units, Before(page.units, pending, firsts, |pending|, estimate, maxTokens), current, begun, u, start,
                      estimate, maxTokens, overlapTokens)
    requires forall i | 0 <= i < |pending| :: pending[i].page == page.number
    ensures Busy(page, pending, spans, firsts, begun, section, u, current, start, covered, end, estimate, maxTokens, overlapTokens)
  {
    hide Covers, Growing, Filling, UnitWords, LaidOut, Gathered, Before;
  }

  lemma GatheredOne(units: seq<Unit>, before: Option<string>, candidate: string, tail: string, u: nat, cut: nat,
                    estimate: Estimator, maxTokens: int, overlapTokens: int, words: seq<string>, end: nat, first: bool)
    requires u < |units| && end == |UnitWords(units[..u])|
    requires Opening(words, candidate, tail, units[u].text, cut, end, first, estimate, maxTokens, overlapTokens)
    requires Repeats(before, tail, units[u].text, cut, end, estimate, maxTokens, overlapTokens)
    ensures Gathered(units, before, candidate, u, u + 1, cut, estimate, maxTokens, overlapTokens)
  {
    hide Repeats, UnitWords, OverlapFits, Words;
    assert units[u..u + 1] == [units[u]];
    assert Paragraphs([units[u]]) == units[u].text;
  }

  lemma GatheredMore(units: seq<Unit>, before: Option<string>, text: string, from: nat, u: nat, start: nat,
                     estimate: Estimator, maxTokens: int, overlapTokens: int)
    requires u < |units| && Gathered(units, before, text, from, u, start, estimate, maxTokens, overlapTokens)
    ensures Gathered(units, before, text + "\n\n" + units[u].text, from, u + 1, start, estimate, maxTokens, overlapTokens)
  {
    hide Repeats, UnitWords;
    var tail :| Repeats(before, tail, units[from].text, start, |UnitWords(units[..from])|, estimate, maxTokens, overlapTokens)
                && text == (if tail == "" then "" else tail + "\n\n") + Paragraphs(units[from..u]);
    assert units[from..u + 1][..u - from] == units[from..u];
    assert Paragraphs(units[from..u + 1]) == Paragraphs(units[from..u]) + "\n\n" + units[u].text;
    hide Paragraphs;
    var front := if tail == "" then "" else tail + "\n\n";
    assert front + Paragraphs(units[from..u]) + "\n\n" + units[u].text == front + (Paragraphs(units[from..u]) + "\n\n" + units[u].text);
  }

  /** Unit `u` joins the chunk under construction. */
  lemma Grows(page: Page, pending: seq<Pending>, spans: seq<Span>, firsts: seq<nat>, begun: nat, section: Option<string>, u: nat,
              current: string, start: nat, covered: nat, end: nat, estimate: Estimator, maxTokens: int, overlapTokens: int)
    requires Busy(page, pending, spans, firsts, begun, section, u, current, start, covered, end, estimate, maxTokens, overlapTokens)
    requires Spoken(page.units) && u < |page.units| && !Oversized(page.units[u], estimate, maxTokens) && page.units[u].section == section
    requires estimate(current + "\n\n" + page.units[u].text) <= maxTokens
    ensures Busy(page, pending, spans, firsts, begun, section, u + 1, current + "\n\n" + page.units[u].text, start, covered,
                 end + |Words(page.units[u].text)|, estimate, maxTokens, overlapTokens)
    ensures current + "\n\n" + page.units[u].text != ""
  {
    hide Oversized, Waiting, Filling, Covers, Growing, UnitWords, Words, Spoken, LaidOut, Gathered, Before;
    NextUnit(page.units, u, end);
    GatheredMore(page.units, Before(page.units, pending, firsts, |pending|, estimate, maxTokens), current, begun, u, start,
                 estimate, maxTokens, overlapTokens);
    Grow(UnitWords(page.units), current, page.units[u].text, start, covered, end, end + |Words(page.units[u].text)|,
         estimate, maxTokens, overlapTokens, pending == []);
    NextUnitJoins(page.units, pending, spans, firsts, begun, section, u, estimate, maxTokens);
  }

  lemma {:induction false} UnitsPrefix(units: seq<Unit>, u: nat)
    requires u <= |units|
    ensures UnitWords(units[..u]) <= UnitWords(units)
    decreases |units| - u
  {
    if u == |units| {
      assert units[..u] == units;
    } else {
      UnitsPrefix(units, u + 1);
      assert units[..u + 1][..u] == units[..u];
    }
  }

  lemma NextUnit(units: seq<Unit>, u: nat, end: nat)
    requires u < |units| && Spoken(units)
    requires end <= |UnitWords(units)| && UnitWords(units[..u]) == UnitWords(units)[..end]
    ensures var next := end + |Words(units[u].text)|;
            && end < next <= |UnitWords(units)| && units[u].text != ""
            && UnitWords(units[..u + 1]) == UnitWords(units)[..next]
            && Words(units[u].text) == UnitWords(units)[end..next]
  {
    UnitsPrefix(units, u + 1);
    OneUnitMore(units, u);
    hide UnitWords, Words;
    LongerPrefix(UnitWords(units), end, Words(units[u].text));
  }

  lemma OneUnitMore(units: seq<Unit>, u: nat)
    requires u < |units| && Spoken(units)
    ensures UnitWords(units[..u + 1]) == UnitWords(units[..u]) + Words(units[u].text)
    ensures Words(units[u].text) != [] && units[u].text != ""
  {
    assert units[..u + 1][..u] == units[..u];
  }

  lemma LongerPrefix(whole: seq<string>, end: nat, part: seq<string>)
    requires end <= |whole| && whole[..end] + part <= whole
    ensures whole[..end] + part == whole[..end + |part|] && part == whole[end..end + |part|]
  {
    assert whole[..end + |part|] == whole[..end] + part;
    assert whole[end..end + |part|] == whole[..end + |part|][end..];
  }

  /** The chunk under construction becomes the next chunk of the page. */
  lemma Finish(words: seq<string>, pending: seq<Pending>, spans: seq<Span>, current: string, section: Option<string>, page: nat,
               start: nat, covered: nat, end: nat, estimate: Estimator, maxTokens: int, overlapTokens: int)
    requires Covers(words, pending, spans, covered, estimate, maxTokens, overlapTokens)
    requires Growing(words, current, start, covered, end, estimate, maxTokens, overlapTokens, pending == [])
    ensures Covers(words, pending + [Pending(current, page, section)], spans + [Span(start, end)], end,
                   estimate, maxTokens, overlapTokens)
  {
    hide OverlapFits, Words, Join, Chain, Spell;
    var after := pending + [Pending(current, page, section)];
    assert Texts(after) == Texts(pending) + [current];
    assert Texts(pending) == [] <==> pending == [];
    ChainSnoc(words, Texts(pending), spans, current, start, covered, end);
  }

  /** One range more, beginning inside what is covered. */
  lemma ChainSnoc(words: seq<string>, texts: seq<string>, spans: seq<Span>, text: string, start: nat, covered: nat, end: nat)
    requires Chain(spans, covered) && Spell(texts, words, spans)
    requires start <= covered < end <= |words| && Words(text) == words[start..end] && (texts == [] ==> start == 0)
    ensures Chain(spans + [Span(start, end)], end) && Spell(texts + [text], words, spans + [Span(start, end)])
    ensures |texts| == |spans| && (spans != [] ==> spans[|spans| - 1].end == covered)
  {
    hide Words;
  }

  lemma AddPieces(words: seq<string>, pending: seq<Pending>, spans: seq<Span>, unit: string,
                  pieces: seq<string>, pieceSpans: seq<Span>, added: seq<Pending>, page: nat, section: Option<string>,
                  end: nat, estimate: Estimator, maxTokens: int, overlapTokens: int)
    requires Covers(words, pending, spans, end, estimate, maxTokens, overlapTokens)
    requires Words(unit) != [] && end + |Words(unit)| <= |words| && Words(unit) == words[end..end + |Words(unit)|]
    requires Chain(pieceSpans, |Words(unit)|) && Spell(pieces, Words(unit), pieceSpans)
    requires Bounded(pieces, estimate, maxTokens) && OverlapsFit(Words(unit), pieceSpans, estimate, overlapTokens)
    requires |added| == |pieces| && forall i :: 0 <= i < |pieces| ==> added[i] == Pending(pieces[i], page, section)
    ensures Covers(words, pending + added, spans + Shift(pieceSpans, end), end + |Words(unit)|, estimate, maxTokens, overlapTokens)
    ensures forall i | 0 <= i < |added| :: added[i].page == page
  {
    hide Words, Join, OverlapFits, OverlapsFit, Spell;
    assert Texts(pending + added) == Texts(pending) + pieces;
    assert pieceSpans != [] && end + |Words(unit)| <= |words|;
    hide Chain, Shift;
    ShiftedChain(spans, end, pieceSpans, |Words(unit)|);
    ShiftedSpell(words, Texts(pending), spans, Words(unit), pieces, pieceSpans, end);
    ShiftedOverlaps(words, spans, Words(unit), pieceSpans, end, estimate, overlapTokens);
  }

  lemma ShiftedChain(spans: seq<Span>, end: nat, more: seq<Span>, length: nat)
    requires Chain(spans, end) && Chain(more, length) && length > 0
    ensures Chain(spans + Shift(more, end), end + length)
  {
  }

  lemma ShiftedSpell(words: seq<string>, texts: seq<string>, spans: seq<Span>, part: seq<string>, more: seq<string>,
                     moreSpans: seq<Span>, end: nat)
    requires Spell(texts, words, spans) && Spell(more, part, moreSpans)
    requires end + |part| <= |words| && part == words[end..end + |part|]
    ensures Spell(texts + more, words, spans + Shift(moreSpans, end))
  {
    hide Words;
    var all, allTexts := spans + Shift(moreSpans, end), texts + more;
    forall i | 0 <= i < |all|
      ensures all[i].start <= all[i].end <= |words| && Words(allTexts[i]) == words[all[i].start..all[i].end]
    {
      if i >= |spans| {
        var m := moreSpans[i - |spans|];
        SliceOfPart(words, part, end, m.start, m.end);
      }
    }
  }

  lemma SliceOfPart(words: seq<string>, part: seq<string>, offset: nat, a: nat, b: nat)
    requires a <= b <= |part| && offset + |part| <= |words| && part == words[offset..offset + |part|]
    ensures part[a..b] == words[a + offset..b + offset]
  {
    forall i | 0 <= i < b - a ensures part[a..b][i] == words[a + offset..b + offset][i] {
      assert part[a + i] == words[offset + (a + i)];
    }
  }

  lemma ShiftedOverlaps(words: seq<string>, spans: seq<Span>, part: seq<string>, more: seq<Span>, end: nat,
                        estimate: Estimator, overlapTokens: int)
    requires Chain(spans, end) && Chain(more, |part|) && more != []
    requires OverlapsFit(words, spans, estimate, overlapTokens) && OverlapsFit(part, more, estimate, overlapTokens)
    requires end + |part| <= |words| && part == words[end..end + |part|]
    ensures OverlapsFit(words, spans + Shift(more, end), estimate, overlapTokens)
  {
    hide Join;
    var all := spans + Shift(more, end);
    forall i | 0 < i < |all| ensures OverlapFits(words, all[i].start, all[i - 1].end, estimate, overlapTokens) {
      if i > |spans| {
        var k := i - |spans|;
        var m, p := more[k], more[k - 1];
        assert m.start <= p.end <= |part|;
        assert OverlapFits(part, m.start, p.end, estimate, overlapTokens);
        SliceOfPart(words, part, end, m.start, p.end);
      }
    }
  }

  /** The tail kept for the next chunk is the end of the covered words, as much as the overlap budget and the unit leave room for. */
  lemma Reopens(words: seq<string>, current: string, start: nat, end: nat, from: nat, overlap: string, unit: string, candidate: string,
                tail: string, cut: nat, estimate: Estimator, maxTokens: int, overlapTokens: int)
    requires Says(words, current, start, end) && from <= |Words(current)|
    requires Words(overlap) == Words(current)[from..] && overlap == Join(Words(current)[from..])
    requires from == |Words(current)| || (overlapTokens > 0 && estimate(Join(Words(current)[from..])) <= overlapTokens)
    requires overlapTokens > 0 && from > 0 ==> estimate(Join(Words(current)[from - 1..])) > overlapTokens
    requires overlap == "" <==> from == |Words(current)|
    requires if overlap != "" && estimate(overlap + "\n\n" + unit) <= maxTokens
             then tail == overlap && candidate == overlap + "\n\n" + unit && cut == start + from
             else tail == "" && candidate == unit && cut == end
    ensures Opening(words, candidate, tail, unit, cut, end, false, estimate, maxTokens, overlapTokens)
    ensures Repeats(Some(current), tail, unit, cut, end, estimate, maxTokens, overlapTokens)
  {
    hide Words, Join;
    assert words[start..end][from..] == words[start + from..end];
    assert TailFrom(current, from, overlapTokens, estimate);
    assert RepeatsFrom(current, from, tail, unit, cut, end, estimate, maxTokens);
  }

  lemma BeginsAlone(page: Page, pending: seq<Pending>, spans: seq<Span>, firsts: seq<nat>, u: nat, end: nat,
                    estimate: Estimator, maxTokens: int, overlapTokens: int)
    requires Idle(page, pending, spans, firsts, u, end, estimate, maxTokens, overlapTokens)
    requires Spoken(page.units) && u < |page.units| && !Oversized(page.units[u], estimate, maxTokens)
    requires Before(page.units, pending, firsts, |pending|, estimate, maxTokens) == None
    ensures page.units[u].text != ""
    ensures Busy(page, pending, spans, firsts, u, page.units[u].section, u + 1, page.units[u].text, end, end, end + |Words(page.units[u].text)|,
                 estimate, maxTokens, overlapTokens)
  {
    hide Idle, Busy, Spoken, Oversized, UnitWords, Words, Before;
    Begins(page, pending, spans, firsts, u, page.units[u].text, "", end, end, estimate, maxTokens, overlapTokens);
  }

  lemma Begin(words: seq<string>, candidate: string, overlap: string, unit: string, cut: nat, end: nat, next: nat,
              pending: seq<Pending>, spans: seq<Span>, estimate: Estimator, maxTokens: int, overlapTokens: int)
    requires end < next <= |words| && Words(unit) == words[end..next] && estimate(unit) <= maxTokens && unit != ""
    requires Covers(words, pending, spans, end, estimate, maxTokens, overlapTokens)
    requires Opening(words, candidate, overlap, unit, cut, end, pending == [], estimate, maxTokens, overlapTokens)
    ensures candidate != "" && Growing(words, candidate, cut, end, next, estimate, maxTokens, overlapTokens, pending == [])
  {
    hide Words, Join;
    WordsAcrossParagraph(overlap, unit);
    assert words[cut..end] + words[end..next] == words[cut..next];
    assert |Texts(pending)| == |spans|;
  }

  lemma Grow(words: seq<string>, current: string, unit: string, start: nat, covered: nat, end: nat, next: nat,
             estimate: Estimator, maxTokens: int, overlapTokens: int, first: bool)
    requires Growing(words, current, start, covered, end, estimate, maxTokens, overlapTokens, first)
    requires end < next <= |words| && Words(unit) == words[end..next] && estimate(current + "\n\n" + unit) <= maxTokens
    ensures current + "\n\n" + unit != ""
    ensures Growing(words, current + "\n\n" + unit, start, covered, next, estimate, maxTokens, overlapTokens, first)
  {
    hide Words, Join;
    WordsAcrossParagraph(current, unit);
    assert words[start..end] + words[end..next] == words[start..next];
  }
}
