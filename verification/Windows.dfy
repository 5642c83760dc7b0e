/** Exact evidence windows: where an excerpt starts and ends, and which excerpts are shown. */
module Windows {
  import opened Prelude
  import opened TextWords
  import opened Ordering
  import AskTables

  const WINDOW_TARGET := 420
  const EXCERPT_LIMIT := 480

  // Searching, as Python's str.find and str.rfind within bounds

  predicate MatchAt(content: string, part: string, i: int) {
    0 <= i <= |content| - |part| && content[i..i + |part|] == part
  }

  function RFind(content: string, part: string, lo: nat, hi: int): (i: int)
    ensures i == -1 || (lo <= i <= hi - |part| && MatchAt(content, part, i))
    ensures forall k | lo <= k <= hi - |part| :: MatchAt(content, part, k) ==> k <= i
    decreases hi
  {
    if hi - |part| < lo then -1
    else if MatchAt(content, part, hi - |part|) then hi - |part|
    else RFind(content, part, lo, hi - 1)
  }

  function Find(content: string, part: string, lo: nat, hi: int): (i: int)
    ensures i == -1 || (lo <= i <= hi - |part| && MatchAt(content, part, i))
    ensures forall k | lo <= k <= hi - |part| :: MatchAt(content, part, k) ==> i != -1 && i <= k
    decreases hi - lo
  {
    if hi - |part| < lo then -1
    else if MatchAt(content, part, lo) then lo
    else Find(content, part, lo + 1, hi)
  }

  // _trim_bounds

  /** The trimmed window is the old one without the white space at its ends; nothing is left of a blank one. */
  ghost predicate Trimmed(content: string, start: nat, end: nat, s: nat, e: nat) {
    && start <= s <= e <= end <= |content|
    && (forall i :: start <= i < s ==> Space(content[i]))
    && (forall i :: e <= i < end ==> Space(content[i]))
    && (if s < e then !Space(content[s]) && !Space(content[e - 1]) else s == end)
  }

  method TrimBounds(content: string, start: nat, end: nat) returns (s: nat, e: nat)
    requires start <= end <= |content|
    ensures Trimmed(content, start, end, s, e)
  {
    s, e := start, end;
    while s < e && Space(content[s])
      invariant start <= s <= e
      invariant forall i :: start <= i < s ==> Space(content[i])
    {
      s := s + 1;
    }
    while e > s && Space(content[e - 1])
      invariant s <= e <= end
      invariant forall i :: e <= i < end ==> Space(content[i])
      invariant s < end ==> !Space(content[s])
    {
      e := e - 1;
    }
  }

  // _window_bounds

  datatype Bounds = Bounds(start: nat, end: nat)

  /** Inside the text, within the limit, with no white space at either end. */
  predicate Window(content: string, start: nat, end: nat) {
    && start < end <= |content| && end - start <= EXCERPT_LIMIT
    && !Space(content[start]) && !Space(content[end - 1])
  }

  /** Eighty characters before the anchor, or after the last line or sentence that ends a little earlier. */
  function LeadingEdge(content: string, anchor: nat): (start: nat)
    requires anchor < |content|
    ensures start <= anchor < start + 160
  {
    var start: nat := if anchor >= 80 then anchor - 80 else 0;
    var from: nat := if start >= 80 then start - 80 else 0;
    var previous := if start > 0 then Max(RFind(content, "\n", from, start), RFind(content, ". ", from, start)) else -1;
    if previous < 0 then start
    else if content[previous] == '\n' then previous + 1
    else previous + 2
  }

  /** The first line end, or else the last word end, near the target length. */
  function TrailingEdge(content: string, start: nat): (end: nat)
    requires start < |content|
    ensures start < end <= |content| && end - start <= EXCERPT_LIMIT
    ensures end == |content| || end >= start + 340
  {
    if |content| <= start + WINDOW_TARGET then |content| else
      var target := start + WINDOW_TARGET;
      var limit := if |content| <= start + EXCERPT_LIMIT then |content| else start + EXCERPT_LIMIT;
      var trailing := Find(content, "\n", target - 80, limit);
      var split := RFind(content, " ", target - 60, target);
      if trailing >= 0 then trailing else if split > start then split else target
  }

  /** A line end, or a full stop and a space, that stands wholly before `to`. */
  predicate BreakAt(content: string, i: nat, to: nat)
    requires to <= |content|
  {
    i < to && (content[i] == '\n' || (i + 2 <= to && content[i] == '.' && content[i + 1] == ' '))
  }

  lemma BreaksAreMatches(content: string, to: nat)
    requires to <= |content|
    ensures forall i | 0 <= i < to ::
              BreakAt(content, i, to) <==> MatchAt(content, "\n", i) || (i <= to - 2 && MatchAt(content, ". ", i))
    ensures forall i | 0 <= i < to :: MatchAt(content, "\n", i) <==> content[i] == '\n'
  {
    forall i | 0 <= i < to
      ensures BreakAt(content, i, to) <==> MatchAt(content, "\n", i) || (i <= to - 2 && MatchAt(content, ". ", i))
      ensures MatchAt(content, "\n", i) <==> content[i] == '\n'
    {
      assert content[i..i + 1] == [content[i]];
      if i + 2 <= to {
        assert content[i..i + 2] == [content[i], content[i + 1]];
      }
    }
  }

  /** The last break in the eighty characters before the plain start decides; a window starts right behind it. */
  lemma LeadingCut(content: string, anchor: nat)
    requires anchor < |content|
    ensures var start, plain := LeadingEdge(content, anchor), if anchor >= 80 then anchor - 80 else 0;
            && plain <= |content|
            && if forall i | 0 <= i < plain :: i < plain - 80 || !BreakAt(content, i, plain) then start == plain else
                 exists i | 0 <= i < plain ::
                   && plain - 80 <= i && BreakAt(content, i, plain) && start == i + (if content[i] == '\n' then 1 else 2)
                   && forall k | i < k < plain :: !BreakAt(content, k, plain)
  {
    var plain: nat := if anchor >= 80 then anchor - 80 else 0;
    var from: nat := if plain >= 80 then plain - 80 else 0;
    var line, sentence := RFind(content, "\n", from, plain), RFind(content, ". ", from, plain);
    BreaksAreMatches(content, plain);
    hide BreakAt, MatchAt, RFind;
    var i := Max(line, sentence);
    forall k | i < k < plain && from <= k ensures !BreakAt(content, k, plain) {
    }
    if plain > 0 && i >= 0 {
      assert BreakAt(content, i, plain);
    }
  }

  /** A window ends at the first line end near its target length, or else behind the last whole word, or else right there. */
  lemma TrailingCut(content: string, start: nat)
    requires start < |content|
    ensures var end, limit := TrailingEdge(content, start), if |content| <= start + 480 then |content| else start + 480;
            if |content| <= start + 420 then end == |content|
            else if exists i | start + 340 <= i < limit :: content[i] == '\n'
            then start + 340 <= end < limit && content[end] == '\n' && forall i | start + 340 <= i < end :: content[i] != '\n'
            else if exists i | start + 360 <= i < start + 420 :: content[i] == ' '
            then start + 360 <= end < start + 420 && content[end] == ' ' && forall i | end < i < start + 420 :: content[i] != ' '
            else end == start + 420
  {
    if |content| > start + 420 {
      var limit := if |content| <= start + 480 then |content| else start + 480;
      forall i | 0 <= i < limit ensures (MatchAt(content, "\n", i) <==> content[i] == '\n') && (MatchAt(content, " ", i) <==> content[i] == ' ') {
        assert content[i..i + 1] == [content[i]];
      }
    }
  }

  /** The window an anchor stands for. */
  ghost predicate WindowFor(content: string, anchor: nat, w: Bounds) {
    && anchor < |content|
    && var start := LeadingEdge(content, anchor);
    Trimmed(content, start, TrailingEdge(content, start), w.start, w.end)
  }

  lemma OneWindowEach(content: string, anchor: nat, a: Bounds, b: Bounds)
    requires WindowFor(content, anchor, a) && WindowFor(content, anchor, b)
    ensures a == b
  {
    hide LeadingEdge, TrailingEdge;
    if a.start < a.end && b.start < b.end {
      assert !(a.start < b.start) && !(b.start < a.start);
      assert !(a.end - 1 >= b.end) && !(b.end - 1 >= a.end);
    }
  }

  /** A window near the anchor; if the anchor is no white space, the window contains it. */
  method WindowBounds(content: string, anchor: nat) returns (w: Bounds)
    requires anchor < |content|
    ensures WindowFor(content, anchor, w)
    ensures w.start < w.end ==> Window(content, w.start, w.end)
    ensures !Space(content[anchor]) ==> w.start <= anchor < w.end
  {
    hide LeadingEdge, TrailingEdge;
    var start := LeadingEdge(content, anchor);
    var end := TrailingEdge(content, start);
    var s, e := TrimBounds(content, start, end);
    w := Bounds(s, e);
  }

  // _best_window

  /** A term found in a text; which texts are terms is left open. */
  datatype Match = Match(start: nat, term: string)

  type Finder = string -> seq<Match>

  function Present(found: seq<Match>): set<string> {
    set m | m in found :: m.term
  }

  function Score(content: string, terms: set<string>, finder: Finder, s: nat, e: nat): nat
  {
    if s <= e <= |content| then |Present(finder(content[s..e])) * terms| else 0
  }

  predicate AllSpace(content: string) {
    forall i | 0 <= i < |content| :: Space(content[i])
  }

  /** Where terms of the question stand, in the order they are found. */
  function TermStarts(found: seq<Match>, terms: set<string>): seq<nat> {
    if found == [] then [] else
      TermStarts(found[..|found| - 1], terms)
      + (if found[|found| - 1].term in terms then [found[|found| - 1].start] else [])
  }

  /** The places to look: the beginning, and the first 64 places where terms of the question stand. */
  function AnchorsOf(content: string, terms: set<string>, finder: Finder): seq<nat> {
    var starts := TermStarts(finder(content), terms);
    [0] + if |starts| <= 64 then starts else starts[..64]
  }

  method Anchors(content: string, terms: set<string>, finder: Finder) returns (anchors: seq<nat>)
    ensures anchors == AnchorsOf(content, terms, finder)
  {
    anchors := [0];
    if terms == {} {
      NoTerms(finder(content));
      return;
    }
    var found := finder(content);
    for i := 0 to |found|
      invariant |anchors| < 65 && anchors == [0] + TermStarts(found[..i], terms)
    {
      assert found[..i + 1][..i] == found[..i];
      if found[i].term in terms {
        anchors := anchors + [found[i].start];
        assert anchors == [0] + TermStarts(found[..i + 1], terms);
        if |anchors| >= 65 {
          StartsPrefix(found, terms, i + 1);
          return;
        }
      }
    }
    assert found[..|found|] == found;
  }

  lemma {:induction false} NoTerms(found: seq<Match>)
    ensures TermStarts(found, {}) == []
    decreases |found|
  {
    if found != [] {
      NoTerms(found[..|found| - 1]);
    }
  }

  lemma {:induction false} StartsPrefix(found: seq<Match>, terms: set<string>, i: nat)
    requires i <= |found|
    ensures TermStarts(found[..i], terms) <= TermStarts(found, terms)
    decreases |found| - i
  {
    if i < |found| {
      assert found[..i + 1][..i] == found[..i];
      StartsPrefix(found, terms, i + 1);
    } else {
      assert found[..i] == found;
    }
  }

  lemma {:induction false} StartsInside(found: seq<Match>, terms: set<string>, length: nat)
    requires forall m :: m in found ==> m.start < length
    ensures forall a :: a in TermStarts(found, terms) ==> a < length
    decreases |found|
  {
    if found != [] {
      assert found[|found| - 1] in found;
      StartsInside(found[..|found| - 1], terms, length);
    }
  }

  predicate Better(content: string, terms: set<string>, finder: Finder, a: Bounds, b: Bounds)
  {
    var x, y := Score(content, terms, finder, a.start, a.end), Score(content, terms, finder, b.start, b.end);
    x > y || (x == y && (a.start < b.start || (a.start == b.start && a.end <= b.end)))
  }

  /** Some place to look gives this window, and it shows something. */
  ghost predicate Offered(content: string, terms: set<string>, finder: Finder, w: Bounds) {
    w.start < w.end && exists a :: a in AnchorsOf(content, terms, finder) && WindowFor(content, a, w)
  }

  /** Of all the windows offered, the one with most terms, and then the earliest; none only if none is offered. */
  ghost predicate Best(content: string, terms: set<string>, finder: Finder, best: Option<Bounds>) {
    && (best.Some? ==> Offered(content, terms, finder, best.value))
    && forall w :: Offered(content, terms, finder, w) ==> best.Some? && Better(content, terms, finder, best.value, w)
  }

  lemma BestIsUnique(content: string, terms: set<string>, finder: Finder, a: Option<Bounds>, b: Option<Bounds>)
    requires Best(content, terms, finder, a) && Best(content, terms, finder, b)
    ensures a == b
  {
    hide Offered, Score;
    if a.Some? {
      assert Better(content, terms, finder, b.value, a.value);
    }
    if b.Some? {
      assert Better(content, terms, finder, a.value, b.value);
    }
  }

  method BestWindow(content: string, terms: set<string>, finder: Finder) returns (best: Option<Bounds>)
    requires forall text, m :: m in finder(text) ==> m.start < |text|
    ensures Best(content, terms, finder, best)
    ensures best.Some? ==> Window(content, best.value.start, best.value.end)
  {
    best := None;
    if AllSpace(content) {
      NothingOffered(content, terms, finder);
      return;
    }
    var anchors := Anchors(content, terms, finder);
    AnchorsInside(content, terms, finder);
    NothingLookedAt(content, terms, finder);
    hide *;
    assert anchors[..0] == [];
    for k := 0 to |anchors|
      invariant best.Some? ==> Window(content, best.value.start, best.value.end)
      invariant BestOf(content, terms, finder, anchors[..k], best)
    {
      assert anchors[k] in anchors && anchors[..k + 1] == anchors[..k] + [anchors[k]];
      var w := WindowBounds(content, anchors[k]);
      var keep := best;
      if w.start < w.end && w.end - w.start <= EXCERPT_LIMIT {
        if best.None? || !Better(content, terms, finder, best.value, w) {
          keep := Some(w);
        }
      }
      OneMoreAnchor(content, terms, finder, anchors[..k], anchors[k], w, best, keep);
      best := keep;
    }
    assert anchors[..|anchors|] == anchors;
    BestOfAll(content, terms, finder, best);
  }

  /** `Best`, as far as the anchors looked at so far. */
  ghost predicate BestOf(content: string, terms: set<string>, finder: Finder, anchors: seq<nat>, best: Option<Bounds>) {
    && (best.Some? ==> best.value.start < best.value.end && exists a :: a in anchors && WindowFor(content, a, best.value))
    && forall a, w :: a in anchors && WindowFor(content, a, w) && w.start < w.end ==>
         best.Some? && Better(content, terms, finder, best.value, w)
  }

  lemma NothingLookedAt(content: string, terms: set<string>, finder: Finder)
    ensures BestOf(content, terms, finder, [], None)
  {
  }

  lemma BestOfAll(content: string, terms: set<string>, finder: Finder, best: Option<Bounds>)
    requires BestOf(content, terms, finder, AnchorsOf(content, terms, finder), best)
    ensures Best(content, terms, finder, best)
  {
    hide AnchorsOf, WindowFor, Better;
  }

  lemma OneMoreAnchor(content: string, terms: set<string>, finder: Finder, anchors: seq<nat>, a: nat, w: Bounds,
      best: Option<Bounds>, keep: Option<Bounds>)
    requires BestOf(content, terms, finder, anchors, best) && WindowFor(content, a, w)
    requires keep == if w.start < w.end && (best.None? || !Better(content, terms, finder, best.value, w)) then Some(w) else best
    ensures BestOf(content, terms, finder, anchors + [a], keep)
  {
    hide WindowFor, Better;
    OnlyWindow(content, a, w);
    BetterOrder(content, terms, finder, best, w);
    var more := anchors + [a];
    assert a in more;
    if best.Some? {
      var b :| b in anchors && WindowFor(content, b, best.value);
      assert b in more;
    }
  }

  lemma OnlyWindow(content: string, anchor: nat, w: Bounds)
    requires WindowFor(content, anchor, w)
    ensures forall v :: WindowFor(content, anchor, v) ==> v == w
  {
    forall v | WindowFor(content, anchor, v) ensures v == w {
      OneWindowEach(content, anchor, v, w);
    }
  }

  /** Being better is a total order, so the window kept so far passes its comparisons on. */
  lemma BetterOrder(content: string, terms: set<string>, finder: Finder, best: Option<Bounds>, w: Bounds)
    ensures Better(content, terms, finder, w, w)
    ensures best.Some? && !Better(content, terms, finder, best.value, w) ==>
      forall v :: Better(content, terms, finder, best.value, v) ==> Better(content, terms, finder, w, v)
  {
    hide Score;
  }

  lemma AnchorsInside(content: string, terms: set<string>, finder: Finder)
    requires content != "" && forall m :: m in finder(content) ==> m.start < |content|
    ensures forall a :: a in AnchorsOf(content, terms, finder) ==> a < |content|
  {
    hide TermStarts;
    StartsInside(finder(content), terms, |content|);
    forall a | a in AnchorsOf(content, terms, finder) ensures a < |content| {
      assert a == 0 || a in TermStarts(finder(content), terms);
    }
  }

  lemma NothingOffered(content: string, terms: set<string>, finder: Finder)
    requires AllSpace(content)
    ensures forall w :: !Offered(content, terms, finder, w)
  {
    hide AnchorsOf, LeadingEdge, TrailingEdge;
  }

  /** A window passes the check the database makes of an excerpt. */
  lemma WindowPassesGuard(content: string, start: nat, end: nat)
    requires Window(content, start, end)
    ensures AskTables.WindowIn(content, start, end)
  {
    assert content[start..end][0] == content[start];
  }

  // Selectors

  datatype Retrieved = Retrieved(document: nat, page: nat, content: string)

  datatype Excerpt = Excerpt(rank: nat, bounds: Bounds)

  predicate SamePage(a: Retrieved, b: Retrieved) {
    a.document == b.document && a.page == b.page
  }

  /** Good windows of different pages among the first five chunks. */
  ghost predicate Selection(excerpts: seq<Excerpt>, chunks: seq<Retrieved>) {
    && (forall x :: x in excerpts ==> x.rank < |chunks| && x.rank < 5 && Window(chunks[x.rank].content, x.bounds.start, x.bounds.end))
    && (forall i, j :: 0 <= i < j < |excerpts| ==>
          excerpts[i].rank < |chunks| && excerpts[j].rank < |chunks| && !SamePage(chunks[excerpts[i].rank], chunks[excerpts[j].rank]))
  }

  predicate PageTaken(excerpts: seq<Excerpt>, chunks: seq<Retrieved>, rank: nat)
    requires rank < |chunks|
  {
    exists x | x in excerpts :: x.rank < |chunks| && SamePage(chunks[x.rank], chunks[rank])
  }

  lemma SelectOne(excerpts: seq<Excerpt>, chunks: seq<Retrieved>, x: Excerpt)
    requires Selection(excerpts, chunks) && x.rank < |chunks| && x.rank < 5
    requires Window(chunks[x.rank].content, x.bounds.start, x.bounds.end) && !PageTaken(excerpts, chunks, x.rank)
    ensures Selection(excerpts + [x], chunks)
  {
    hide Window;
    forall i | 0 <= i < |excerpts| ensures !SamePage(chunks[excerpts[i].rank], chunks[x.rank]) {
      assert excerpts[i] in excerpts;
    }
  }

  /** The page of this chunk is shown, by this chunk or an earlier one. */
  ghost predicate PageShown(excerpts: seq<Excerpt>, chunks: seq<Retrieved>, rank: nat)
    requires rank < |chunks|
  {
    exists x :: x in excerpts && x.rank <= rank && SamePage(chunks[x.rank], chunks[rank])
  }

  lemma ShownEarlier(excerpts: seq<Excerpt>, chunks: seq<Retrieved>, rank: nat)
    requires rank < |chunks| && PageTaken(excerpts, chunks, rank) && forall x :: x in excerpts ==> x.rank < rank
    ensures PageShown(excerpts, chunks, rank)
  {
    hide SamePage;
  }

  lemma StillShown(excerpts: seq<Excerpt>, chunks: seq<Retrieved>, rank: nat, x: Excerpt)
    requires rank < |chunks|
    ensures PageShown(excerpts, chunks, rank) ==> PageShown(excerpts + [x], chunks, rank)
    ensures x.rank == rank ==> PageShown(excerpts + [x], chunks, rank)
  {
    var more := excerpts + [x];
    assert x in more;
    if PageShown(excerpts, chunks, rank) {
      var y :| y in excerpts && y.rank <= rank && SamePage(chunks[y.rank], chunks[rank]);
      assert y in more;
    }
  }

  /** Why a chunk is not shown: its page already is, or its text offers no window. */
  ghost predicate Passed(excerpts: seq<Excerpt>, chunks: seq<Retrieved>, terms: set<string>, finder: Finder, rank: nat)
    requires rank < |chunks|
  {
    PageShown(excerpts, chunks, rank) || Best(chunks[rank].content, terms, finder, None)
  }

  /** In rank order, the best windows of the first chunks; every chunk before `upTo` is shown or passed over. */
  ghost predicate Related(excerpts: seq<Excerpt>, chunks: seq<Retrieved>, terms: set<string>, finder: Finder, upTo: nat) {
    && (forall i, j :: 0 <= i < j < |excerpts| ==> excerpts[i].rank < excerpts[j].rank)
    && (forall x :: x in excerpts ==> x.rank < |chunks| && Best(chunks[x.rank].content, terms, finder, Some(x.bounds)))
    && (forall x :: x in excerpts ==> x.rank < upTo)
    && (forall rank :: 0 <= rank < upTo && rank < |chunks| ==> Passed(excerpts, chunks, terms, finder, rank))
  }

  /** `select_related_excerpts` */
  method SelectRelated(chunks: seq<Retrieved>, terms: set<string>, finder: Finder) returns (selected: seq<Excerpt>)
    requires forall text, m :: m in finder(text) ==> m.start < |text|
    ensures |selected| <= 2 && Selection(selected, chunks)
    ensures Related(selected, chunks, terms, finder, if |selected| == 2 then selected[1].rank + 1 else 5)
  {
    selected := [];
    hide Window, SamePage, Best, Selection, Related, PageTaken, PageShown;
    var count := if |chunks| <= 5 then |chunks| else 5;
    NothingRelated(chunks, terms, finder);
    for rank := 0 to count
      invariant |selected| < 2 && Selection(selected, chunks)
      invariant Related(selected, chunks, terms, finder, rank)
    {
      if PageTaken(selected, chunks, rank) {
        RanksSoFar(selected, chunks, terms, finder, rank);
        ShownEarlier(selected, chunks, rank);
        PassOver(selected, chunks, terms, finder, rank);
        continue;
      }
      var bounds := BestWindow(chunks[rank].content, terms, finder);
      if bounds.None? {
        PassOver(selected, chunks, terms, finder, rank);
        continue;
      }
      SelectOne(selected, chunks, Excerpt(rank, bounds.value));
      RelatedOne(selected, chunks, terms, finder, Excerpt(rank, bounds.value));
      selected := selected + [Excerpt(rank, bounds.value)];
      if |selected| == 2 {
        return;
      }
    }
    WholeRelated(selected, chunks, terms, finder, count);
  }

  lemma NothingRelated(chunks: seq<Retrieved>, terms: set<string>, finder: Finder)
    ensures Selection([], chunks) && Related([], chunks, terms, finder, 0)
  {
  }

  lemma RanksSoFar(excerpts: seq<Excerpt>, chunks: seq<Retrieved>, terms: set<string>, finder: Finder, upTo: nat)
    requires Related(excerpts, chunks, terms, finder, upTo)
    ensures forall x :: x in excerpts ==> x.rank < upTo
  {
  }

  lemma PassOver(excerpts: seq<Excerpt>, chunks: seq<Retrieved>, terms: set<string>, finder: Finder, rank: nat)
    requires rank < |chunks| && Related(excerpts, chunks, terms, finder, rank) && Passed(excerpts, chunks, terms, finder, rank)
    ensures Related(excerpts, chunks, terms, finder, rank + 1)
  {
    hide Best, PageShown, Passed;
  }

  lemma RelatedOne(excerpts: seq<Excerpt>, chunks: seq<Retrieved>, terms: set<string>, finder: Finder, x: Excerpt)
    requires x.rank < |chunks| && Related(excerpts, chunks, terms, finder, x.rank)
    requires Best(chunks[x.rank].content, terms, finder, Some(x.bounds))
    ensures Related(excerpts + [x], chunks, terms, finder, x.rank + 1)
  {
    hide Best, PageShown;
    var more := excerpts + [x];
    assert x in more;
    forall i, j | 0 <= i < j < |more| ensures more[i].rank < more[j].rank {
      assert more[i] in excerpts;
    }
    forall rank | 0 <= rank < x.rank + 1 && rank < |chunks| ensures Passed(more, chunks, terms, finder, rank) {
      StillShown(excerpts, chunks, rank, x);
      assert rank < x.rank ==> Passed(excerpts, chunks, terms, finder, rank);
    }
  }

  lemma WholeRelated(excerpts: seq<Excerpt>, chunks: seq<Retrieved>, terms: set<string>, finder: Finder, count: nat)
    requires count == (if |chunks| <= 5 then |chunks| else 5) && Related(excerpts, chunks, terms, finder, count)
    ensures Related(excerpts, chunks, terms, finder, 5)
  {
    hide Best, PageShown, Passed;
  }

  function Hits(chunks: seq<Retrieved>, terms: set<string>, finder: Finder, x: Excerpt): nat {
    if x.rank < |chunks|
    then Score(chunks[x.rank].content, terms, finder, x.bounds.start, x.bounds.end) else 0
  }

  predicate Ahead(chunks: seq<Retrieved>, terms: set<string>, finder: Finder, a: Excerpt, b: Excerpt) {
    var x, y := Hits(chunks, terms, finder, a), Hits(chunks, terms, finder, b);
    x > y || (x == y && a.rank <= b.rank)
  }

  function HitKey(chunks: seq<Retrieved>, terms: set<string>, finder: Finder, candidates: seq<Excerpt>): int -> Key {
    i => if 0 <= i < |candidates|
         then Key(0 - Hits(chunks, terms, finder, candidates[i]), candidates[i].rank, 0) else Key(0, 0, i)
  }

  /** The best window of this chunk has too few terms of the question. */
  ghost predicate TooFew(chunks: seq<Retrieved>, terms: set<string>, finder: Finder, rank: nat)
    requires rank < |chunks|
  {
    exists w :: Best(chunks[rank].content, terms, finder, Some(w)) && Hits(chunks, terms, finder, Excerpt(rank, w)) < MinimumHits(terms)
  }

  function MinimumHits(terms: set<string>): nat {
    if |terms| == 1 then 1 else 2
  }

  /** In rank order, the best windows with enough terms; every chunk before `upTo` is shown, passed over or has too few. */
  ghost predicate Candidates(excerpts: seq<Excerpt>, chunks: seq<Retrieved>, terms: set<string>, finder: Finder, upTo: nat) {
    && (forall i, j :: 0 <= i < j < |excerpts| ==> excerpts[i].rank < excerpts[j].rank)
    && (forall x :: x in excerpts ==> x.rank < |chunks| && Best(chunks[x.rank].content, terms, finder, Some(x.bounds)))
    && (forall x :: x in excerpts ==> x.rank < upTo && Hits(chunks, terms, finder, x) >= MinimumHits(terms))
    && (forall rank :: 0 <= rank < upTo && rank < |chunks| ==>
          Passed(excerpts, chunks, terms, finder, rank) || TooFew(chunks, terms, finder, rank))
  }

  /** `select_source_first_excerpts`, from the terms of the local query on: the three candidates with most terms. */
  method SelectSourceFirst(chunks: seq<Retrieved>, terms: set<string>, finder: Finder)
    returns (selected: seq<Excerpt>, ghost candidates: seq<Excerpt>)
    requires forall text, m :: m in finder(text) ==> m.start < |text|
    ensures |selected| <= 3 && Selection(selected, chunks)
    ensures terms == {} ==> selected == []
    ensures terms != {} ==> Candidates(candidates, chunks, terms, finder, 5)
    ensures terms != {} ==> |selected| == if |candidates| <= 3 then |candidates| else 3
    ensures forall x :: x in selected ==> x in candidates
    ensures forall i, j :: 0 <= i < j < |selected| ==> Ahead(chunks, terms, finder, selected[i], selected[j])
    ensures forall x, c :: x in selected && c in candidates && c !in selected ==> Ahead(chunks, terms, finder, x, c)
  {
    if terms == {} {
      return [], [];
    }
    hide *;
    var found := FindCandidates(chunks, terms, finder);
    candidates := found;
    selected := TopThree(chunks, terms, finder, found);
  }

  method FindCandidates(chunks: seq<Retrieved>, terms: set<string>, finder: Finder) returns (found: seq<Excerpt>)
    requires forall text, m :: m in finder(text) ==> m.start < |text|
    ensures Selection(found, chunks) && Candidates(found, chunks, terms, finder, 5)
  {
    found := [];
    hide *;
    var count := if |chunks| <= 5 then |chunks| else 5;
    NoCandidates(chunks, terms, finder);
    for rank := 0 to count
      invariant Selection(found, chunks)
      invariant Candidates(found, chunks, terms, finder, rank)
    {
      if PageTaken(found, chunks, rank) {
        CandidateRanks(found, chunks, terms, finder, rank);
        ShownEarlier(found, chunks, rank);
        SkipCandidate(found, chunks, terms, finder, rank, None);
        continue;
      }
      var bounds := BestWindow(chunks[rank].content, terms, finder);
      if bounds.None? || Hits(chunks, terms, finder, Excerpt(rank, bounds.value)) < MinimumHits(terms) {
        SkipCandidate(found, chunks, terms, finder, rank, bounds);
        continue;
      }
      SelectOne(found, chunks, Excerpt(rank, bounds.value));
      OneCandidate(found, chunks, terms, finder, Excerpt(rank, bounds.value));
      found := found + [Excerpt(rank, bounds.value)];
    }
    AllCandidates(found, chunks, terms, finder, count);
  }

  lemma NoCandidates(chunks: seq<Retrieved>, terms: set<string>, finder: Finder)
    ensures Selection([], chunks) && Candidates([], chunks, terms, finder, 0)
  {
  }

  lemma CandidateRanks(excerpts: seq<Excerpt>, chunks: seq<Retrieved>, terms: set<string>, finder: Finder, upTo: nat)
    requires Candidates(excerpts, chunks, terms, finder, upTo)
    ensures forall x :: x in excerpts ==> x.rank < upTo
  {
  }

  lemma SkipCandidate(excerpts: seq<Excerpt>, chunks: seq<Retrieved>, terms: set<string>, finder: Finder, rank: nat, best: Option<Bounds>)
    requires rank < |chunks| && Candidates(excerpts, chunks, terms, finder, rank)
    requires PageShown(excerpts, chunks, rank) || Best(chunks[rank].content, terms, finder, best)
    requires best.Some? ==> Hits(chunks, terms, finder, Excerpt(rank, best.value)) < MinimumHits(terms)
    ensures Candidates(excerpts, chunks, terms, finder, rank + 1)
  {
    hide Best, PageShown, Hits;
  }

  lemma OneCandidate(excerpts: seq<Excerpt>, chunks: seq<Retrieved>, terms: set<string>, finder: Finder, x: Excerpt)
    requires x.rank < |chunks| && Candidates(excerpts, chunks, terms, finder, x.rank)
    requires Best(chunks[x.rank].content, terms, finder, Some(x.bounds)) && Hits(chunks, terms, finder, x) >= MinimumHits(terms)
    ensures Candidates(excerpts + [x], chunks, terms, finder, x.rank + 1)
  {
    hide Best, Hits, TooFew, PageShown;
    var more := excerpts + [x];
    assert x in more;
    forall i, j | 0 <= i < j < |more| ensures more[i].rank < more[j].rank {
      assert more[i] in excerpts;
    }
    forall rank | 0 <= rank < x.rank + 1 && rank < |chunks|
      ensures Passed(more, chunks, terms, finder, rank) || TooFew(chunks, terms, finder, rank)
    {
      StillShown(excerpts, chunks, rank, x);
      assert rank < x.rank ==> Passed(excerpts, chunks, terms, finder, rank) || TooFew(chunks, terms, finder, rank);
    }
  }

  lemma AllCandidates(excerpts: seq<Excerpt>, chunks: seq<Retrieved>, terms: set<string>, finder: Finder, count: nat)
    requires count == (if |chunks| <= 5 then |chunks| else 5) && Candidates(excerpts, chunks, terms, finder, count)
    ensures Candidates(excerpts, chunks, terms, finder, 5)
  {
    hide Best, PageShown, Passed, TooFew, Hits;
  }

  function Indices(n: nat): seq<int> {
    seq(n, i => i)
  }

  method TopThree(chunks: seq<Retrieved>, terms: set<string>, finder: Finder, found: seq<Excerpt>) returns (selected: seq<Excerpt>)
    requires Selection(found, chunks)
    ensures |selected| == (if |found| <= 3 then |found| else 3) && Selection(selected, chunks)
    ensures forall x :: x in selected ==> x in found
    ensures forall i, j :: 0 <= i < j < |selected| ==> Ahead(chunks, terms, finder, selected[i], selected[j])
    ensures forall x, c :: x in selected && c in found && c !in selected ==> Ahead(chunks, terms, finder, x, c)
  {
    var order := SortBy(Indices(|found|), HitKey(chunks, terms, finder, found));
    selected := Picked(chunks, terms, finder, found, order);
  }

  method Picked(chunks: seq<Retrieved>, terms: set<string>, finder: Finder, found: seq<Excerpt>, order: seq<int>) returns (selected: seq<Excerpt>)
    requires Selection(found, chunks) && order == SortBy(Indices(|found|), HitKey(chunks, terms, finder, found))
    ensures |selected| == (if |found| <= 3 then |found| else 3) && Selection(selected, chunks)
    ensures forall x :: x in selected ==> x in found
    ensures forall i, j :: 0 <= i < j < |selected| ==> Ahead(chunks, terms, finder, selected[i], selected[j])
    ensures forall x, c :: x in selected && c in found && c !in selected ==> Ahead(chunks, terms, finder, x, c)
  {
    hide *;
    Sorted(chunks, terms, finder, found, order);
    var n := if |order| <= 3 then |order| else 3;
    selected := seq(n, i requires 0 <= i < n => found[order[i]]);
    PickedInOrder(chunks, terms, finder, found, order, selected);
  }

  lemma Sorted(chunks: seq<Retrieved>, terms: set<string>, finder: Finder, found: seq<Excerpt>, order: seq<int>)
    requires order == SortBy(Indices(|found|), HitKey(chunks, terms, finder, found))
    ensures |order| == |found| && Distinct(order)
    ensures forall k | 0 <= k < |order| :: 0 <= order[k] < |found|
    ensures forall i | 0 <= i < |found| :: i in order
    ensures forall a, b | 0 <= a < b < |order| :: Ahead(chunks, terms, finder, found[order[a]], found[order[b]])
  {
    hide SortBy, Hits;
    var key, all := HitKey(chunks, terms, finder, found), Indices(|found|);
    SortSorts(all, key);
    SortedItems(all, key);
    SortKeepsDistinct(all, key);
    forall k | 0 <= k < |order| ensures 0 <= order[k] < |found| {
      assert order[k] in order && order[k] in all;
    }
    forall i | 0 <= i < |found| ensures i in order {
      assert all[i] == i;
    }
    forall a, b | 0 <= a < b < |order| ensures Ahead(chunks, terms, finder, found[order[a]], found[order[b]]) {
      assert AtMost(key(order[a]), key(order[b]));
    }
  }

  lemma PickedInOrder(chunks: seq<Retrieved>, terms: set<string>, finder: Finder, found: seq<Excerpt>, order: seq<int>, selected: seq<Excerpt>)
    requires Selection(found, chunks) && |order| == |found| && Distinct(order)
    requires forall k | 0 <= k < |order| :: 0 <= order[k] < |found|
    requires forall i | 0 <= i < |found| :: i in order
    requires forall a, b | 0 <= a < b < |order| :: Ahead(chunks, terms, finder, found[order[a]], found[order[b]])
    requires |selected| <= |order| && forall i | 0 <= i < |selected| :: selected[i] == found[order[i]]
    ensures Selection(selected, chunks) && forall x :: x in selected ==> x in found
    ensures forall i, j :: 0 <= i < j < |selected| ==> Ahead(chunks, terms, finder, selected[i], selected[j])
    ensures forall x, c :: x in selected && c in found && c !in selected ==> Ahead(chunks, terms, finder, x, c)
  {
    hide Window, Hits, Ahead, Distinct;
    forall i, j | 0 <= i < j < |selected|
      ensures selected[i].rank < |chunks| && selected[j].rank < |chunks| && !SamePage(chunks[selected[i].rank], chunks[selected[j].rank])
    {
      DifferentPositions(order, i, j);
    }
    forall x, c | x in selected && c in found && c !in selected ensures Ahead(chunks, terms, finder, x, c) {
      var a :| 0 <= a < |selected| && selected[a] == x;
      var k :| 0 <= k < |found| && found[k] == c;
      assert k in order;
      var b :| 0 <= b < |order| && order[b] == k;
      assert b >= |selected|;
    }
  }

  lemma DifferentPositions(order: seq<int>, i: nat, j: nat)
    requires Distinct(order) && i < j < |order|
    ensures order[i] != order[j]
  {
  }
}
