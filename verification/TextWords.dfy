/** Splitting text into words and joining words with blanks, as the chunker sees text. */
module TextWords {

  /** The characters that separate words: Unicode white space. */
  predicate Space(c: char) {
    var n := c as int;
    || 0x09 <= n <= 0x0D || 0x1C <= n <= 0x20 || n == 0x85 || n == 0xA0 || n == 0x1680 || 0x2000 <= n <= 0x200A
    || n == 0x2028 || n == 0x2029 || n == 0x202F || n == 0x205F || n == 0x3000
  }

  /** A scan so far: the finished words, and the word still being read. */
  datatype Scan = Scan(done: seq<string>, open: string) {
    function Close(): seq<string> {
      if open == "" then done else done + [open]
    }

    function Step(c: char): Scan {
      if Space(c) then Scan(Close(), "") else Scan(done, open + [c])
    }
  }

  function ScanFrom(start: Scan, text: string): Scan {
    if text == "" then start else ScanFrom(start, text[..|text| - 1]).Step(text[|text| - 1])
  }

  /** The words of a text, in order. */
  function Words(text: string): seq<string> {
    ScanFrom(Scan([], ""), text).Close()
  }

  predicate IsWord(w: string) {
    w != "" && forall i | 0 <= i < |w| :: !Space(w[i])
  }

  predicate AllWords(ws: seq<string>) {
    forall i | 0 <= i < |ws| :: IsWord(ws[i])
  }

  /** Words joined by single blanks. */
  function Join(ws: seq<string>): string {
    if ws == [] then "" else if |ws| == 1 then ws[0] else Join(ws[..|ws| - 1]) + " " + ws[|ws| - 1]
  }

  // Scanning

  lemma {:induction false} ScanConcat(start: Scan, a: string, b: string)
    ensures ScanFrom(start, a + b) == ScanFrom(ScanFrom(start, a), b)
    decreases |b|
  {
    if b == "" {
      assert a + b == a;
    } else {
      assert (a + b)[..|a + b| - 1] == a + b[..|b| - 1];
      ScanConcat(start, a, b[..|b| - 1]);
    }
  }

  /** Words already finished stay in front. */
  lemma {:induction false} ScanBehind(done: seq<string>, text: string)
    ensures ScanFrom(Scan(done, ""), text).open == ScanFrom(Scan([], ""), text).open
    ensures ScanFrom(Scan(done, ""), text).done == done + ScanFrom(Scan([], ""), text).done
    decreases |text|
  {
    if text != "" {
      ScanBehind(done, text[..|text| - 1]);
    }
  }

  /** A text cut at white space has the words of its two parts. */
  lemma WordsAcross(a: string, gap: char, b: string)
    requires Space(gap)
    ensures Words(a + [gap] + b) == Words(a) + Words(b)
  {
    var start := Scan([], "");
    ScanConcat(start, a + [gap], b);
    ScanConcat(start, a, [gap]);
    assert [gap][..0] == "";
    assert ScanFrom(start, a + [gap]) == Scan(Words(a), "");
    ScanBehind(Words(a), b);
  }

  lemma WordsAcrossParagraph(a: string, b: string)
    ensures Words(a + "\n\n" + b) == Words(a) + Words(b)
  {
    WordsAcross(a, '\n', "\n" + b);
    WordsAcross("", '\n', b);
    assert a + "\n\n" + b == a + ['\n'] + ("\n" + b);
    assert "\n" + b == "" + ['\n'] + b;
  }

  lemma {:induction false} ScanOpen(w: string)
    requires forall i | 0 <= i < |w| :: !Space(w[i])
    ensures ScanFrom(Scan([], ""), w) == Scan([], w)
    decreases |w|
  {
    if w != "" {
      ScanOpen(w[..|w| - 1]);
      assert w == w[..|w| - 1] + [w[|w| - 1]];
    }
  }

  // Round trip

  /** Joining and splitting again gives the words back. */
  lemma {:induction false} WordsOfJoin(ws: seq<string>)
    requires AllWords(ws)
    ensures Words(Join(ws)) == ws
    decreases |ws|
  {
    if |ws| == 1 {
      ScanOpen(ws[0]);
    } else if |ws| > 1 {
      hide ScanFrom, Space;
      var n := |ws| - 1;
      WordsOfJoin(ws[..n]);
      ScanOpen(ws[n]);
      WordsAcross(Join(ws[..n]), ' ', ws[n]);
      assert Join(ws[..n]) + " " + ws[n] == Join(ws[..n]) + [' '] + ws[n];
      assert ws == ws[..n] + [ws[n]];
    }
  }

  /** Splitting only ever yields words. */
  lemma {:induction false} ScanGivesWords(text: string)
    ensures AllWords(ScanFrom(Scan([], ""), text).done)
    ensures forall i | 0 <= i < |ScanFrom(Scan([], ""), text).open| :: !Space(ScanFrom(Scan([], ""), text).open[i])
    decreases |text|
  {
    if text != "" {
      ScanGivesWords(text[..|text| - 1]);
    }
  }

  lemma WordsAreWords(text: string)
    ensures AllWords(Words(text))
  {
    ScanGivesWords(text);
  }
}
