/** The text layout of the PDF generator (app/api/cv/generate/route.ts):
    line wrapping, bullet points, the grouping of skills by category, the
    storage path of the file, and the strings each section puts on the page.
    The drawing calls and the vertical position arithmetic are not part of
    this model; the page is the sequence of texts it receives. */
module PdfLayout {
  import opened Wrappers
  import opened Text
  import opened CvTypes
  import opened Search

  // ---------------------------------------------------------------------
  // wrapText

  const MaxLineLength: nat := 100

  /** The loop state: the finished lines and the line being filled. */
  datatype Wrapping = Wrapping(lines: seq<String>, current: String)

  /** The fit test of the loop. As written it measures `currentLine + word`,
      leaving out the space that joins them; with `counted` the space is
      measured too. */
  predicate FitsLine(current: String, word: String, max: nat, counted: bool) {
    |current| + (if counted && current != "" then 1 else 0) + |word| <= max
  }

  /** One round of the loop for `word`. */
  function Step(w: Wrapping, word: String, max: nat, counted: bool): Wrapping {
    if FitsLine(w.current, word, max, counted) then
      Wrapping(w.lines, w.current + (if w.current != "" then " " else "") + word)
    else
      Wrapping(if w.current != "" then w.lines + [w.current] else w.lines, word)
  }

  function Fold(words: seq<String>, max: nat, counted: bool): Wrapping
    decreases |words|
  {
    if words == [] then Wrapping([], "")
    else Step(Fold(words[..|words| - 1], max, counted), words[|words| - 1], max, counted)
  }

  function Finish(w: Wrapping): seq<String> {
    if w.current != "" then w.lines + [w.current] else w.lines
  }

  /** A text that fits (or is empty) is one line; otherwise its words, split
      at single spaces, are packed greedily. */
  function Wrap(text: String, max: nat, counted: bool): seq<String> {
    if text == "" || |text| <= max then [text]
    else Finish(Fold(SplitSeq(text, " "), max, counted))
  }

  /** `wrapText` as written. */
  function WrapText(text: String, max: nat): seq<String> {
    Wrap(text, max, false)
  }

  /** `wrapText` with the separator counted in the fit test. */
  function WrapTextFixed(text: String, max: nat): seq<String> {
    Wrap(text, max, true)
  }

  /** The loop of `wrapText`, over the words of the text; `counted` chooses
      between the fit test as written and the corrected one. */
  method WrapLines(text: String, max: nat, counted: bool) returns (lines: seq<String>)
    ensures lines == Wrap(text, max, counted)
  {
    if text == "" || |text| <= max {
      return [text];
    }
    var words := SplitSeq(text, " ");
    lines := [];
    var currentLine := "";
    for i := 0 to |words|
      invariant Wrapping(lines, currentLine) == Fold(words[..i], max, counted)
    {
      assert words[..i + 1][..i] == words[..i];
      var word := words[i];
      if FitsLine(currentLine, word, max, counted) {
        currentLine := currentLine + (if currentLine != "" then " " else "") + word;
      } else {
        if currentLine != "" {
          lines := lines + [currentLine];
        }
        currentLine := word;
      }
    }
    assert words[..|words|] == words;
    if currentLine != "" {
      lines := lines + [currentLine];
    }
  }

  /** The invariant of `FoldJoin`: the lines and the current line are
      non-empty and, joined by spaces, give `text`. */
  predicate Joins(w: Wrapping, text: String) {
    w.current != "" && "" !in w.lines && Join(w.lines + [w.current], " ") == text
  }

  /** One round of the loop keeps `Joins` for a non-empty word. */
  lemma StepJoins(w: Wrapping, word: String, max: nat, counted: bool, text: String)
    requires Joins(w, text) && word != ""
    ensures Joins(Step(w, word, max, counted), text + " " + word)
  {
    var c := w.current;
    if FitsLine(c, word, max, counted) {
      if w.lines == [] {
        assert Join([c + " " + word], " ") == c + " " + word;
      } else {
        JoinSnoc(w.lines, c + " " + word, " ");
        JoinSnoc(w.lines, c, " ");
      }
    } else {
      JoinSnoc(w.lines + [c], word, " ");
    }
  }

  /** Packing non-empty words keeps them in order: the finished lines and
      the current one, joined by spaces, are the words joined by spaces. */
  lemma {:induction false} FoldJoin(words: seq<String>, max: nat, counted: bool)
    requires forall k :: 0 <= k < |words| ==> words[k] != ""
    ensures words == [] ==> Fold(words, max, counted) == Wrapping([], "")
    ensures words != [] ==> Joins(Fold(words, max, counted), Join(words, " "))
    decreases |words|
  {
    if words != [] {
      var n := |words| - 1;
      var init := words[..n];
      var last := words[n];
      assert words == init + [last];
      FoldJoin(init, max, counted);
      if init != [] {
        JoinSnoc(init, last, " ");
        StepJoins(Fold(init, max, counted), last, max, counted, Join(init, " "));
      } else {
        assert Join(words, " ") == last;
      }
    }
  }

  /** A line is at most `max` characters, plus one in the loop as written,
      unless it is a single word. */
  lemma {:induction false} FoldBound(words: seq<String>, max: nat, counted: bool)
    requires forall k :: 0 <= k < |words| ==> ' ' !in words[k]
    ensures var w := Fold(words, max, counted);
      var bound := if counted then max else max + 1;
      (forall i :: 0 <= i < |w.lines| ==> |w.lines[i]| <= bound || ' ' !in w.lines[i]) &&
      (|w.current| <= bound || ' ' !in w.current)
    decreases |words|
  {
    if words != [] {
      FoldBound(words[..|words| - 1], max, counted);
    }
  }

  /** When every word is non-empty, the wrapped lines joined by single
      spaces give the text back, and no line is empty. */
  lemma WrapJoin(text: String, max: nat, counted: bool)
    requires forall k :: 0 <= k < |SplitSeq(text, " ")| ==> SplitSeq(text, " ")[k] != ""
    ensures Join(Wrap(text, max, counted), " ") == text
    ensures "" !in Wrap(text, max, counted)
  {
    assert SplitSeq("", " ") == [""];
    if !(text == "" || |text| <= max) {
      var words := SplitSeq(text, " ");
      FoldJoin(words, max, counted);
      SplitJoin(text, " ");
    } else {
      assert SplitSeq(text, " ")[0] != "";
    }
  }

  /** Every wrapped line is at most `max` characters (`max + 1` as written)
      or is one word without spaces. */
  lemma WrapBound(text: String, max: nat, counted: bool)
    ensures var bound := if counted then max else max + 1;
      forall i :: 0 <= i < |Wrap(text, max, counted)| ==>
        (|Wrap(text, max, counted)[i]| <= bound || ' ' !in Wrap(text, max, counted)[i])
  {
    if !(text == "" || |text| <= max) {
      SplitPiecesAvoid(text, ' ');
      FoldBound(SplitSeq(text, " "), max, counted);
    }
  }

  /** A text that fits is returned as one line, and the empty text as [""]. */
  lemma WrapShort(text: String, max: nat, counted: bool)
    requires |text| <= max
    ensures Wrap(text, max, counted) == [text]
  {
  }

  /** Three words without spaces, joined by single spaces, split back. */
  lemma SplitThree(a: String, b: String, c: String)
    requires ' ' !in a && ' ' !in b && ' ' !in c
    ensures SplitSeq(a + " " + b + " " + c, " ") == [a, b, c]
  {
    assert a + " " + b + " " + c == a + " " + (b + " " + c);
    SplitWord(a, b + " " + c);
    SplitWord(b, c);
    SplitNoSpace(c);
  }

  lemma SplitSample()
    ensures SplitSeq("ab cd ef", " ") == ["ab", "cd", "ef"]
  {
    assert "ab cd ef" == "ab" + " " + "cd" + " " + "ef";
    SplitThree("ab", "cd", "ef");
  }

  /** The packing of one more word is one more round of the loop. */
  lemma FoldSnoc(words: seq<String>, word: String, max: nat, counted: bool)
    ensures Fold(words + [word], max, counted) == Step(Fold(words, max, counted), word, max, counted)
  {
    assert (words + [word])[..|words|] == words;
  }

  /** The packing of the sample's three words, round by round. */
  lemma FoldSample(counted: bool)
    ensures Fold(["ab", "cd", "ef"], 4, counted) ==
      Step(Step(Step(Wrapping([], ""), "ab", 4, counted), "cd", 4, counted), "ef", 4, counted)
  {
    FoldSnoc([], "ab", 4, counted);
    assert [] + ["ab"] == ["ab"];
    FoldSnoc(["ab"], "cd", 4, counted);
    assert ["ab"] + ["cd"] == ["ab", "cd"];
    FoldSnoc(["ab", "cd"], "ef", 4, counted);
    assert ["ab", "cd"] + ["ef"] == ["ab", "cd", "ef"];
  }

  /** As written, "ab cd ef" with a limit of 4 gives the 5-character line
      "ab cd": "ab" and "cd" pass the test with 4 characters, but the line
      gets the space as well. */
  lemma WrapOverflow()
    ensures WrapText("ab cd ef", 4) == ["ab cd", "ef"]
    ensures |WrapText("ab cd ef", 4)[0]| == 5
  {
    SplitSample();
    FoldSample(false);
    StepsOverflow();
    assert |"ab cd ef"| > 4;
    assert WrapText("ab cd ef", 4) == Finish(Wrapping(["ab cd"], "ef"));
  }

  /** The three rounds of the loop as written on "ab", "cd" and "ef". */
  lemma StepsOverflow()
    ensures Step(Step(Step(Wrapping([], ""), "ab", 4, false), "cd", 4, false), "ef", 4, false) ==
      Wrapping(["ab cd"], "ef")
  {
    var w1 := Step(Wrapping([], ""), "ab", 4, false);
    assert FitsLine("", "ab", 4, false);
    assert w1 == Wrapping([], "" + "" + "ab");
    assert "" + "" + "ab" == "ab";
    var w2 := Step(w1, "cd", 4, false);
    assert FitsLine("ab", "cd", 4, false);
    assert w2 == Wrapping([], "ab" + " " + "cd");
    assert "ab" + " " + "cd" == "ab cd";
    assert !FitsLine("ab cd", "ef", 4, false);
    assert Step(w2, "ef", 4, false) == Wrapping([] + ["ab cd"], "ef");
  }

  /** With the separator counted the same text breaks at every word. */
  lemma WrapFixedSample()
    ensures WrapTextFixed("ab cd ef", 4) == ["ab", "cd", "ef"]
  {
    SplitSample();
    FoldSample(true);
    StepsFixed();
    assert |"ab cd ef"| > 4;
    assert WrapTextFixed("ab cd ef", 4) == Finish(Wrapping(["ab", "cd"], "ef"));
  }

  /** The three rounds of the corrected loop on "ab", "cd" and "ef". */
  lemma StepsFixed()
    ensures Step(Step(Step(Wrapping([], ""), "ab", 4, true), "cd", 4, true), "ef", 4, true) ==
      Wrapping(["ab", "cd"], "ef")
  {
    var w1 := Step(Wrapping([], ""), "ab", 4, true);
    assert FitsLine("", "ab", 4, true);
    assert w1 == Wrapping([], "" + "" + "ab");
    assert "" + "" + "ab" == "ab";
    var w2 := Step(w1, "cd", 4, true);
    assert !FitsLine("ab", "cd", 4, true);
    assert w2 == Wrapping([] + ["ab"], "cd");
    assert !FitsLine("cd", "ef", 4, true);
    assert Step(w2, "ef", 4, true) == Wrapping(["ab"] + ["cd"], "ef");
  }

  // ---------------------------------------------------------------------
  // addBulletPoints

  const Bullet := "• "

  /** The points of `addBulletPoints`: the trimmed non-blank lines of the
      text, each behind a bullet. The empty text has none. */
  function BulletPoints(text: String): seq<String> {
    if text == "" then []
    else
      var points := NonBlank(Lines(text));
      seq(|points|, k requires 0 <= k < |points| => Bullet + points[k])
  }

  /** One bullet per non-blank line, in order: behind each bullet is the
      trimmed line, never empty; no text gives no bullet. */
  lemma BulletShape(text: String)
    ensures |BulletPoints(text)| == |NonBlank(Lines(text))|
    ensures forall k :: 0 <= k < |BulletPoints(text)| ==>
      StartsWith(BulletPoints(text)[k], Bullet) &&
      BulletPoints(text)[k][|Bullet|..] == NonBlank(Lines(text))[k] &&
      BulletPoints(text)[k][|Bullet|..] != ""
    ensures text == "" ==> BulletPoints(text) == []
  {
    if text == "" {
      assert Lines("") == [""] by {
        assert SplitSeq("", "\n") == [""];
      }
      assert NonBlank([""]) == [] by {
        assert NonBlank([""][..0]) == [];
      }
    }
    NonBlankLines(Lines(text));
    var points := NonBlank(Lines(text));
    forall k | 0 <= k < |BulletPoints(text)|
      ensures BulletPoints(text)[k][|Bullet|..] != ""
    {
      assert points[k] in points;
    }
  }

  /** A line that is already trimmed and not blank is one bullet. */
  lemma BulletSingle(line: String)
    requires '\n' !in line && Strip(line) == line && line != ""
    ensures BulletPoints(line) == [Bullet + line]
  {
    SingleLine(line);
    assert NonBlank([line]) == [line] by {
      assert [line][..0] == [];
    }
  }
}
