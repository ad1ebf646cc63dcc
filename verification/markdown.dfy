/**
 * The line-oriented regular expressions the content scorer and the SEO
 * optimizer run over a markdown text, stated over the lines of
 * `s.split("\n")`: a line is a heading of level k when it opens with exactly
 * k `#` and a whitespace character (`^#{k}\s+` in MULTILINE mode), a list line
 * when it opens with optional whitespace, one of `-`, `*`, `+`, and a
 * whitespace character (`^\s*[-*+]\s+`), and so on. Where a pattern's `\s`
 * may match the newline that ends a line, the line's `newlineFollows` flag
 * says whether a newline follows it, which holds for every line but the last.
 * Only for the heading-text pattern does a match that runs on past that
 * newline change the result, and `HeadingTextsOf` follows it onto the lines
 * after.
 */
module Markdown {
  import opened Text

  /** `s.split("\n")`. */
  function Lines(s: string): (ls: seq<string>)
    ensures |ls| == Count(s, "\n") + 1
  {
    Split(s, "\n")
  }

  predicate IsHash(c: char) { c == '#' }

  /** The line opens with exactly `k` `#` followed by whitespace (possibly the newline after it). */
  predicate HeadingMarker(line: string, k: nat, newlineFollows: bool) {
    && k <= |line|
    && (forall i :: 0 <= i < k ==> line[i] == '#')
    && (if k < |line| then IsSpace(line[k]) else newlineFollows)
  }

  /** A line carries at most one heading level. */
  lemma HeadingLevelsExclusive(line: string, j: nat, k: nat, newlineFollows: bool)
    requires 1 <= j && 1 <= k
    requires HeadingMarker(line, j, newlineFollows) && HeadingMarker(line, k, newlineFollows)
    ensures j == k
  {
  }

  /** How many of `lines` carry a level-`k` marker; the last line has no newline after it. */
  function CountMarked(lines: seq<string>, k: nat): (n: nat)
    ensures n <= |lines|
  {
    if lines == [] then 0
    else (if HeadingMarker(lines[0], k, |lines| > 1) then 1 else 0) + CountMarked(lines[1..], k)
  }

  /** Some line carries a level-`k` marker; every line but the last has a newline after it. */
  predicate SomeMarked(lines: seq<string>, k: nat) {
    exists i :: 0 <= i < |lines| && HeadingMarker(lines[i], k, i + 1 < |lines|)
  }

  lemma {:induction false} CountMarkedPositive(lines: seq<string>, k: nat)
    ensures CountMarked(lines, k) > 0 <==> SomeMarked(lines, k)
  {
    if lines != [] {
      var rest := lines[1..];
      CountMarkedPositive(rest, k);
      if SomeMarked(rest, k) {
        var i :| 0 <= i < |rest| && HeadingMarker(rest[i], k, i + 1 < |rest|);
        assert lines[i + 1] == rest[i];
      }
      if SomeMarked(lines, k) && !HeadingMarker(lines[0], k, |lines| > 1) {
        var i :| 0 <= i < |lines| && HeadingMarker(lines[i], k, i + 1 < |lines|);
        assert rest[i - 1] == lines[i];
      }
    }
  }

  /**
   * `len(re.findall(r'^#{k}\s+', s, re.MULTILINE))`: at most one match per
   * line, and some match exactly when some line carries the marker.
   */
  function HeadingCount(s: string, k: nat): (n: nat)
    ensures n <= Count(s, "\n") + 1
    ensures n > 0 <==> SomeMarked(Lines(s), k)
  {
    CountMarkedPositive(Lines(s), k);
    CountMarked(Lines(s), k)
  }

  /** Headings of levels 1, 2 and 3 are different lines, so together they fit in the line count. */
  lemma {:induction false} LevelCountsFitLines(lines: seq<string>)
    ensures CountMarked(lines, 1) + CountMarked(lines, 2) + CountMarked(lines, 3) <= |lines|
  {
    if lines != [] {
      LevelCountsFitLines(lines[1..]);
      var f := |lines| > 1;
      if HeadingMarker(lines[0], 1, f) && HeadingMarker(lines[0], 2, f) {
        HeadingLevelsExclusive(lines[0], 1, 2, f);
      }
      if HeadingMarker(lines[0], 1, f) && HeadingMarker(lines[0], 3, f) {
        HeadingLevelsExclusive(lines[0], 1, 3, f);
      }
      if HeadingMarker(lines[0], 2, f) && HeadingMarker(lines[0], 3, f) {
        HeadingLevelsExclusive(lines[0], 2, 3, f);
      }
    }
  }

  /** The line matches `^\s*[-*+]\s+`. */
  predicate ListLine(line: string, newlineFollows: bool) {
    var w := RunLength(line, IsSpace);
    && w < |line|
    && line[w] in "-*+"
    && (if w + 1 < |line| then IsSpace(line[w + 1]) else newlineFollows)
  }

  predicate AnyListLine(lines: seq<string>) {
    lines != [] && (ListLine(lines[0], |lines| > 1) || AnyListLine(lines[1..]))
  }

  lemma {:induction false} AnyListLineSomewhere(lines: seq<string>)
    ensures AnyListLine(lines) <==> exists i :: 0 <= i < |lines| && ListLine(lines[i], i + 1 < |lines|)
  {
    if lines != [] {
      var rest := lines[1..];
      AnyListLineSomewhere(rest);
      if AnyListLine(rest) {
        var i :| 0 <= i < |rest| && ListLine(rest[i], i + 1 < |rest|);
        assert lines[i + 1] == rest[i];
      }
      if !ListLine(lines[0], |lines| > 1) {
        forall i | 0 < i < |lines| && ListLine(lines[i], i + 1 < |lines|)
          ensures AnyListLine(rest)
        {
          assert rest[i - 1] == lines[i];
        }
      }
    }
  }

  /**
   * `bool(re.search(r'^\s*[-*+]\s+', s, re.MULTILINE))`: some line is a list
   * line. A leading `\s*` that runs across blank lines lands at the start of
   * a later line's text, so reading line by line misses nothing.
   */
  predicate HasList(s: string)
    ensures HasList(s) <==> exists i :: 0 <= i < |Lines(s)| && ListLine(Lines(s)[i], i + 1 < |Lines(s)|)
  {
    AnyListLineSomewhere(Lines(s));
    AnyListLine(Lines(s))
  }

  /** The line opens with one to six `#` and then whitespace, or the line break after it: `^#{1,6}\s`. */
  predicate OpensHeading(line: string, newlineFollows: bool) {
    var h := RunLength(line, IsHash);
    1 <= h <= 6 && HeadingMarker(line, h, newlineFollows)
  }

  /** Where the text of a heading line starts: past the `#` run and the whitespace after it. */
  function TextStart(line: string): (i: nat)
    ensures RunLength(line, IsHash) <= i <= |line|
    ensures forall k :: RunLength(line, IsHash) <= k < i ==> IsSpace(line[k])
    ensures i < |line| ==> !IsSpace(line[i])
  {
    var h := RunLength(line, IsHash);
    assert forall k :: h <= k < |line| ==> line[h..][k - h] == line[k];
    h + RunLength(line[h..], IsSpace)
  }

  /** A heading line with text of its own after the marker. */
  predicate TitledHeading(line: string) {
    OpensHeading(line, false) && TextStart(line) < |line|
  }

  /** A heading line opens with `#`, so it is never all whitespace. */
  lemma HeadingNotBlank(line: string)
    requires TitledHeading(line)
    ensures !AllSpace(line)
  {
    assert IsHash(line[0]);
  }

  /** Index of the first line of `lines` that is not all whitespace, or `|lines|`. */
  function FirstNonBlankLine(lines: seq<string>): (j: nat)
    ensures j <= |lines|
    ensures forall k :: 0 <= k < j ==> AllSpace(lines[k])
    ensures j < |lines| ==> !AllSpace(lines[j])
  {
    if lines == [] || !AllSpace(lines[0]) then 0 else 1 + FirstNonBlankLine(lines[1..])
  }

  /** Index of the last non-empty line of `lines`, if there is one. */
  function LastNonEmpty(lines: seq<string>): (k: Option<nat>)
    ensures k.Some? ==> k.value < |lines| && lines[k.value] != []
    ensures k.Some? ==> forall i :: k.value < i < |lines| ==> lines[i] == []
    ensures k.None? ==> forall i :: 0 <= i < |lines| ==> lines[i] == []
  {
    if lines == [] then None
    else if lines[|lines| - 1] != [] then Some(|lines| - 1)
    else LastNonEmpty(lines[..|lines| - 1])
  }

  /** `t` is how one of `lines` ends. */
  predicate EndsSomeLine(lines: seq<string>, t: string) {
    exists k :: 0 <= k < |lines| && EndsWith(lines[k], t)
  }

  lemma EndsSomeLineShift(lines: seq<string>, d: nat)
    requires d <= |lines|
    ensures forall t :: EndsSomeLine(lines[d..], t) ==> EndsSomeLine(lines, t)
  {
    forall t | EndsSomeLine(lines[d..], t)
      ensures EndsSomeLine(lines, t)
    {
      var k :| 0 <= k < |lines[d..]| && EndsWith(lines[d..][k], t);
      assert lines[d + k] == lines[d..][k];
    }
  }

  /**
   * What `\s+(.+)$` matches after a marker line `line` that has nothing but
   * whitespace after its `#` run: the greedy `\s+` runs on across the line
   * breaks, so the text is the next line that is not all whitespace, less its
   * leading whitespace; when nothing but whitespace is left, `\s+` gives back
   * the last character that is not a line break, provided it lies past the
   * first whitespace character. The second component is how many of the
   * following lines the match uses up.
   */
  function AfterBareMarker(line: string, rest: seq<string>): (m: (Option<string>, nat))
    ensures m.1 <= |rest|
    ensures m.0.Some? ==> m.0.value != []
  {
    var j := FirstNonBlankLine(rest);
    if j < |rest| then (Some(rest[j][RunLength(rest[j], IsSpace)..]), j + 1)
    else
      match LastNonEmpty(rest)
      case Some(k) => (Some([rest[k][|rest[k]| - 1]]), |rest|)
      case None => (if |line| >= RunLength(line, IsHash) + 2 then Some([line[|line| - 1]]) else None, |rest|)
  }

  /** The text a bare marker takes ends one of the lines it uses up, or the marker line itself. */
  lemma AfterBareMarkerEnds(line: string, rest: seq<string>)
    ensures var m := AfterBareMarker(line, rest);
      m.0.Some? ==> EndsWith(line, m.0.value) || exists k :: 0 <= k < m.1 && EndsWith(rest[k], m.0.value)
  {
    var j := FirstNonBlankLine(rest);
    if j < |rest| {
      SuffixEnds(rest[j], RunLength(rest[j], IsSpace));
    } else if LastNonEmpty(rest).Some? {
      var k := LastNonEmpty(rest).value;
      assert EndsWith(rest[k], [rest[k][|rest[k]| - 1]]);
    } else {
      assert |line| >= 1 ==> EndsWith(line, [line[|line| - 1]]);
    }
  }

  lemma SuffixEnds(s: string, i: nat)
    requires i <= |s|
    ensures EndsWith(s, s[i..])
  {
  }

  /**
   * The groups `(.+)` that `re.findall(r'^#{1,6}\s+(.+)$', s, re.MULTILINE)`
   * returns, over the lines of `s`: a heading line with text after the
   * whitespace gives that text; a bare marker takes its text from the lines
   * after it, and the search goes on after the lines it used up.
   */
  function HeadingTextsOf(lines: seq<string>): (r: seq<string>)
    ensures |r| <= |lines|
  {
    if lines == [] then []
    else if !OpensHeading(lines[0], |lines| > 1) then HeadingTextsOf(lines[1..])
    else if TextStart(lines[0]) < |lines[0]| then [lines[0][TextStart(lines[0])..]] + HeadingTextsOf(lines[1..])
    else
      var m := AfterBareMarker(lines[0], lines[1..]);
      (if m.0.Some? then [m.0.value] else []) + HeadingTextsOf(lines[1..][m.1..])
  }

  /** Every heading text found is a non-empty ending of one of the lines. */
  lemma {:induction false} HeadingTextsEndLines(lines: seq<string>)
    ensures forall t :: t in HeadingTextsOf(lines) ==> t != [] && EndsSomeLine(lines, t)
    decreases |lines|
  {
    if lines != [] {
      var line := lines[0];
      var rest := lines[1..];
      EndsSomeLineShift(lines, 1);
      if !OpensHeading(line, |lines| > 1) {
        HeadingTextsEndLines(rest);
      } else if TextStart(line) < |line| {
        HeadingTextsEndLines(rest);
        SuffixEnds(lines[0], TextStart(line));
      } else {
        var m := AfterBareMarker(line, rest);
        HeadingTextsEndLines(rest[m.1..]);
        assert rest[m.1..] == lines[m.1 + 1..];
        EndsSomeLineShift(lines, m.1 + 1);
        AfterBareMarkerEnds(line, rest);
        if m.0.Some? && !EndsWith(line, m.0.value) {
          var k :| 0 <= k < m.1 && EndsWith(rest[k], m.0.value);
          assert lines[k + 1] == rest[k];
        }
      }
    }
  }

  /** `re.findall(r'^#{1,6}\s+(.+)$', s, re.MULTILINE)`. */
  function HeadingTexts(s: string): (r: seq<string>)
    ensures |r| <= Count(s, "\n") + 1
    ensures forall t :: t in r ==> t != [] && EndsSomeLine(Lines(s), t)
  {
    HeadingTextsEndLines(Lines(s));
    HeadingTextsOf(Lines(s))
  }

  /** Some heading text in `r` ends with `x`. */
  predicate FoundIn(r: seq<string>, x: string) {
    exists t :: t in r && EndsWith(t, x)
  }

  lemma FoundAtHead(t: string, r: seq<string>, x: string)
    requires EndsWith(t, x)
    ensures FoundIn([t] + r, x)
  {
    assert t in [t] + r;
  }

  lemma FoundInTail(a: seq<string>, r: seq<string>, x: string)
    requires FoundIn(r, x)
    ensures FoundIn(a + r, x)
  {
    var t :| t in r && EndsWith(t, x);
    assert t in a + r;
  }

  /**
   * The text of every heading line that has one ends some heading text found:
   * it is found as it is, or, when the line is the first one after a bare
   * marker that is not all whitespace, the whole line is.
   */
  lemma {:induction false} HeadingTextFound(lines: seq<string>, k: nat)
    requires k < |lines| && TitledHeading(lines[k])
    ensures FoundIn(HeadingTextsOf(lines), lines[k][TextStart(lines[k])..])
    decreases |lines|
  {
    if k == 0 {
      FoundOnOwnLine(lines);
    } else {
      assert lines[1..][k - 1] == lines[k];
      if !OpensHeading(lines[0], |lines| > 1) || TextStart(lines[0]) < |lines[0]| {
        HeadingTextFound(lines[1..], k - 1);
        FoundPastFirst(lines, k);
      } else {
        var m := AfterBareMarker(lines[0], lines[1..]);
        if k - 1 < m.1 {
          FoundAfterBare(lines, k);
        } else {
          assert lines[1..][m.1..][k - 1 - m.1] == lines[k];
          HeadingTextFound(lines[1..][m.1..], k - 1 - m.1);
          FoundPastBare(lines, k);
        }
      }
    }
  }

  lemma FoundOnOwnLine(lines: seq<string>)
    requires lines != [] && TitledHeading(lines[0])
    ensures FoundIn(HeadingTextsOf(lines), lines[0][TextStart(lines[0])..])
  {
    var mine := lines[0][TextStart(lines[0])..];
    SuffixEnds(mine, 0);
    FoundAtHead(mine, HeadingTextsOf(lines[1..]), mine);
    HeadingTextsOwn(lines);
  }

  lemma FoundPastFirst(lines: seq<string>, k: nat)
    requires 0 < k < |lines|
    requires !OpensHeading(lines[0], |lines| > 1) || TextStart(lines[0]) < |lines[0]|
    requires FoundIn(HeadingTextsOf(lines[1..]), lines[k][TextStart(lines[k])..])
    ensures FoundIn(HeadingTextsOf(lines), lines[k][TextStart(lines[k])..])
  {
    if !OpensHeading(lines[0], |lines| > 1) {
      HeadingTextsSkip(lines);
    } else {
      FoundInTail([lines[0][TextStart(lines[0])..]], HeadingTextsOf(lines[1..]), lines[k][TextStart(lines[k])..]);
      HeadingTextsOwn(lines);
    }
  }

  lemma FoundAfterBare(lines: seq<string>, k: nat)
    requires 0 < k < |lines| && TitledHeading(lines[k])
    requires OpensHeading(lines[0], |lines| > 1) && TextStart(lines[0]) == |lines[0]|
    requires k - 1 < AfterBareMarker(lines[0], lines[1..]).1
    ensures FoundIn(HeadingTextsOf(lines), lines[k][TextStart(lines[k])..])
  {
    var rest := lines[1..];
    var used := AfterBareMarker(lines[0], rest).1;
    assert rest[k - 1] == lines[k];
    BareMarkerTakesLine(lines[0], rest, k - 1);
    SuffixEnds(lines[k], TextStart(lines[k]));
    FoundAtHead(lines[k], HeadingTextsOf(rest[used..]), lines[k][TextStart(lines[k])..]);
    HeadingTextsBareTakes(lines, lines[k], used);
  }

  lemma HeadingTextsBareTakes(lines: seq<string>, t: string, used: nat)
    requires lines != [] && OpensHeading(lines[0], |lines| > 1) && TextStart(lines[0]) == |lines[0]|
    requires AfterBareMarker(lines[0], lines[1..]) == (Some(t), used)
    ensures HeadingTextsOf(lines) == [t] + HeadingTextsOf(lines[1..][used..])
  {
  }

  lemma FoundPastBare(lines: seq<string>, k: nat)
    requires 0 < k < |lines|
    requires OpensHeading(lines[0], |lines| > 1) && TextStart(lines[0]) == |lines[0]|
    requires FoundIn(HeadingTextsOf(lines[1..][AfterBareMarker(lines[0], lines[1..]).1..]), lines[k][TextStart(lines[k])..])
    ensures FoundIn(HeadingTextsOf(lines), lines[k][TextStart(lines[k])..])
  {
    var m := AfterBareMarker(lines[0], lines[1..]);
    var taken := if m.0.Some? then [m.0.value] else [];
    FoundInTail(taken, HeadingTextsOf(lines[1..][m.1..]), lines[k][TextStart(lines[k])..]);
    HeadingTextsBare(lines);
  }

  /** A bare `#` takes its heading text from the next line that is not blank. */
  lemma BareMarkerReadsOn()
    ensures HeadingTextsOf(["#", "", "Plan"]) == ["Plan"]
  {
    BareHash();
    assert !AllSpace("Plan") by {
      assert !IsSpace("Plan"[0]);
    }
    assert FirstNonBlankLine(["", "Plan"]) == 1 by {
      assert ["", "Plan"][1..] == ["Plan"];
    }
    assert AfterBareMarker("#", ["", "Plan"]) == (Some("Plan"), 2);
    HeadingTextsBareTakes(["#", "", "Plan"], "Plan", 2);
    assert ["#", "", "Plan"][1..][2..] == [];
  }

  /** A bare marker takes a whole heading line after it, markers included, and that line opens no heading of its own. */
  lemma BareMarkerTakesHeading()
    ensures HeadingTextsOf(["#", "## Title"]) == ["## Title"]
  {
    BareHash();
    TitleLineTaken();
    HeadingTextsBareTakes(["#", "## Title"], "## Title", 1);
    assert ["#", "## Title"][1..][1..] == [];
  }

  lemma TitleLineTaken()
    ensures AfterBareMarker("#", ["## Title"]) == (Some("## Title"), 1)
  {
    assert !AllSpace("## Title") by {
      assert !IsSpace("## Title"[0]);
    }
    assert FirstNonBlankLine(["## Title"]) == 0;
    assert RunLength("## Title", IsSpace) == 0;
    assert "## Title"[0..] == "## Title";
  }

  /** The line "#" is a one-level marker with no text after it. */
  lemma BareHash()
    ensures RunLength("#", IsHash) == 1 && TextStart("#") == 1
    ensures OpensHeading("#", true)
  {
    assert "#"[1..] == [];
  }

  /** A line that opens no heading adds nothing. */
  lemma HeadingTextsSkip(lines: seq<string>)
    requires lines != [] && !OpensHeading(lines[0], |lines| > 1)
    ensures HeadingTextsOf(lines) == HeadingTextsOf(lines[1..])
  {
  }

  /** A heading line with text of its own adds that text. */
  lemma HeadingTextsOwn(lines: seq<string>)
    requires lines != [] && OpensHeading(lines[0], |lines| > 1) && TextStart(lines[0]) < |lines[0]|
    ensures HeadingTextsOf(lines) == [lines[0][TextStart(lines[0])..]] + HeadingTextsOf(lines[1..])
  {
  }

  /** A bare marker adds what it takes from the lines after it, and the search resumes past them. */
  lemma HeadingTextsBare(lines: seq<string>)
    requires lines != [] && OpensHeading(lines[0], |lines| > 1) && TextStart(lines[0]) == |lines[0]|
    ensures var m := AfterBareMarker(lines[0], lines[1..]);
      HeadingTextsOf(lines) == (if m.0.Some? then [m.0.value] else []) + HeadingTextsOf(lines[1..][m.1..])
  {
  }

  /** Among the lines a bare marker uses up, a heading line can only be the last, and it is taken whole. */
  lemma BareMarkerTakesLine(line: string, rest: seq<string>, i: nat)
    requires i < AfterBareMarker(line, rest).1 && TitledHeading(rest[i])
    ensures AfterBareMarker(line, rest).0 == Some(rest[i])
  {
    HeadingNotBlank(rest[i]);
    NoLeadingSpace(rest[i]);
  }

  /** A heading line has no whitespace before its `#`. */
  lemma NoLeadingSpace(line: string)
    requires TitledHeading(line)
    ensures line[RunLength(line, IsSpace)..] == line
  {
    assert IsHash(line[0]);
  }

  // ---------------------------------------------------------------------------
  // Links: re.findall(r'\[.+?\]\(.+?\)', s)
  // ---------------------------------------------------------------------------

  /**
   * The first position `p >= from` where `pat` starts, provided no newline
   * comes before it: `.+?` cannot cross a line break.
   */
  function FindOnLine(s: string, from: nat, pat: string): (p: Option<nat>)
    requires pat != [] && pat[0] != '\n'
    ensures p.Some? ==> from <= p.value && p.value + |pat| <= |s| && StartsWith(s[p.value..], pat)
    decreases |s| - from
  {
    if from >= |s| then None
    else if StartsWith(s[from..], pat) then Some(from)
    else if s[from] == '\n' then None
    else FindOnLine(s, from + 1, pat)
  }

  /**
   * Where a link match starting at `i` ends, if one does. The lazy `.+?`
   * before `](` takes the first `](` after at least one character; once that
   * candidate finds no `)` on its line, no later candidate on the line can.
   */
  function LinkAt(s: string, i: nat): (e: Option<nat>)
    ensures e.Some? ==> i + 6 <= e.value <= |s|
  {
    if i + 1 >= |s| || s[i] != '[' || s[i + 1] == '\n' then None
    else
      match FindOnLine(s, i + 2, "](")
      case None => None
      case Some(j) =>
        if j + 2 >= |s| || s[j + 2] == '\n' then None
        else
          match FindOnLine(s, j + 3, ")")
          case None => None
          case Some(k) => Some(k + 1)
  }

  /** Non-overlapping link matches in `s[from..]`; each takes at least six characters. */
  function LinkCountFrom(s: string, from: nat): (n: nat)
    ensures from <= |s| ==> 6 * n <= |s| - from
    decreases |s| - from
  {
    if from >= |s| then 0
    else
      match LinkAt(s, from)
      case Some(e) => 1 + LinkCountFrom(s, e)
      case None => LinkCountFrom(s, from + 1)
  }

  /** `len(re.findall(r'\[.+?\]\(.+?\)', s))`. */
  function LinkCount(s: string): (n: nat)
    ensures 6 * n <= |s|
  {
    LinkCountFrom(s, 0)
  }

  // ---------------------------------------------------------------------------
  // Sentences and paragraphs
  // ---------------------------------------------------------------------------

  predicate IsTerminator(c: char) { c == '.' || c == '!' || c == '?' }

  /**
   * `len([p.strip() for p in re.split(r'[.!?]+', s) if p.strip()])`: there
   * is no sentence exactly when the text is nothing but whitespace and
   * terminators.
   */
  function SentenceCount(s: string): (n: nat)
    ensures n == 0 <==> SpaceOr(s, IsTerminator)
  {
    NoNonBlankPiece(s, IsTerminator);
    NonBlankCount(SplitOnRuns(s, IsTerminator))
  }

  /** `len(s.split('\n\n'))`: never zero, even for the empty text. */
  function ParagraphCount(s: string): (n: nat)
    ensures n == Count(s, "\n\n") + 1
  {
    |Split(s, "\n\n")|
  }

  /** `len(words) / len(sentences)` as an exact rational, and 0 without sentences. */
  function AverageLength(words: nat, sentences: nat): real {
    if sentences > 0 then (words as real) / (sentences as real) else 0.0
  }

  /** Comparing the average with a whole number `k` is comparing `words` with `k * sentences`. */
  lemma AverageVersusWhole(words: nat, sentences: nat, k: nat)
    requires sentences > 0
    ensures AverageLength(words, sentences) < k as real <==> words < k * sentences
    ensures AverageLength(words, sentences) > k as real <==> words > k * sentences
  {
    var a := AverageLength(words, sentences);
    var n := sentences as real;
    assert a * n == words as real;
    assert (k * sentences) as real == k as real * n;
    if a < k as real {
      assert a * n < k as real * n;
    } else {
      assert a * n >= k as real * n;
    }
    if a > k as real {
      assert a * n > k as real * n;
    } else {
      assert a * n <= k as real * n;
    }
  }
}
