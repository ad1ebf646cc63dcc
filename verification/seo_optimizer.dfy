/**
 * The SEO optimizer: a text and a keyword list in, an analysis out. The
 * analysis holds the word count, one statistics record per distinct keyword
 * (keyed by the keyword as given, in first-appearance order), readability and
 * structure figures, an ordered list of recommendations and a 0-100 score.
 *
 * Densities and average sentence lengths are exact rationals here; every
 * decision the optimizer takes on them is restated over integers by a lemma.
 */
module SeoOptimizer {
  import opened Text
  import opened Markdown
  import opened OrderedMaps

  // ---------------------------------------------------------------------------
  // Words
  // ---------------------------------------------------------------------------

  /** `_count_words`: the `\w` runs of the lower-cased text, which are as many as those of the text itself. */
  function CountWords(content: string): (n: nat)
    ensures n == |Words(content)|
    ensures n <= |content|
  {
    WordsOfLower(content);
    |Words(Lower(content))|
  }

  // ---------------------------------------------------------------------------
  // Keywords
  // ---------------------------------------------------------------------------

  datatype Status = Missing | TooLow | TooHigh | Optimal

  /** `count / total_words * 100`, or 0 for a text without words. */
  function Density(count: nat, words: nat): real {
    if words > 0 then (count as real) / (words as real) * 100.0 else 0.0
  }

  /**
   * `_assess_keyword_usage`, against the ideal density range of 1.0 % to
   * 2.5 %: a keyword that occurs is optimal exactly inside the range, both
   * ends included, and otherwise too rare or too frequent by the side it
   * falls on.
   */
  function AssessKeywordUsage(density: real, count: nat): (st: Status)
    ensures st == Missing <==> count == 0
    ensures st == TooLow <==> count > 0 && density < 1.0
    ensures st == TooHigh <==> count > 0 && density > 2.5
    ensures st == Optimal <==> count > 0 && 1.0 <= density <= 2.5
  {
    if count == 0 then Missing
    else if density < 1.0 then TooLow
    else if density > 2.5 then TooHigh
    else Optimal
  }

  /**
   * The status over integers: a keyword is too rare when it makes up less
   * than one word in a hundred, too frequent when it makes up more than one
   * in forty; both boundaries are optimal. A keyword found in a text without
   * words (it is all punctuation, say) is too rare.
   */
  lemma StatusByCounts(count: nat, words: nat)
    ensures AssessKeywordUsage(Density(count, words), count) ==
      if count == 0 then Missing
      else if words == 0 || 100 * count < words then TooLow
      else if 40 * count > words then TooHigh
      else Optimal
  {
    if words > 0 && count > 0 {
      DensityBelowOne(count, words);
      DensityAboveLimit(count, words);
    }
  }

  lemma DensityBelowOne(count: nat, words: nat)
    requires words > 0
    ensures Density(count, words) < 1.0 <==> 100 * count < words
  {
    DensityScaled(count, words);
    ScaledLess(Density(count, words), 1.0, words as real);
  }

  lemma DensityAboveLimit(count: nat, words: nat)
    requires words > 0
    ensures Density(count, words) > 2.5 <==> 40 * count > words
  {
    var w := words as real;
    DensityScaled(count, words);
    ScaledLess(2.5, Density(count, words), w);
    assert 2.5 * w < 100.0 * (count as real) <==> w < 40.0 * (count as real);
  }

  lemma DensityScaled(count: nat, words: nat)
    requires words > 0
    ensures Density(count, words) * (words as real) == 100.0 * (count as real)
  {
    var w := words as real;
    var q := (count as real) / w;
    assert q * w == count as real;
    assert q * 100.0 * w == (q * w) * 100.0;
  }

  lemma ScaledLess(a: real, b: real, w: real)
    requires w > 0.0
    ensures a < b <==> a * w < b * w
  {
    if a < b {
      assert (b - a) * w > 0.0;
    } else {
      assert (a - b) * w >= 0.0;
    }
  }

  /** The statistics kept for one keyword. */
  datatype KeywordStat = KeywordStat(
    count: nat,
    density: real,
    inFirstParagraph: bool,
    inHeadings: bool,
    status: Status)

  /**
   * `_check_keyword_in_headings`: the keyword occurs in the lower-cased text
   * of some heading found. A heading line whose own text holds the keyword
   * is enough, and a heading found always holds it within one line.
   */
  predicate InHeadings(content: string, keyword: string)
    ensures
      (exists k :: 0 <= k < |Lines(content)| && TitledHeading(Lines(content)[k])
        && Contains(Lower(Lines(content)[k][TextStart(Lines(content)[k])..]), keyword))
      ==> InHeadings(content, keyword)
    ensures
      InHeadings(content, keyword) ==>
      exists k :: 0 <= k < |Lines(content)| && Contains(Lower(Lines(content)[k]), keyword)
  {
    HeadingMentionsByLine(content, keyword);
    exists h :: h in HeadingTexts(content) && Contains(Lower(h), keyword)
  }

  /** The two directions of `InHeadings`, stated over the heading texts found. */
  lemma HeadingMentionsByLine(content: string, keyword: string)
    ensures
      (exists k :: 0 <= k < |Lines(content)| && TitledHeading(Lines(content)[k])
        && Contains(Lower(Lines(content)[k][TextStart(Lines(content)[k])..]), keyword))
      ==> exists h :: h in HeadingTexts(content) && Contains(Lower(h), keyword)
    ensures
      (exists h :: h in HeadingTexts(content) && Contains(Lower(h), keyword)) ==>
      exists k :: 0 <= k < |Lines(content)| && Contains(Lower(Lines(content)[k]), keyword)
  {
    var lines := Lines(content);
    HeadingTextsEndLines(lines);
    forall h | h in HeadingTexts(content) && Contains(Lower(h), keyword)
      ensures exists k :: 0 <= k < |lines| && Contains(Lower(lines[k]), keyword)
    {
      var k :| 0 <= k < |lines| && EndsWith(lines[k], h);
      ContainsInEnding(lines[k], h, keyword);
    }
    forall k | 0 <= k < |lines| && TitledHeading(lines[k]) && Contains(Lower(lines[k][TextStart(lines[k])..]), keyword)
      ensures exists h :: h in HeadingTexts(content) && Contains(Lower(h), keyword)
    {
      HeadingTextFound(lines, k);
      var t :| t in HeadingTextsOf(lines) && EndsWith(t, lines[k][TextStart(lines[k])..]);
      ContainsInEnding(t, lines[k][TextStart(lines[k])..], keyword);
    }
  }

  /** The record `_analyze_keywords` builds for one keyword. */
  function StatOf(content: string, keyword: string): (st: KeywordStat)
    ensures st.status == Missing <==> !Contains(Lower(content), Lower(keyword))
    ensures st.inFirstParagraph ==> Contains(Lower(content), Lower(keyword))
  {
    var lower := Lower(content);
    var kl := Lower(keyword);
    var count := Count(lower, kl);
    var density := Density(count, |Words(lower)|);
    CountPositiveIffContains(lower, kl);
    var first := PyPrefix(lower, 500);
    assert Contains(first, kl) ==> Contains(lower, kl) by {
      if Contains(first, kl) {
        ContainsInPrefix(lower, |first|, kl);
      }
    }
    KeywordStat(count, density, Contains(first, kl), InHeadings(content, kl), AssessKeywordUsage(density, count))
  }

  /**
   * `keyword_analysis`: one record per distinct keyword, keyed by the keyword
   * as given, in order of first appearance.
   */
  function KeywordTable(content: string, keywords: seq<string>): (t: OrderedMap<string, KeywordStat>)
    ensures t.Valid()
    ensures t.keys == Dedup(keywords)
  {
    OrderedMap(Dedup(keywords), Stats(content, keywords))
  }

  /** The statistics of every listed keyword, by keyword. */
  function Stats(content: string, keywords: seq<string>): (m: map<string, KeywordStat>)
    ensures m.Keys == set k | k in keywords
  {
    map k | k in keywords :: StatOf(content, k)
  }

  lemma StatsStep(content: string, keywords: seq<string>, k: string)
    ensures Stats(content, keywords + [k]) == Stats(content, keywords)[k := StatOf(content, k)]
  {
    var m1 := Stats(content, keywords + [k]);
    var m2 := Stats(content, keywords)[k := StatOf(content, k)];
    assert m1.Keys == m2.Keys;
    forall x | x in m1
      ensures m1[x] == m2[x]
    {
      assert m1[x] == StatOf(content, x);
      if x != k {
        assert x in keywords;
      }
    }
  }

  /** Recording one more keyword is an assignment into the table. */
  lemma KeywordTableStep(content: string, keywords: seq<string>, k: string)
    ensures KeywordTable(content, keywords + [k]) == KeywordTable(content, keywords).Put(k, StatOf(content, k))
  {
    DedupStep(keywords, k);
    StatsStep(content, keywords, k);
  }

  /** A keyword listed twice gives one entry, so one set of messages and one penalty. */
  lemma DuplicateKeywordCollapses(content: string, keywords: seq<string>, k: string)
    requires k in keywords
    ensures KeywordTable(content, keywords + [k]) == KeywordTable(content, keywords)
  {
    KeywordTableStep(content, keywords, k);
    assert KeywordTable(content, keywords).values[k] == StatOf(content, k);
  }

  /** Keywords differing only in case are separate entries with the same statistics. */
  lemma CaseVariantsAreSeparate(content: string)
    ensures var t := KeywordTable(content, ["AI", "ai"]);
      t.keys == ["AI", "ai"] && t.values["AI"] == t.values["ai"]
  {
    CaseVariantKeys();
    CaseVariantStats(content);
  }

  lemma CaseVariantKeys()
    ensures Dedup(["AI", "ai"]) == ["AI", "ai"]
  {
    var ks: seq<string> := ["AI", "ai"];
    assert ks == [] + ["AI"] + ["ai"];
    DedupStep([], "AI");
    DedupStep(["AI"], "ai");
  }

  lemma CaseVariantStats(content: string)
    ensures "AI" in Stats(content, ["AI", "ai"]) && "ai" in Stats(content, ["AI", "ai"])
    ensures Stats(content, ["AI", "ai"])["AI"] == Stats(content, ["AI", "ai"])["ai"]
  {
    assert Lower("AI") == "ai";
    assert Lower("ai") == "ai";
    StatOfIgnoresCase(content, "AI", "ai");
  }

  /** The statistics depend on the keyword only through its lower-case form. */
  lemma StatOfIgnoresCase(content: string, a: string, b: string)
    requires Lower(a) == Lower(b)
    ensures StatOf(content, a) == StatOf(content, b)
  {
  }

  lemma KeywordTablePrefixStep(content: string, keywords: seq<string>, i: nat)
    requires i < |keywords|
    ensures KeywordTable(content, keywords[..i + 1])
         == KeywordTable(content, keywords[..i]).Put(keywords[i], StatOf(content, keywords[i]))
  {
    assert keywords[..i + 1] == keywords[..i] + [keywords[i]];
    KeywordTableStep(content, keywords[..i], keywords[i]);
  }

  /** Counting is by substring, not by word: "AI" is found once inside "said", which makes it too dense. */
  lemma CountIsNotWordAware()
    ensures StatOf("said", "AI").count == 1
    ensures StatOf("said", "AI").status == TooHigh
  {
    assert Lower("said") == "said";
    assert Lower("AI") == "ai";
    assert Count("said", "ai") == 1 by {
      assert "said"[..2][0] == 's';
      assert "said"[1..] == "aid";
      assert "aid"[..2] == "ai";
      FindStep("said", "ai");
      assert Find("aid", "ai") == 0;
      assert Find("said", "ai") == 1;
      assert "said"[3..] == "d";
      assert Find("d", "ai") == -1;
      assert Count("d", "ai") == 0;
    }
    assert |Words("said")| == 1 by {
      WordsOfLower("said");
      assert RunLength("said", IsWordChar) == 4;
    }
    StatusByCounts(1, 1);
  }

  /** `_analyze_keywords`. */
  method AnalyzeKeywords(content: string, keywords: seq<string>) returns (table: OrderedMap<string, KeywordStat>)
    ensures table == KeywordTable(content, keywords)
  {
    table := Empty();
    assert table == KeywordTable(content, keywords[..0]) by {
      assert keywords[..0] == [];
      assert Stats(content, []) == map[];
    }
    for i := 0 to |keywords|
      invariant table == KeywordTable(content, keywords[..i])
    {
      var keyword := keywords[i];
      table := table.Put(keyword, StatOf(content, keyword));
      KeywordTablePrefixStep(content, keywords, i);
    }
    assert keywords[..|keywords|] == keywords;
  }

  // ---------------------------------------------------------------------------
  // Readability and structure
  // ---------------------------------------------------------------------------

  datatype Level = Easy | Moderate | Difficult

  datatype Readability = Readability(
    sentenceCount: nat,
    avgSentenceLength: real,
    level: Level,
    paragraphCount: nat)

  /** `_analyze_readability`. */
  function AnalyzeReadability(content: string): (r: Readability)
    ensures r.paragraphCount >= 1
    ensures r.paragraphCount == Count(content, "\n\n") + 1
  {
    var sentences := SentenceCount(content);
    var avg := AverageLength(|Words(content)|, sentences);
    var level := if avg < 15.0 then Easy else if avg < 20.0 then Moderate else Difficult;
    Readability(sentences, avg, level, ParagraphCount(content))
  }

  /** The level over integers: easy below 15 words a sentence, moderate below 20; a text without sentences is easy. */
  lemma LevelByCounts(content: string)
    ensures var words := |Words(content)|;
      var sentences := SentenceCount(content);
      AnalyzeReadability(content).level ==
        if sentences == 0 || words < 15 * sentences then Easy
        else if words < 20 * sentences then Moderate
        else Difficult
  {
    var words := |Words(content)|;
    var sentences := SentenceCount(content);
    if sentences > 0 {
      AverageVersusWhole(words, sentences, 15);
      AverageVersusWhole(words, sentences, 20);
    }
  }

  datatype Structure = Structure(
    h1Count: nat,
    h2Count: nat,
    h3Count: nat,
    hasLists: bool,
    linkCount: nat,
    hasProperHierarchy: bool)

  /** `_analyze_structure`: heading counts by level, lists, links, and whether the hierarchy is proper. */
  function AnalyzeStructure(content: string): (s: Structure)
    ensures s.h1Count + s.h2Count + s.h3Count <= Count(content, "\n") + 1
    ensures 6 * s.linkCount <= |content|
  {
    LevelCountsFitLines(Lines(content));
    var h1 := HeadingCount(content, 1);
    var h2 := HeadingCount(content, 2);
    Structure(h1, h2, HeadingCount(content, 3), HasList(content), LinkCount(content), h1 == 1 && h2 >= 2)
  }

  /** A structure record as `_analyze_structure` builds it. */
  predicate HierarchyConsistent(s: Structure) {
    s.hasProperHierarchy <==> (s.h1Count == 1 && s.h2Count >= 2)
  }

  // ---------------------------------------------------------------------------
  // Recommendations
  // ---------------------------------------------------------------------------

  const ShortContentMessage := "Content is too short. Aim for at least 800 words for better SEO."
  const AddH1Message := "Add an H1 heading (title)."
  const OneH1Message := "Use only one H1 heading."
  const AddH2Message := "Add more H2 subheadings to improve structure."
  const ListsMessage := "Consider adding bullet points or lists for better readability."
  const LinksMessage := "Add internal and external links to improve SEO."
  const SimplifyMessage := "Simplify sentence structure for better readability."

  function StatusMessage(keyword: string, status: Status): (r: seq<string>)
    ensures |r| <= 1 && (r == [] <==> status == Optimal)
  {
    match status
    case Missing => ["Keyword '" + keyword + "' is not present. Add it naturally."]
    case TooLow => ["Keyword '" + keyword + "' density is too low. Use it more frequently."]
    case TooHigh => ["Keyword '" + keyword + "' density is too high. Reduce usage to avoid keyword stuffing."]
    case Optimal => []
  }

  /** The messages about one keyword: its status, then the first paragraph, then the headings. */
  function KeywordMessages(keyword: string, st: KeywordStat): (r: seq<string>)
    ensures |r| <= 3
  {
    StatusMessage(keyword, st.status) + PlacementMessage(keyword, st) + HeadingMessage(keyword, st)
  }

  function PlacementMessage(keyword: string, st: KeywordStat): seq<string> {
    if st.inFirstParagraph then [] else ["Include '" + keyword + "' in the first paragraph."]
  }

  function HeadingMessage(keyword: string, st: KeywordStat): seq<string> {
    if st.inHeadings then [] else ["Use '" + keyword + "' in at least one heading."]
  }

  /** The messages about every keyword of the table, in its key order. */
  function AllKeywordMessages(keys: seq<string>, values: map<string, KeywordStat>): seq<string>
    requires forall k :: k in keys ==> k in values
  {
    if keys == [] then []
    else
      var last := keys[|keys| - 1];
      AllKeywordMessages(keys[..|keys| - 1], values) + KeywordMessages(last, values[last])
  }

  function LengthMessages(wordCount: nat): seq<string> {
    if wordCount < 800 then [ShortContentMessage] else []
  }

  function StructureMessages(s: Structure, r: Readability): (m: seq<string>)
    ensures |m| <= 5
  {
    H1Message(s) + H2Message(s) + ListMessage(s) + LinkMessage(s) + ReadabilityMessage(r)
  }

  function H1Message(s: Structure): seq<string> {
    if s.h1Count == 0 then [AddH1Message] else if s.h1Count > 1 then [OneH1Message] else []
  }

  function H2Message(s: Structure): seq<string> {
    if s.h2Count < 2 then [AddH2Message] else []
  }

  function ListMessage(s: Structure): seq<string> {
    if s.hasLists then [] else [ListsMessage]
  }

  function LinkMessage(s: Structure): seq<string> {
    if s.linkCount < 2 then [LinksMessage] else []
  }

  function ReadabilityMessage(r: Readability): seq<string> {
    if r.level == Difficult then [SimplifyMessage] else []
  }

  /** `_generate_recommendations`: length, then each keyword in table order, then structure and readability. */
  function Recommendations(wordCount: nat, table: OrderedMap<string, KeywordStat>, s: Structure, r: Readability): seq<string>
    requires table.Valid()
  {
    LengthMessages(wordCount) + AllKeywordMessages(table.keys, table.values) + StructureMessages(s, r)
  }

  lemma {:induction false} AllKeywordMessagesBound(keys: seq<string>, values: map<string, KeywordStat>)
    requires forall k :: k in keys ==> k in values
    ensures |AllKeywordMessages(keys, values)| <= 3 * |keys|
  {
    if keys != [] {
      AllKeywordMessagesBound(keys[..|keys| - 1], values);
    }
  }

  /** One more key of the table adds that key's messages at the end. */
  lemma AllKeywordMessagesStep(keys: seq<string>, values: map<string, KeywordStat>, i: nat)
    requires i < |keys| && forall k :: k in keys ==> k in values
    ensures AllKeywordMessages(keys[..i + 1], values)
      == AllKeywordMessages(keys[..i], values) + KeywordMessages(keys[i], values[keys[i]])
  {
    assert keys[..i + 1][..i] == keys[..i];
  }

  /** At most six messages that are not about a keyword, and at most three per distinct keyword. */
  lemma RecommendationsBound(wordCount: nat, table: OrderedMap<string, KeywordStat>, s: Structure, r: Readability)
    requires table.Valid()
    ensures |Recommendations(wordCount, table, s, r)| <= 6 + 3 * |table.keys|
  {
    AllKeywordMessagesBound(table.keys, table.values);
  }

  /** Appends the messages about one keyword, in the order the source appends them. */
  method AppendKeywordMessages(recs: seq<string>, keyword: string, st: KeywordStat) returns (out: seq<string>)
    ensures out == recs + KeywordMessages(keyword, st)
  {
    out := recs;
    if st.status == Missing {
      out := out + ["Keyword '" + keyword + "' is not present. Add it naturally."];
    } else if st.status == TooLow {
      out := out + ["Keyword '" + keyword + "' density is too low. Use it more frequently."];
    } else if st.status == TooHigh {
      out := out + ["Keyword '" + keyword + "' density is too high. Reduce usage to avoid keyword stuffing."];
    }
    assert out == recs + StatusMessage(keyword, st.status);
    ghost var done := StatusMessage(keyword, st.status);
    if !st.inFirstParagraph {
      out := out + ["Include '" + keyword + "' in the first paragraph."];
    }
    assert out == recs + done + PlacementMessage(keyword, st);
    ConcatAssoc(recs, done, PlacementMessage(keyword, st));
    done := done + PlacementMessage(keyword, st);
    if !st.inHeadings {
      out := out + ["Use '" + keyword + "' in at least one heading."];
    }
    assert out == recs + done + HeadingMessage(keyword, st);
    ConcatAssoc(recs, done, HeadingMessage(keyword, st));
  }

  /** Appends the heading, list, link and readability messages, in the order the source appends them. */
  method AppendStructureMessages(recs: seq<string>, s: Structure, r: Readability) returns (out: seq<string>)
    ensures out == recs + StructureMessages(s, r)
  {
    out := recs;
    if s.h1Count == 0 {
      out := out + [AddH1Message];
    } else if s.h1Count > 1 {
      out := out + [OneH1Message];
    }
    assert out == recs + H1Message(s);
    ghost var done := H1Message(s);
    if s.h2Count < 2 {
      out := out + [AddH2Message];
    }
    assert out == recs + done + H2Message(s);
    ConcatAssoc(recs, done, H2Message(s));
    done := done + H2Message(s);
    if !s.hasLists {
      out := out + [ListsMessage];
    }
    assert out == recs + done + ListMessage(s);
    ConcatAssoc(recs, done, ListMessage(s));
    done := done + ListMessage(s);
    if s.linkCount < 2 {
      out := out + [LinksMessage];
    }
    assert out == recs + done + LinkMessage(s);
    ConcatAssoc(recs, done, LinkMessage(s));
    done := done + LinkMessage(s);
    if r.level == Difficult {
      out := out + [SimplifyMessage];
    }
    assert out == recs + done + ReadabilityMessage(r);
    ConcatAssoc(recs, done, ReadabilityMessage(r));
  }

  method GenerateRecommendations(wordCount: nat, table: OrderedMap<string, KeywordStat>, s: Structure, r: Readability)
    returns (recs: seq<string>)
    requires table.Valid()
    ensures recs == Recommendations(wordCount, table, s, r)
  {
    recs := [];
    if wordCount < 800 {
      recs := recs + [ShortContentMessage];
    }
    var keys := table.keys;
    for i := 0 to |keys|
      invariant recs == LengthMessages(wordCount) + AllKeywordMessages(keys[..i], table.values)
    {
      var keyword := keys[i];
      var st := table.values[keyword];
      AllKeywordMessagesStep(keys, table.values, i);
      recs := AppendKeywordMessages(recs, keyword, st);
      ConcatAssoc(LengthMessages(wordCount), AllKeywordMessages(keys[..i], table.values), KeywordMessages(keyword, st));
    }
    assert keys[..|keys|] == keys;
    ghost var middle := AllKeywordMessages(keys, table.values);
    recs := AppendStructureMessages(recs, s, r);
    assert recs == LengthMessages(wordCount) + middle + StructureMessages(s, r);
  }

  // ---------------------------------------------------------------------------
  // Score
  // ---------------------------------------------------------------------------

  function WordPenalty(wordCount: nat): int {
    if wordCount < 500 then 30 else if wordCount < 800 then 15 else 0
  }

  /** 20 for a missing keyword, else 10 when not optimal; 5 more when it is not in the first paragraph. */
  function KeywordPenalty(st: KeywordStat): int {
    (if st.status == Missing then 20 else if st.status != Optimal then 10 else 0)
    + (if st.inFirstParagraph then 0 else 5)
  }

  function KeywordPenalties(keys: seq<string>, values: map<string, KeywordStat>): int
    requires forall k :: k in keys ==> k in values
  {
    if keys == [] then 0
    else
      var last := keys[|keys| - 1];
      KeywordPenalties(keys[..|keys| - 1], values) + KeywordPenalty(values[last])
  }

  function StructurePenalty(s: Structure): int {
    (if s.hasProperHierarchy then 0 else 10) + (if s.linkCount < 2 then 5 else 0)
  }

  /** `_calculate_seo_score`: 100 less the penalties, clamped to [0, 100]. */
  function SeoScore(wordCount: nat, table: OrderedMap<string, KeywordStat>, s: Structure): int
    requires table.Valid()
  {
    Max(0, Min(100, 100 - WordPenalty(wordCount) - KeywordPenalties(table.keys, table.values) - StructurePenalty(s)))
  }

  method CalculateSeoScore(wordCount: nat, table: OrderedMap<string, KeywordStat>, s: Structure) returns (score: int)
    requires table.Valid()
    ensures score == SeoScore(wordCount, table, s)
  {
    score := 100;
    if wordCount < 500 {
      score := score - 30;
    } else if wordCount < 800 {
      score := score - 15;
    }
    var keys := table.keys;
    for i := 0 to |keys|
      invariant score == 100 - WordPenalty(wordCount) - KeywordPenalties(keys[..i], table.values)
    {
      var st := table.values[keys[i]];
      assert keys[..i + 1][..i] == keys[..i];
      if st.status == Missing {
        score := score - 20;
      } else if st.status != Optimal {
        score := score - 10;
      }
      if !st.inFirstParagraph {
        score := score - 5;
      }
    }
    assert keys[..|keys|] == keys;
    if !s.hasProperHierarchy {
      score := score - 10;
    }
    if s.linkCount < 2 {
      score := score - 5;
    }
    score := Max(0, Min(100, score));
  }

  lemma {:induction false} KeywordPenaltiesBound(keys: seq<string>, values: map<string, KeywordStat>)
    requires forall k :: k in keys ==> k in values
    ensures 0 <= KeywordPenalties(keys, values) <= 25 * |keys|
  {
    if keys != [] {
      KeywordPenaltiesBound(keys[..|keys| - 1], values);
    }
  }

  /** The keyword penalties vanish exactly when every keyword is optimal and in the first paragraph. */
  lemma {:induction false} KeywordPenaltiesZero(keys: seq<string>, values: map<string, KeywordStat>)
    requires forall k :: k in keys ==> k in values
    ensures KeywordPenalties(keys, values) == 0 <==>
      forall k :: k in keys ==> values[k].status == Optimal && values[k].inFirstParagraph
  {
    if keys != [] {
      var init := keys[..|keys| - 1];
      KeywordPenaltiesZero(init, values);
      KeywordPenaltiesBound(init, values);
      assert keys == init + [keys[|keys| - 1]];
    }
  }

  /** The score is always in [0, 100]; without keywords it is at least 55. */
  lemma ScoreRange(wordCount: nat, table: OrderedMap<string, KeywordStat>, s: Structure)
    requires table.Valid()
    ensures 0 <= SeoScore(wordCount, table, s) <= 100
    ensures table.keys == [] ==> 55 <= SeoScore(wordCount, table, s)
  {
  }

  /**
   * A perfect 100 needs 800 words or more, every keyword optimal and in the
   * first paragraph, a proper hierarchy and at least two links.
   */
  lemma PerfectScoreIff(wordCount: nat, table: OrderedMap<string, KeywordStat>, s: Structure)
    requires table.Valid()
    ensures SeoScore(wordCount, table, s) == 100 <==>
      && wordCount >= 800
      && (forall k :: k in table.keys ==> table.values[k].status == Optimal && table.values[k].inFirstParagraph)
      && s.hasProperHierarchy
      && s.linkCount >= 2
  {
    KeywordPenaltiesBound(table.keys, table.values);
    KeywordPenaltiesZero(table.keys, table.values);
  }

  /** Two keyword tables that agree on status and first-paragraph placement for each key in order. */
  predicate SamePenaltyFields(keys: seq<string>, v1: map<string, KeywordStat>, v2: map<string, KeywordStat>)
    requires forall k :: k in keys ==> k in v1 && k in v2
  {
    forall k :: k in keys ==> v1[k].status == v2[k].status && v1[k].inFirstParagraph == v2[k].inFirstParagraph
  }

  lemma {:induction false} KeywordPenaltiesAgree(keys: seq<string>, v1: map<string, KeywordStat>, v2: map<string, KeywordStat>)
    requires forall k :: k in keys ==> k in v1 && k in v2
    requires SamePenaltyFields(keys, v1, v2)
    ensures KeywordPenalties(keys, v1) == KeywordPenalties(keys, v2)
  {
    if keys != [] {
      KeywordPenaltiesAgree(keys[..|keys| - 1], v1, v2);
    }
  }

  /**
   * The score ignores keyword counts, densities and heading placement, lists,
   * level-3 headings and readability: analyses that agree on everything else
   * score the same.
   */
  lemma ScoreIgnoresOtherFields(
    wordCount: nat,
    t1: OrderedMap<string, KeywordStat>, t2: OrderedMap<string, KeywordStat>,
    s1: Structure, s2: Structure)
    requires t1.Valid() && t2.Valid() && t1.keys == t2.keys
    requires SamePenaltyFields(t1.keys, t1.values, t2.values)
    requires HierarchyConsistent(s1) && HierarchyConsistent(s2)
    requires s1.h1Count == s2.h1Count && s1.h2Count == s2.h2Count && s1.linkCount == s2.linkCount
    ensures SeoScore(wordCount, t1, s1) == SeoScore(wordCount, t2, s2)
  {
    KeywordPenaltiesAgree(t1.keys, t1.values, t2.values);
  }

  // ---------------------------------------------------------------------------
  // The analysis
  // ---------------------------------------------------------------------------

  datatype SeoAnalysis = SeoAnalysis(
    wordCount: nat,
    keywordAnalysis: OrderedMap<string, KeywordStat>,
    readability: Readability,
    structure: Structure,
    recommendations: seq<string>,
    seoScore: int)

  /** The analysis `analyze_content` returns. */
  function Analysis(content: string, keywords: seq<string>): SeoAnalysis {
    var words := CountWords(content);
    var table := KeywordTable(content, keywords);
    var readability := AnalyzeReadability(content);
    var structure := AnalyzeStructure(content);
    SeoAnalysis(words, table, readability, structure,
      Recommendations(words, table, structure, readability),
      SeoScore(words, table, structure))
  }

  /** `analyze_content`: the record first, then its recommendations, then its score. */
  method AnalyzeContent(content: string, keywords: seq<string>) returns (analysis: SeoAnalysis)
    ensures analysis == Analysis(content, keywords)
  {
    var words := CountWords(content);
    var table := AnalyzeKeywords(content, keywords);
    analysis := SeoAnalysis(words, table, AnalyzeReadability(content), AnalyzeStructure(content), [], 0);
    var recs := GenerateRecommendations(words, table, analysis.structure, analysis.readability);
    analysis := analysis.(recommendations := recs);
    var score := CalculateSeoScore(words, table, analysis.structure);
    analysis := analysis.(seoScore := score);
  }

  /**
   * What every analysis satisfies: one entry per distinct keyword, a consistent
   * hierarchy flag, at most 6 + 3k recommendations, a score in [0, 100], and
   * a paragraph count of at least one.
   */
  lemma AnalysisWellFormed(content: string, keywords: seq<string>)
    ensures var a := Analysis(content, keywords);
      && a.keywordAnalysis.keys == Dedup(keywords)
      && (forall k :: k in keywords ==> a.keywordAnalysis.values[k] == StatOf(content, k))
      && HierarchyConsistent(a.structure)
      && |a.recommendations| <= 6 + 3 * |a.keywordAnalysis.keys|
      && 0 <= a.seoScore <= 100
      && a.readability.paragraphCount >= 1
  {
    var a := Analysis(content, keywords);
    RecommendationsBound(a.wordCount, a.keywordAnalysis, a.structure, a.readability);
  }
}
