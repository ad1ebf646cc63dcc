/**
 * The content scorer: a text and a content-type tag in, a report out. Every
 * dimension starts from a base and adds or subtracts fixed bonuses, each a
 * multiple of 0.5, so every score here is held in HALF-POINTS (5.0 is 10,
 * 10.0 is 20). The overall score is held in tenths (6.7 is 67).
 *
 * A dimension whose trigger tests `'x' in content.lower()` is a plain
 * substring test: "use" is found inside "because".
 */
module ContentScorer {
  import opened Text
  import opened Markdown

  // ---------------------------------------------------------------------------
  // Word tables
  // ---------------------------------------------------------------------------

  const StoryWords: seq<string> := ["story", "experience", "learned", "discovered", "realized"]
  const EmotionWords: seq<string> := ["amazing", "incredible", "excited", "surprised", "frustrated", "happy"]
  const IntroCues: seq<string> := ["introduction", "in this", "today"]
  const ConclusionCues: seq<string> := ["conclusion", "in summary", "to wrap up"]
  const TransitionWords: seq<string> := ["however", "therefore", "moreover", "furthermore", "additionally", "consequently"]
  const ActionWords: seq<string> := ["learn", "discover", "implement", "apply", "use", "try", "start", "begin"]
  const ActionPrompts: seq<string> := ["try", "start", "download", "sign up", "learn more", "get started"]
  const BoldWords: seq<string> := ["never", "always", "secret", "truth"]
  const Pronouns: seq<string> := ["you", "your", "we", "our"]
  const EngagementPrompts: seq<string> := ["what do you think", "share your", "comment below"]
  const CtaPhrases: seq<string> := [
    "comment", "share", "follow", "connect", "reach out",
    "let me know", "what do you think", "join", "learn more"
  ]

  /** A bonus of `halves` half-points when `cond` holds. */
  function Bonus(cond: bool, halves: int): int {
    if cond then halves else 0
  }

  /** The two code-point ranges of the emoji pattern: emoticons, and symbols and pictographs. */
  predicate IsEmoji(c: char) {
    ('\U{1F600}' <= c <= '\U{1F64F}') || ('\U{1F300}' <= c <= '\U{1F5FF}')
  }

  /** Words of at least four letters, all upper-case: `re.findall(r'\b[A-Z]{4,}\b', s)`. */
  predicate IsShouted(w: string) {
    |w| >= 4 && forall c :: c in w ==> IsUpper(c)
  }

  /** How many of the words are shouted: none exactly when no word is, all exactly when every word is. */
  function CountShouted(ws: seq<string>): (n: nat)
    ensures n <= |ws|
    ensures n == 0 <==> forall i :: 0 <= i < |ws| ==> !IsShouted(ws[i])
    ensures n == |ws| <==> forall i :: 0 <= i < |ws| ==> IsShouted(ws[i])
  {
    if ws == [] then 0 else Bonus(IsShouted(ws[0]), 1) + CountShouted(ws[1..])
  }

  /** The shouted words of two word lists add up. */
  lemma {:induction false} CountShoutedAppend(a: seq<string>, b: seq<string>)
    ensures CountShouted(a + b) == CountShouted(a) + CountShouted(b)
  {
    if a != [] {
      assert (a + b)[1..] == a[1..] + b;
      CountShoutedAppend(a[1..], b);
    } else {
      assert a + b == b;
    }
  }

  // ---------------------------------------------------------------------------
  // The dimensions, each in half-points
  // ---------------------------------------------------------------------------

  /** Engagement: base 5.0; the cap of 10.0 never binds, the score stays in [5.0, 9.0]. */
  function EngagementScore(content: string): (h: int)
    ensures 10 <= h <= 18
  {
    var lower := Lower(content);
    var raw := 10
      + Bonus(Contains(content, "?"), 2)
      + Bonus(ContainsAny(lower, StoryWords), 2)
      + Bonus(Contains(lower, "example") || Contains(lower, "for instance"), 1)
      + Bonus(DigitFollowedBy(content, "%") || DigitFollowedBy(content, " percent"), 2)
      + Bonus(ContainsAny(lower, EmotionWords), 1);
    Min(20, raw)
  }

  /** Structure: base 5.0, in [5.0, 10.0]. */
  function StructureScore(content: string): (h: int)
    ensures 10 <= h <= 20
  {
    var h2 := HeadingCount(content, 2);
    var raw := 10
      + (if h2 >= 3 then 4 else if h2 >= 2 then 2 else 0)
      + Bonus(HasList(content), 2)
      + Bonus(|Split(content, "\n\n")| >= 5, 2)
      + (if |content| > 500 then
           Bonus(ContainsAny(Lower(content[..200]), IntroCues), 1)
           + Bonus(ContainsAny(Lower(LastChars(content, 200)), ConclusionCues), 1)
         else 0);
    Min(20, raw)
  }

  /** Clarity: base 7.0, judged on words per sentence and transitions; in [5.0, 9.0]. */
  function ClarityScore(content: string): (h: int)
    ensures 10 <= h <= 18
  {
    var sentences := SentenceCount(content);
    var words := |Words(content)|;
    var avg := AverageLength(words, sentences);
    var lengthAdjustment :=
      if sentences == 0 then 0
      else
        (if avg > 25.0 then -4 else if avg > 20.0 then -2 else 0)
        + (if avg < 15.0 then 2 else 0);
    var raw := 14 + lengthAdjustment + Bonus(ContainsAny(Lower(content), TransitionWords), 2);
    Min(20, Max(0, raw))
  }

  /** Actionability: base 5.0; half a point per listed action word found, at most 2.0; in [5.0, 10.0]. */
  function ActionabilityScore(content: string): (h: int)
    ensures 10 <= h <= 20
  {
    var lower := Lower(content);
    var raw := 10
      + Min(4, CountContained(lower, ActionWords))
      + Bonus(Contains(lower, "step") || DigitFollowedBy(content, "."), 3)
      + Bonus(Contains(lower, "example") || Contains(lower, "here's how"), 2)
      + Bonus(ContainsAny(lower, ActionPrompts), 1);
    Min(20, raw)
  }

  /** Professionalism: base 8.0, less for exclamation marks and shouting, more for a title; in [5.0, 9.0]. */
  function ProfessionalismScore(content: string): (h: int)
    ensures 10 <= h <= 18
  {
    var exclamations := Count(content, "!");
    var raw := 16
      - (if exclamations > 5 then 4 else if exclamations > 3 then 2 else 0)
      - Bonus(CountShouted(Words(content)) > 3, 2)
      + Bonus(HeadingCount(content, 1) > 0, 2);
    Min(20, Max(0, raw))
  }

  /** The opening line: `content.split('\n')[0] if content else ""`. */
  function Opening(content: string): string {
    if content == [] then "" else FirstLine(content)
  }

  /** The hook before the cap: up to 11.0, which `min(10, ...)` brings back to 10.0. */
  function HookRaw(content: string): int {
    var first := Opening(content);
    10
    + Bonus(EndsWith(Strip(first), "?"), 4)
    + Bonus(DigitFollowedBy(first, "%"), 4)
    + Bonus(ContainsAny(Lower(first), BoldWords), 2)
    + Bonus(|first| < 100, 2)
  }

  /** Hook strength: judged on the opening line only; in [5.0, 10.0]. */
  function HookScore(content: string): (h: int)
    ensures 10 <= h <= 20
  {
    Min(20, HookRaw(content))
  }

  /** LinkedIn engagement potential: base 5.0, in [5.0, 10.0]. */
  function LinkedinEngagementScore(content: string): (h: int)
    ensures 10 <= h <= 20
  {
    var lower := Lower(content);
    var raw := 10
      + Bonus(Count(content, "\n\n") >= 3, 3)
      + Bonus(Contains(content, "?"), 2)
      + Bonus(ContainsAny(lower, Pronouns), 2)
      + Bonus(Contains(content, "#"), 1)
      + Bonus(ContainsAny(lower, EngagementPrompts), 2);
    Min(20, raw)
  }

  /** Call to action: 1.5 per distinct phrase found, at most 3.0, and 2.0 more when one is in the last 200 characters. */
  function CtaScore(content: string): (h: int)
    ensures 10 <= h <= 20
  {
    var raw := 10
      + Min(6, 3 * CountContained(Lower(content), CtaPhrases))
      + Bonus(ContainsAny(Lower(LastChars(content, 200)), CtaPhrases), 4);
    Min(20, raw)
  }

  /** Number of emoji groups: maximal runs of emoji, not single emoji. */
  function EmojiCount(content: string): nat {
    |Runs(content, IsEmoji)|
  }

  /** LinkedIn formatting: base 5.0, in [3.0, 10.0]. */
  function FormattingScore(content: string): (h: int)
    ensures 6 <= h <= 20
  {
    var emoji := EmojiCount(content);
    var n := |content|;
    var raw := 10
      + Bonus(Contains(content, "\n\n"), 4)
      + (if 1 <= emoji <= 5 then 3 else if emoji > 10 then -2 else 0)
      + (if 500 <= n <= 2000 then 3 else if n > 3000 then -2 else 0);
    Min(20, Max(0, raw))
  }

  // ---------------------------------------------------------------------------
  // Dimensions, variants, ratings
  // ---------------------------------------------------------------------------

  datatype Dimension =
    | Engagement | Structure | Clarity | Actionability | Professionalism
    | HookStrength | EngagementPotential | CallToAction | Formatting

  /** The key a dimension has in `dimension_scores`. */
  function Key(d: Dimension): string {
    match d
    case Engagement => "engagement"
    case Structure => "structure"
    case Clarity => "clarity"
    case Actionability => "actionability"
    case Professionalism => "professionalism"
    case HookStrength => "hook_strength"
    case EngagementPotential => "engagement_potential"
    case CallToAction => "call_to_action"
    case Formatting => "formatting"
  }

  /** The score of one dimension, whichever report it appears in. */
  function Score(d: Dimension, content: string): (h: int)
    ensures 0 <= h <= 20
  {
    match d
    case Engagement => EngagementScore(content)
    case Structure => StructureScore(content)
    case Clarity => ClarityScore(content)
    case Actionability => ActionabilityScore(content)
    case Professionalism => ProfessionalismScore(content)
    case HookStrength => HookScore(content)
    case EngagementPotential => LinkedinEngagementScore(content)
    case CallToAction => CtaScore(content)
    case Formatting => FormattingScore(content)
  }

  /** The three report shapes: "blog", "linkedin", and every other tag. */
  datatype Variant = Blog | LinkedIn | General

  function VariantOf(contentType: string): Variant {
    if contentType == "blog" then Blog
    else if contentType == "linkedin" then LinkedIn
    else General
  }

  /** One entry of `dimension_scores`. */
  datatype Rating = Rating(dimension: Dimension, halves: int)

  /** The dimensions of each report, in the key order of its dictionary literal. */
  function Dimensions(v: Variant): seq<Dimension> {
    match v
    case Blog => [Engagement, Structure, Clarity, Actionability, Professionalism]
    case LinkedIn => [HookStrength, EngagementPotential, Professionalism, CallToAction, Formatting]
    case General => [Clarity, Engagement, Professionalism]
  }

  /** `dimension_scores`: each dimension of the report with its score. */
  function Ratings(content: string, v: Variant): (rs: seq<Rating>)
    ensures |rs| == |Dimensions(v)|
  {
    var ds := Dimensions(v);
    seq(|ds|, i requires 0 <= i < |ds| => Rating(ds[i], Score(ds[i], content)))
  }

  function Keys(rs: seq<Rating>): (ks: seq<string>)
    ensures |ks| == |rs|
  {
    seq(|rs|, i requires 0 <= i < |rs| => Key(rs[i].dimension))
  }

  function Total(rs: seq<Rating>): int {
    if rs == [] then 0 else rs[0].halves + Total(rs[1..])
  }

  /** A sum of half-point scores in [0, 10] lies between 0 and ten points per score. */
  lemma {:induction false} TotalBounds(rs: seq<Rating>)
    requires forall i :: 0 <= i < |rs| ==> 0 <= rs[i].halves <= 20
    ensures 0 <= Total(rs) <= 20 * |rs|
  {
    if rs != [] {
      TotalBounds(rs[1..]);
    }
  }

  /** No dimension is listed twice. */
  predicate DistinctDimensions(rs: seq<Rating>) {
    forall i, j :: 0 <= i < j < |rs| ==> rs[i].dimension != rs[j].dimension
  }

  // ---------------------------------------------------------------------------
  // Overall score and grade
  // ---------------------------------------------------------------------------

  /**
   * `round(total / 2 / n, 1)` in tenths: the mean of `n` half-point scores
   * rounded to the nearest tenth. `10 * total` is even, so for odd `n` the
   * mean never falls exactly between two tenths and the rounding mode of
   * Python's `round` cannot matter.
   */
  function RoundedMeanTenths(total: int, n: nat): (t: int)
    requires n > 0
    ensures 10 * total - n < 2 * n * t <= 10 * total + n
  {
    var t := (10 * total + n) / (2 * n);
    assert 2 * n * t <= 10 * total + n < 2 * n * t + 2 * n;
    t
  }

  /** Grade thresholds in half-points (9.0 down to 5.5) and the letters they open. */
  const GradeThresholds: seq<int> := [18, 17, 16, 15, 14, 13, 12, 11]
  const GradeLetters: seq<string> := ["A+", "A", "A-", "B+", "B", "B-", "C+", "C", "C-"]

  /** The position in `GradeLetters` of the grade of the score `num / den`: first threshold reached wins. */
  function GradeIndex(num: int, den: int): (g: nat)
    requires den > 0
    ensures g < |GradeLetters|
  {
    if 2 * num >= 18 * den then 0
    else if 2 * num >= 17 * den then 1
    else if 2 * num >= 16 * den then 2
    else if 2 * num >= 15 * den then 3
    else if 2 * num >= 14 * den then 4
    else if 2 * num >= 13 * den then 5
    else if 2 * num >= 12 * den then 6
    else if 2 * num >= 11 * den then 7
    else 8
  }

  /** `_get_grade` of the score `num / den`. */
  function Grade(num: int, den: int): string
    requires den > 0
  {
    GradeLetters[GradeIndex(num, den)]
  }

  /**
   * The grade's band contains the score: it reaches the band's own threshold
   * (inclusive) and stays below the threshold of the next better grade.
   */
  lemma GradeBand(num: int, den: int)
    requires den > 0
    ensures var g := GradeIndex(num, den);
      && (g < |GradeThresholds| ==> 2 * num >= GradeThresholds[g] * den)
      && (g > 0 ==> 2 * num < GradeThresholds[g - 1] * den)
  {
  }

  /** A higher score never gets a lower grade. */
  lemma GradeMonotone(num1: int, num2: int, den: int)
    requires den > 0 && num1 <= num2
    ensures GradeIndex(num2, den) <= GradeIndex(num1, den)
  {
  }

  /** A score of exactly 8.0 is an "A-", and 7.99 a "B+". */
  lemma GradeBoundaryExamples()
    ensures Grade(16, 2) == "A-"
    ensures Grade(799, 100) == "B+"
  {
  }

  lemma MulCancel(c: int, a: int, b: int)
    requires c > 0 && c * a > c * b
    ensures a > b
  {
  }

  /** For fewer than ten scores the rounded mean reaches `h / 2` exactly when the mean does. */
  lemma ThresholdSurvivesRounding(total: int, n: nat, h: int)
    requires 0 < n < 10
    ensures total >= h * n <==> RoundedMeanTenths(total, n) >= 5 * h
  {
    var t := RoundedMeanTenths(total, n);
    if total >= h * n {
      assert 2 * n * t > 2 * n * (5 * h - 1) by {
        assert 10 * total >= 10 * (h * n);
        assert 2 * n * (5 * h - 1) == 10 * (h * n) - 2 * n;
      }
      MulCancel(2 * n, t, 5 * h - 1);
    } else {
      assert 2 * n * (5 * h) > 2 * n * t by {
        assert 10 * total <= 10 * (h * n) - 10;
        assert 2 * n * (5 * h) == 10 * (h * n);
      }
      MulCancel(2 * n, 5 * h, t);
    }
  }

  /**
   * The grade comes from the unrounded mean and `overall_score` from the
   * rounded one; with half-point scores and fewer than ten dimensions they
   * always agree on the grade.
   */
  lemma GradeAgreesWithRounded(total: int, n: nat)
    requires 0 < n < 10
    ensures GradeIndex(total, 2 * n) == GradeIndex(RoundedMeanTenths(total, n), 10)
  {
    ThresholdSurvivesRounding(total, n, 18);
    ThresholdSurvivesRounding(total, n, 17);
    ThresholdSurvivesRounding(total, n, 16);
    ThresholdSurvivesRounding(total, n, 15);
    ThresholdSurvivesRounding(total, n, 14);
    ThresholdSurvivesRounding(total, n, 13);
    ThresholdSurvivesRounding(total, n, 12);
    ThresholdSurvivesRounding(total, n, 11);
  }

  // ---------------------------------------------------------------------------
  // Strengths and improvements
  // ---------------------------------------------------------------------------

  /** The dimensions scoring at least 8.0, in key order. */
  function Strong(rs: seq<Rating>): seq<Dimension> {
    if rs == [] then []
    else
      var last := rs[|rs| - 1];
      Strong(rs[..|rs| - 1]) + (if last.halves >= 16 then [last.dimension] else [])
  }

  /** The dimensions scoring below 6.0, in key order. */
  function Weak(rs: seq<Rating>): seq<Dimension> {
    if rs == [] then []
    else
      var last := rs[|rs| - 1];
      Weak(rs[..|rs| - 1]) + (if last.halves < 12 then [last.dimension] else [])
  }

  lemma {:induction false} StrongIff(rs: seq<Rating>, d: Dimension)
    ensures d in Strong(rs) <==> exists i :: 0 <= i < |rs| && rs[i].dimension == d && rs[i].halves >= 16
  {
    if rs != [] {
      var init := rs[..|rs| - 1];
      StrongIff(init, d);
      assert forall i :: 0 <= i < |init| ==> init[i] == rs[i];
    }
  }

  lemma {:induction false} WeakIff(rs: seq<Rating>, d: Dimension)
    ensures d in Weak(rs) <==> exists i :: 0 <= i < |rs| && rs[i].dimension == d && rs[i].halves < 12
  {
    if rs != [] {
      var init := rs[..|rs| - 1];
      WeakIff(init, d);
      assert forall i :: 0 <= i < |init| ==> init[i] == rs[i];
    }
  }

  /** No dimension is both a strength and an improvement. */
  lemma StrongWeakDisjoint(rs: seq<Rating>, d: Dimension)
    requires DistinctDimensions(rs)
    ensures !(d in Strong(rs) && d in Weak(rs))
  {
    StrongIff(rs, d);
    WeakIff(rs, d);
  }

  /** `dimension.replace('_', ' ')`. */
  function Spaced(s: string): (r: string)
    ensures |r| == |s|
  {
    seq(|s|, i requires 0 <= i < |s| => if s[i] == '_' then ' ' else s[i])
  }

  /** Python's `str.title()` on ASCII: a letter after a non-letter is upper-cased, every other letter lower-cased. */
  function TitleCase(s: string): (r: string)
    ensures |r| == |s|
  {
    seq(|s|, i requires 0 <= i < |s| =>
      if i == 0 || !IsLetter(s[i - 1]) then UpperChar(s[i]) else LowerChar(s[i]))
  }

  function StrengthLabel(d: Dimension): string {
    TitleCase(Spaced(Key(d)))
  }

  function ImprovementLabel(d: Dimension): string {
    "Improve " + Spaced(Key(d))
  }

  function Labels(ds: seq<Dimension>, toLabel: Dimension -> string): (r: seq<string>)
    ensures |r| == |ds|
  {
    seq(|ds|, i requires 0 <= i < |ds| => toLabel(ds[i]))
  }

  /** `_identify_strengths`: the strong dimensions, title-cased, or a single fallback line. */
  function Strengths(rs: seq<Rating>): seq<string> {
    var ds := Strong(rs);
    if ds == [] then ["Good baseline quality"] else Labels(ds, StrengthLabel)
  }

  /** `_identify_improvements`: "Improve <name>" per weak dimension, or a single fallback line. */
  function Improvements(rs: seq<Rating>): seq<string> {
    var ds := Weak(rs);
    if ds == [] then ["Minor refinements only"] else Labels(ds, ImprovementLabel)
  }

  lemma LabelsAppend(ds: seq<Dimension>, d: Dimension, toLabel: Dimension -> string)
    ensures Labels(ds + [d], toLabel) == Labels(ds, toLabel) + [toLabel(d)]
  {
  }

  method IdentifyStrengths(rs: seq<Rating>) returns (strengths: seq<string>)
    ensures strengths == Strengths(rs)
  {
    strengths := [];
    for i := 0 to |rs|
      invariant strengths == Labels(Strong(rs[..i]), StrengthLabel)
    {
      assert rs[..i + 1][..i] == rs[..i];
      if rs[i].halves >= 16 {
        LabelsAppend(Strong(rs[..i]), rs[i].dimension, StrengthLabel);
        strengths := strengths + [StrengthLabel(rs[i].dimension)];
      }
    }
    assert rs[..|rs|] == rs;
    if strengths == [] {
      strengths := ["Good baseline quality"];
    }
  }

  method IdentifyImprovements(rs: seq<Rating>) returns (improvements: seq<string>)
    ensures improvements == Improvements(rs)
  {
    improvements := [];
    for i := 0 to |rs|
      invariant improvements == Labels(Weak(rs[..i]), ImprovementLabel)
    {
      assert rs[..i + 1][..i] == rs[..i];
      if rs[i].halves < 12 {
        LabelsAppend(Weak(rs[..i]), rs[i].dimension, ImprovementLabel);
        improvements := improvements + ["Improve " + Spaced(Key(rs[i].dimension))];
      }
    }
    assert rs[..|rs|] == rs;
    if improvements == [] {
      improvements := ["Minor refinements only"];
    }
  }

  // ---------------------------------------------------------------------------
  // Reports
  // ---------------------------------------------------------------------------

  /**
   * A score report. `characterCount` is present only for "linkedin";
   * `strengths` and `improvements` are absent from the general report.
   */
  datatype ScoreReport = ScoreReport(
    overallTenths: int,
    dimensionScores: seq<Rating>,
    grade: string,
    characterCount: Option<nat>,
    strengths: Option<seq<string>>,
    improvements: Option<seq<string>>)

  /** The report each assembler builds. */
  function Report(content: string, v: Variant): ScoreReport {
    var rs := Ratings(content, v);
    var total := Total(rs);
    ScoreReport(
      RoundedMeanTenths(total, |rs|),
      rs,
      Grade(total, 2 * |rs|),
      if v == LinkedIn then Some(|content|) else None,
      if v == General then None else Some(Strengths(rs)),
      if v == General then None else Some(Improvements(rs)))
  }

  method ScoreBlogContent(content: string) returns (report: ScoreReport)
    ensures report == Report(content, Blog)
  {
    var scores := Ratings(content, Blog);
    var total := Total(scores);
    var strengths := IdentifyStrengths(scores);
    var improvements := IdentifyImprovements(scores);
    report := ScoreReport(RoundedMeanTenths(total, |scores|), scores, Grade(total, 2 * |scores|),
      None, Some(strengths), Some(improvements));
  }

  method ScoreLinkedinContent(content: string) returns (report: ScoreReport)
    ensures report == Report(content, LinkedIn)
  {
    var scores := Ratings(content, LinkedIn);
    var total := Total(scores);
    var strengths := IdentifyStrengths(scores);
    var improvements := IdentifyImprovements(scores);
    report := ScoreReport(RoundedMeanTenths(total, |scores|), scores, Grade(total, 2 * |scores|),
      Some(|content|), Some(strengths), Some(improvements));
  }

  method ScoreGeneralContent(content: string) returns (report: ScoreReport)
    ensures report == Report(content, General)
  {
    var scores := Ratings(content, General);
    var total := Total(scores);
    report := ScoreReport(RoundedMeanTenths(total, |scores|), scores, Grade(total, 2 * |scores|), None, None, None);
  }

  /** `score_content`: dispatch on the tag, "blog" by default in the source's signature. */
  method ScoreContent(content: string, contentType: string := "blog") returns (report: ScoreReport)
    ensures report == Report(content, VariantOf(contentType))
  {
    if contentType == "blog" {
      report := ScoreBlogContent(content);
    } else if contentType == "linkedin" {
      report := ScoreLinkedinContent(content);
    } else {
      report := ScoreGeneralContent(content);
    }
  }

  // ---------------------------------------------------------------------------
  // Properties of the reports
  // ---------------------------------------------------------------------------

  /** The keys of each report's `dimension_scores`: a function of the variant alone. */
  function KeysOf(v: Variant): seq<string> {
    match v
    case Blog => ["engagement", "structure", "clarity", "actionability", "professionalism"]
    case LinkedIn => ["hook_strength", "engagement_potential", "professionalism", "call_to_action", "formatting"]
    case General => ["clarity", "engagement", "professionalism"]
  }

  /** The key set is fixed by the tag, whatever the text: five keys for "blog" and "linkedin", three otherwise. */
  lemma DimensionKeysByTag(content: string, contentType: string)
    ensures Keys(Report(content, VariantOf(contentType)).dimensionScores) == KeysOf(VariantOf(contentType))
  {
    var v := VariantOf(contentType);
    var ks := Keys(Ratings(content, v));
    assert |ks| == |KeysOf(v)|;
    forall i | 0 <= i < |ks| ensures ks[i] == KeysOf(v)[i] {
      assert ks[i] == Key(Dimensions(v)[i]);
    }
  }

  lemma DimensionsDistinct(v: Variant)
    ensures forall i, j :: 0 <= i < j < |Dimensions(v)| ==> Dimensions(v)[i] != Dimensions(v)[j]
  {
  }

  /**
   * Every dimension score is a half-point value in [0, 10] and is the score
   * of its dimension; no dimension appears twice; the overall score lies in
   * [0.0, 10.0]; and the grade, taken from the unrounded mean, is the grade
   * of the rounded overall score.
   */
  lemma ReportWellFormed(content: string, v: Variant)
    ensures var r := Report(content, v);
      && |r.dimensionScores| == (if v == General then 3 else 5)
      && DistinctDimensions(r.dimensionScores)
      && (forall x :: x in r.dimensionScores ==> 0 <= x.halves <= 20 && x.halves == Score(x.dimension, content))
      && 0 <= r.overallTenths <= 100
      && r.grade == Grade(r.overallTenths, 10)
  {
    var rs := Ratings(content, v);
    RatingsWellFormed(content, v);
    TotalBounds(rs);
    RoundedWithinScale(Total(rs), |rs|);
    GradeAgreesWithRounded(Total(rs), |rs|);
  }

  lemma RatingsWellFormed(content: string, v: Variant)
    ensures var rs := Ratings(content, v);
      && |rs| == (if v == General then 3 else 5)
      && DistinctDimensions(rs)
      && (forall i :: 0 <= i < |rs| ==> 0 <= rs[i].halves <= 20)
      && (forall x :: x in rs ==> 0 <= x.halves <= 20 && x.halves == Score(x.dimension, content))
  {
    DimensionsDistinct(v);
  }

  /** A mean of half-point scores in [0, 10], rounded to tenths, stays in [0, 100] tenths. */
  lemma RoundedWithinScale(total: int, n: nat)
    requires 0 < n && 0 <= total <= 20 * n
    ensures 0 <= RoundedMeanTenths(total, n) <= 100
  {
    var t := RoundedMeanTenths(total, n);
    MulCancel(2 * n, t, -1);
    MulCancel(2 * n, 101, t);
  }

  /** Strengths and improvements never name the same dimension. */
  lemma StrengthsAndImprovementsDisjoint(content: string, v: Variant, d: Dimension)
    ensures !(d in Strong(Report(content, v).dimensionScores) && d in Weak(Report(content, v).dimensionScores))
  {
    ReportWellFormed(content, v);
    StrongWeakDisjoint(Report(content, v).dimensionScores, d);
  }

  /** Only the LinkedIn report counts characters, and only the general report lacks strengths and improvements. */
  lemma ReportShapeByTag(content: string, contentType: string)
    ensures var r := Report(content, VariantOf(contentType));
      && (r.characterCount.Some? <==> contentType == "linkedin")
      && (r.characterCount.Some? ==> r.characterCount.value == |content|)
      && (r.strengths.None? <==> (contentType != "blog" && contentType != "linkedin"))
      && (r.strengths.None? <==> r.improvements.None?)
  {
  }

  /** The empty text under the general tag: clarity 7.0, engagement 5.0, professionalism 8.0, overall 6.7, "B-". */
  lemma EmptyGeneralReport()
    ensures Report("", General) == ScoreReport(67,
      [Rating(Clarity, 14), Rating(Engagement, 10), Rating(Professionalism, 16)], "B-", None, None, None)
  {
    EmptyClarity();
    EmptyEngagement();
    EmptyProfessionalism();
    var rs := Ratings("", General);
    assert rs == [Rating(Clarity, 14), Rating(Engagement, 10), Rating(Professionalism, 16)];
    assert Total(rs) == 40;
  }

  lemma EmptyClarity()
    ensures ClarityScore("") == 14
  {
    NoTransitionInEmpty();
  }

  lemma NoTransitionInEmpty()
    ensures !ContainsAny(Lower(""), TransitionWords)
  {
    assert Lower("") == "";
    forall w | w in TransitionWords ensures !Contains("", w) {
    }
  }

  lemma EmptyEngagement()
    ensures EngagementScore("") == 10
  {
    assert Lower("") == "";
    forall w | w in StoryWords ensures !Contains("", w) {
    }
    forall w | w in EmotionWords ensures !Contains("", w) {
    }
  }

  lemma EmptyProfessionalism()
    ensures ProfessionalismScore("") == 16
  {
    assert Words("") == [];
    assert Split("", "\n") == [""];
    assert !HeadingMarker("", 1, false);
  }

  /** Hook strength looks at nothing after the first newline. */
  lemma HookIgnoresLaterLines(first: string, rest: string)
    requires '\n' !in first
    ensures HookScore(first + "\n" + rest) == HookScore(first)
  {
    OpeningBeforeNewline(first, rest);
    HookFollowsOpening(first + "\n" + rest, first);
  }

  lemma HookFollowsOpening(a: string, b: string)
    requires Opening(a) == Opening(b)
    ensures HookScore(a) == HookScore(b)
  {
  }

  lemma OpeningBeforeNewline(first: string, rest: string)
    requires '\n' !in first
    ensures Opening(first + "\n" + rest) == Opening(first)
  {
    AbsentChar(first, '\n');
    FirstPiece(first, "\n", rest);
    if first != [] {
      FirstLineOfLine(first);
    }
  }

  /** The empty text has a 6.0 hook: only the "under 100 characters" bonus applies. */
  lemma HookOfEmpty()
    ensures HookScore("") == 12
  {
    assert !ContainsAny(Lower(""), BoldWords);
  }

  /** The hook bonuses add up to 11.0, which the cap brings back to 10.0. */
  lemma HookCapBinds()
    ensures HookRaw("50% never?") == 22 && HookScore("50% never?") == 20
  {
    var s := "50% never?";
    HookCapOpening(s);
    HookCapStrip(s);
    HookCapDigits(s);
    HookCapBold(s);
  }

  lemma HookCapOpening(s: string)
    requires s == "50% never?"
    ensures Opening(s) == s
  {
    FirstLineOfLine(s);
  }

  lemma HookCapStrip(s: string)
    requires s == "50% never?"
    ensures EndsWith(Strip(s), "?")
  {
    StripUnpadded(s);
  }

  lemma HookCapDigits(s: string)
    requires s == "50% never?"
    ensures DigitFollowedBy(s, "%")
  {
    assert IsDigit(s[1]) && StartsWith(s[2..], "%");
  }

  lemma HookCapBold(s: string)
    requires s == "50% never?"
    ensures ContainsAny(Lower(s), BoldWords)
  {
    assert Lower(s) == s;
    assert OccursAt(s, "never", 4);
    ContainsIffOccurs(s, "never");
    assert "never" in BoldWords;
  }

  /** Adjacent emoji form one group: two emoji side by side count once, apart they count twice. */
  lemma EmojiGroups()
    ensures EmojiCount("\U{1F600}\U{1F601}") == 1
    ensures EmojiCount("\U{1F600} \U{1F601}") == 2
  {
    var two := "\U{1F600}\U{1F601}";
    assert RunLength(two, IsEmoji) == 2;
    var apart := "\U{1F600} \U{1F601}";
    assert RunLength(apart, IsEmoji) == 1;
    assert apart[1..][1..] == "\U{1F601}";
  }

  /** Emoji groups on either side of a non-emoji character add up: the character ends one group. */
  lemma EmojiCountSeparated(a: string, c: char, b: string)
    requires !IsEmoji(c)
    ensures EmojiCount(a + [c] + b) == EmojiCount(a) + EmojiCount(b)
  {
    RunsSeparated(a, c, b, IsEmoji);
  }

  /** A non-empty stretch of emoji, however long, is one group. */
  lemma EmojiRunCountsOnce(s: string)
    requires s != [] && forall i :: 0 <= i < |s| ==> IsEmoji(s[i])
    ensures EmojiCount(s) == 1
  {
    RunsOfClassOnly(s, IsEmoji);
  }

  /**
   * The call-to-action phrase bonus is 1.5 per distinct listed phrase, capped
   * at 3.0; more text never lowers it. The score carries that bonus plus at
   * most the 2.0 closing bonus, capped at 10.0.
   */
  lemma CtaBonusCapped(content: string, more: string)
    ensures var n := CountContained(Lower(content), CtaPhrases);
      var m := CountContained(Lower(content + more), CtaPhrases);
      && Min(6, 3 * n) <= Min(6, 3 * m) <= 6
      && (n <= 2 ==> Min(6, 3 * n) == 3 * n)
      && Min(20, 10 + Min(6, 3 * n)) <= CtaScore(content) <= Min(20, 14 + Min(6, 3 * n))
  {
    CtaPhrasesExtend(content, more);
    CtaScoreCarriesBonus(content);
  }

  lemma CtaPhrasesExtend(content: string, more: string)
    ensures CountContained(Lower(content), CtaPhrases) <= CountContained(Lower(content + more), CtaPhrases)
  {
    LowerAppend(content, more);
    CountContainedExtends(Lower(content), Lower(more), CtaPhrases);
  }

  lemma CtaScoreCarriesBonus(content: string)
    ensures var n := CountContained(Lower(content), CtaPhrases);
      Min(20, 10 + Min(6, 3 * n)) <= CtaScore(content) <= Min(20, 14 + Min(6, 3 * n))
  {
    var n := CountContained(Lower(content), CtaPhrases);
    var b := Bonus(ContainsAny(Lower(LastChars(content, 200)), CtaPhrases), 4);
    assert CtaScore(content) == Min(20, 10 + Min(6, 3 * n) + b);
    CappedSumBounds(10 + Min(6, 3 * n), b, 4);
  }

  /** Capping at 10.0 keeps a bonus of at most `most` half-points between the capped base and the capped base plus `most`. */
  lemma CappedSumBounds(base: int, b: int, most: int)
    requires 0 <= b <= most
    ensures Min(20, base) <= Min(20, base + b) <= Min(20, base + most)
  {
  }

  /** The action-word bonus is half a point per distinct listed word, capped at 2.0; more text never lowers it. */
  lemma ActionBonusCapped(content: string, more: string)
    ensures var n := CountContained(Lower(content), ActionWords);
      var m := CountContained(Lower(content + more), ActionWords);
      && Min(4, n) <= Min(4, m) <= 4
      && (n <= 4 ==> Min(4, n) == n)
  {
    LowerAppend(content, more);
    CountContainedExtends(Lower(content), Lower(more), ActionWords);
  }
}
