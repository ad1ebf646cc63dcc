# ContentBlitz analysis core in Dafny

This project models the deterministic core of ContentBlitz, a multi-agent
content assistant, and proves properties of it. The parts around the
language-model calls are modelled:

- **Content scorer** (`content_scorer.dfy`, module `ContentScorer`):
  - the eleven heuristic dimension scorers;
  - the blog, LinkedIn and general reports;
  - the letter grade;
  - the strengths and improvements lists.
- **SEO optimizer** (`seo_optimizer.dfy`, module `SeoOptimizer`):
  - word count;
  - per-keyword statistics and status;
  - readability;
  - markdown structure;
  - the ordered recommendation list;
  - the 0–100 SEO score.
- **Document store** (`vector_store.dfy`, module `DocumentStore`):
  - the in-memory `VectorStore` class, with its three lists;
  - the keyword-overlap `search`, with its stable ranking, truncation and parallel result lists;
  - the brand-voice and research helpers.
- **Brand-voice registry** (`brand_voice.dfy`, module `BrandVoices`):
  - the `BrandVoice` class, with its ordered guideline map and example list, on top of a shared `VectorStore`;
  - the prompt section it renders;
  - the tone report with defaults.
- **Router** (`router.dfy`, module `Router`):
  - the code-fence stripping of the model's reply;
  - the keyword classifier used when that reply is not valid JSON.

Shared layers:

- `text.dfy` (`Text`): the Python string built-ins the core relies on, over ASCII letters and digits and Python's full whitespace set. These are `lower`, `in`, `count`, `find`, `split`, `join`, `strip`, slicing, and `\w+` / `str.split()` tokenisation.
- `markdown.dfy` (`Markdown`): the line-oriented regular expressions for headings, lists, links, sentences and paragraphs.
- `ordered_map.dfy` (`OrderedMaps`): an insertion-ordered dictionary with Python's assignment semantics.

Representation choices:

- **Scores are integers.** Dimension scores are half-points, so 7.5 is 15. The overall score is in tenths, so 6.7 is 67. Every score in the source is a sum of multiples of 0.5, so this loses nothing.
- **Thresholds are integer comparisons.** Each float threshold test is stated over integers. For example, "average sentence length > 25" becomes `words > 25 * sentences`, and "density < 1.0" becomes `100 * count < words`. Lemmas connect these to the exact rational values.
- **Injected values.** Three things are passed in rather than computed:
  - the string of each fresh `uuid4` (`uuid`, `uuids`); the model puts the `brand_voice_` prefix in front of it, as the code does;
  - `json.loads`, as a `parse` function that returns `None` where the parser raises;
  - the module-level singleton store, which the `BrandVoice` constructor takes.

Three behaviours of the code are easy to misread:

- **Grade.** The code grades the unrounded mean (utils/content_scorer.py:32-37), not the rounded `overall_score`. The model does the same. `GradeAgreesWithRounded` shows that grading the rounded `overall_score` gives the same letter for three or five half-point scores.
- **Duplicate keywords.** A repeated keyword collapses into one dict entry (utils/seo_optimizer.py:43-59). The model keeps the dict semantics (`DuplicateKeywordCollapses`).
- **Keyword status is not monotone in the count.** More occurrences raise the density, which can move an "optimal" keyword to "too_high". `StatusByCounts` states the exact integer thresholds: 1 occurrence in 40 words is optimal, 2 in 40 is too high.

## Model

| member | source | states |
|---|---|---|
| ContentScorer.EngagementScore | utils/content_scorer.py:82-108 | engagement stays within [5.0, 9.0] |
| ContentScorer.StructureScore | utils/content_scorer.py:110-137 | structure stays within [5.0, 10.0] |
| ContentScorer.ClarityScore | utils/content_scorer.py:139-166 | clarity stays within [5.0, 9.0], with or without sentences |
| ContentScorer.ActionabilityScore | utils/content_scorer.py:168-190 | actionability stays within [5.0, 10.0] |
| ContentScorer.ProfessionalismScore | utils/content_scorer.py:192-212 | professionalism stays within [5.0, 9.0] |
| ContentScorer.CountShouted | utils/content_scorer.py:204-206 | the number of shouted words: zero exactly when no word is all capitals of length four or more, the whole list exactly when every word is |
| ContentScorer.CountShoutedAppend | utils/content_scorer.py:204-206 | the counts of two word lists add up |
| ContentScorer.HookScore | utils/content_scorer.py:214-235 | hook strength stays within [5.0, 10.0] after the cap |
| ContentScorer.LinkedinEngagementScore | utils/content_scorer.py:237-262 | LinkedIn engagement stays within [5.0, 10.0] |
| ContentScorer.CtaScore | utils/content_scorer.py:264-281 | call-to-action stays within [5.0, 10.0] |
| ContentScorer.FormattingScore | utils/content_scorer.py:283-310 | formatting stays within [3.0, 10.0] |
| ContentScorer.Score | utils/content_scorer.py:24-30 | every dimension score is a multiple of 0.5 in [0, 10] |
| ContentScorer.Ratings | utils/content_scorer.py:24-30 | one rating per dimension of the content type |
| ContentScorer.TotalBounds | utils/content_scorer.py:32 | the sum of n scores in [0, 10] lies in [0, 10n] |
| ContentScorer.RoundedMeanTenths | utils/content_scorer.py:35 | `round(mean, 1)` is within half a tenth of the exact mean |
| ContentScorer.GradeIndex | utils/content_scorer.py:312-331 | the grade is one of the nine letters |
| ContentScorer.GradeBand | utils/content_scorer.py:312-331 | the chosen grade's lower bound is reached and the next grade's bound is not (inclusive lower bounds) |
| ContentScorer.GradeMonotone | utils/content_scorer.py:312-331 | a higher score never gets a lower grade |
| ContentScorer.GradeBoundaryExamples | utils/content_scorer.py:312-331 | 8.0 grades "A-" and 7.99 grades "B+" |
| ContentScorer.ThresholdSurvivesRounding | utils/content_scorer.py:32-37 | for up to nine half-point scores, the mean reaches a half-point threshold exactly when its rounded value does |
| ContentScorer.GradeAgreesWithRounded | utils/content_scorer.py:32-37 | grading the unrounded mean gives the same letter as grading the reported `overall_score` |
| ContentScorer.StrongIff | utils/content_scorer.py:333-339 | a dimension is listed as a strength iff it scores at least 8.0 |
| ContentScorer.WeakIff | utils/content_scorer.py:341-347 | a dimension is listed for improvement iff it scores below 6.0 |
| ContentScorer.StrongWeakDisjoint | utils/content_scorer.py:333-347 | with distinct dimensions, none is both a strength and an improvement |
| ContentScorer.IdentifyStrengths | utils/content_scorer.py:333-339 | the loop yields the title-cased strong dimensions in order, or the single fallback sentence |
| ContentScorer.IdentifyImprovements | utils/content_scorer.py:341-347 | the loop yields "Improve x" for each weak dimension in order, or the single fallback sentence |
| ContentScorer.ScoreBlogContent | utils/content_scorer.py:22-41 | the blog report: five scores, their rounded mean, grade, strengths and improvements |
| ContentScorer.ScoreLinkedinContent | utils/content_scorer.py:43-63 | the LinkedIn report, which also carries the character count |
| ContentScorer.ScoreGeneralContent | utils/content_scorer.py:65-80 | the general report: three scores, mean and grade only |
| ContentScorer.ScoreContent | utils/content_scorer.py:12-20 | "blog" and "linkedin" pick their report; any other tag gives the general one |
| ContentScorer.DimensionKeysByTag | utils/content_scorer.py:12-30 | the dimension keys and their order depend only on the content-type tag |
| ContentScorer.DimensionsDistinct | utils/content_scorer.py:24-30 | no dimension key is repeated within a report |
| ContentScorer.ReportWellFormed | utils/content_scorer.py:22-41 | 3 or 5 distinct scores, each the dimension's own score in [0, 10]; overall in [0, 10]; grade equal to the grade of the overall score |
| ContentScorer.StrengthsAndImprovementsDisjoint | utils/content_scorer.py:333-347 | no dimension of a report is both a strength and an improvement |
| ContentScorer.ReportShapeByTag | utils/content_scorer.py:55-80 | only LinkedIn reports carry `character_count`, equal to the text length; general reports have no strengths or improvements |
| ContentScorer.EmptyGeneralReport | utils/content_scorer.py:65-80 | empty general text scores clarity 7.0, engagement 5.0, professionalism 8.0, overall 6.7, grade "B-" |
| ContentScorer.HookIgnoresLaterLines | utils/content_scorer.py:214-217 | hook strength depends only on the text before the first newline |
| ContentScorer.HookOfEmpty | utils/content_scorer.py:214-235 | empty text has hook strength 6.0 |
| ContentScorer.HookCapBinds | utils/content_scorer.py:214-235 | "50% never?" reaches 11.0 before the cap and 10.0 after it |
| ContentScorer.EmojiGroups | utils/content_scorer.py:290-295 | adjacent emoji count as one group and separated emoji as two |
| ContentScorer.CtaBonusCapped | utils/content_scorer.py:273-281 | 1.5 per phrase found, capped at 3.0, and appending text never lowers it; the score is 5.0 plus that bonus, plus at most 2.0 for the ending, capped at 10.0 |
| ContentScorer.EmojiCountSeparated | utils/content_scorer.py:291-296 | a non-emoji character between two texts keeps their emoji groups apart, so the counts add up |
| ContentScorer.EmojiRunCountsOnce | utils/content_scorer.py:291-296 | a non-empty text of emoji only is one group |
| ContentScorer.ActionBonusCapped | utils/content_scorer.py:172-175 | the action-word bonus is 0.5 per distinct word, capped at 2.0, and appending text never lowers it |
| SeoOptimizer.CountWords | utils/seo_optimizer.py:32-35 | the word count is the number of maximal `\w` runs, at most the text length |
| SeoOptimizer.AssessKeywordUsage | utils/seo_optimizer.py:68-77 | missing iff the count is 0; otherwise too low below 1.0, too high above 2.5, and optimal inside [1.0, 2.5] with both ends |
| SeoOptimizer.StatusByCounts | utils/seo_optimizer.py:68-77 | missing iff count 0; otherwise too low iff there are no words or 100·count < words; too high iff 40·count > words; the boundaries 1.0 and 2.5 are optimal |
| SeoOptimizer.DensityBelowOne | utils/seo_optimizer.py:72 | density below 1.0 is 100·count < words |
| SeoOptimizer.DensityAboveLimit | utils/seo_optimizer.py:74 | density above 2.5 is 40·count > words |
| SeoOptimizer.InHeadings | utils/seo_optimizer.py:63-66 | a heading line whose own text holds the keyword makes it true; when true, some line of the text holds the keyword |
| SeoOptimizer.StatOf | utils/seo_optimizer.py:44-59 | status is missing iff the lowercased keyword does not occur; first-paragraph placement implies occurrence |
| SeoOptimizer.CountIsNotWordAware | utils/seo_optimizer.py:45-47 | "AI" is counted once inside "said", which rates it too high |
| SeoOptimizer.KeywordTable | utils/seo_optimizer.py:43-61 | the table is well formed and keyed by the keywords without repeats, each given keyword present once |
| SeoOptimizer.KeywordTableStep | utils/seo_optimizer.py:53 | each keyword is a dictionary assignment of its statistics |
| SeoOptimizer.DuplicateKeywordCollapses | utils/seo_optimizer.py:44-59 | repeating a keyword leaves the table unchanged |
| SeoOptimizer.StatOfIgnoresCase | utils/seo_optimizer.py:45-51 | keywords with the same lower-case form get the same statistics |
| SeoOptimizer.CaseVariantsAreSeparate | utils/seo_optimizer.py:44-53 | "AI" and "ai" are two entries with the same statistics |
| SeoOptimizer.AnalyzeKeywords | utils/seo_optimizer.py:37-61 | the loop builds exactly the keyword table |
| SeoOptimizer.AnalyzeReadability | utils/seo_optimizer.py:79-100 | the paragraph count is the number of blank-line separators plus one, so at least 1 |
| SeoOptimizer.LevelByCounts | utils/seo_optimizer.py:85-93 | easy if words < 15·sentences or there are no sentences; moderate if < 20·sentences; otherwise difficult |
| SeoOptimizer.AnalyzeStructure | utils/seo_optimizer.py:102-121 | h1+h2+h3 never exceed the line count; each link takes at least six characters |
| SeoOptimizer.StatusMessage | utils/seo_optimizer.py:138-143 | one status message unless the keyword is optimal |
| SeoOptimizer.KeywordMessages | utils/seo_optimizer.py:137-149 | at most three messages per keyword |
| SeoOptimizer.StructureMessages | utils/seo_optimizer.py:151-170 | at most five structure and readability messages |
| SeoOptimizer.AllKeywordMessagesBound | utils/seo_optimizer.py:137-149 | keyword messages number at most three per distinct keyword |
| SeoOptimizer.RecommendationsBound | utils/seo_optimizer.py:129-172 | at most 6 + 3k recommendations for k distinct keywords |
| SeoOptimizer.AppendKeywordMessages | utils/seo_optimizer.py:137-149 | appends the keyword's status, first-paragraph and heading messages, in that order |
| SeoOptimizer.AppendStructureMessages | utils/seo_optimizer.py:151-170 | appends the H1, H2, lists, links and readability messages, in that order |
| SeoOptimizer.GenerateRecommendations | utils/seo_optimizer.py:123-172 | the loop yields the length message, then each keyword's messages in table order, then the structure messages |
| SeoOptimizer.CalculateSeoScore | utils/seo_optimizer.py:174-202 | the loop computes 100 minus the penalties, clamped to [0, 100] |
| SeoOptimizer.KeywordPenaltiesBound | utils/seo_optimizer.py:186-193 | each keyword costs between 0 and 25 points |
| SeoOptimizer.KeywordPenaltiesZero | utils/seo_optimizer.py:186-193 | keywords cost nothing iff every one is optimal and in the first paragraph |
| SeoOptimizer.ScoreRange | utils/seo_optimizer.py:174-202 | the score is in [0, 100], and in [55, 100] without keywords |
| SeoOptimizer.PerfectScoreIff | utils/seo_optimizer.py:174-202 | 100 iff ≥ 800 words, every keyword optimal and early, proper hierarchy and ≥ 2 links |
| SeoOptimizer.KeywordPenaltiesAgree | utils/seo_optimizer.py:186-193 | keyword penalties read only status and first-paragraph placement |
| SeoOptimizer.ScoreIgnoresOtherFields | utils/seo_optimizer.py:174-202 | the score ignores `in_headings`, lists, h3 and readability |
| SeoOptimizer.AnalyzeContent | utils/seo_optimizer.py:14-30 | the analysis record, with recommendations and score filled in from the rest |
| SeoOptimizer.AnalysisWellFormed | utils/seo_optimizer.py:14-30 | keys are the distinct keywords, each with its own statistics; consistent hierarchy flag; bounded recommendations; score in [0, 100]; at least one paragraph |
| Markdown.HeadingLevelsExclusive | utils/seo_optimizer.py:104-106 | a line carries at most one heading level |
| Markdown.LevelCountsFitLines | utils/seo_optimizer.py:104-106 | h1, h2 and h3 lines together are at most all lines |
| Markdown.HeadingCount | utils/seo_optimizer.py:104-106 | at most one match per line, and a positive count exactly when some line opens with exactly k `#` and then whitespace, or the line break after it |
| Markdown.HasList | utils/seo_optimizer.py:109 | true exactly when some line opens with optional whitespace, one of `-`, `*`, `+`, and whitespace or the line break after it |
| Markdown.HeadingTexts | utils/seo_optimizer.py:65 | at most one heading text per line, each non-empty and the ending of one of the lines |
| Markdown.HeadingTextFound | utils/seo_optimizer.py:65 | for every line that opens with one to six `#`, whitespace and then text, that text ends some heading text found |
| Markdown.BareMarkerReadsOn | utils/seo_optimizer.py:65 | after a bare `#`, `\s+` runs across the line break and the blank line: the lines "#", "", "Plan" give "Plan" |
| Markdown.BareMarkerTakesHeading | utils/seo_optimizer.py:65 | a bare `#` takes the whole next heading line, markers included: the lines "#", "## Title" give "## Title" and nothing for "Title" |
| Markdown.SentenceCount | utils/seo_optimizer.py:81-82 | no sentence exactly when the text holds nothing but whitespace and `.`, `!`, `?` |
| Markdown.LinkCount | utils/seo_optimizer.py:112 | each link takes at least six characters of the text, so there are at most len/6 links |
| Markdown.ParagraphCount | utils/seo_optimizer.py:99 | `len(content.split('\n\n'))` is the separator count plus one |
| Markdown.AverageVersusWhole | utils/seo_optimizer.py:85-93 | comparing the average sentence length with a whole number is comparing words with a multiple of sentences |
| OrderedMaps.PutKeepsOthers | core/brand_voice.py:16 | dictionary assignment sets one key, keeps the map well formed and leaves other keys, their values and their order untouched |
| OrderedMaps.Dedup | utils/seo_optimizer.py:43-53 | the distinct keys, without repeats, covering exactly the given keys |
| Text.Split | utils/seo_optimizer.py:99 | `split` gives one more piece than there are separators, and no piece holds the separator |
| Text.SplitJoin | agents/router_agent.py:60 | joining the pieces of a split with the separator gives the text back |
| Text.CountPositiveIffContains | utils/seo_optimizer.py:46 | `str.count` is positive iff the substring occurs |
| Text.Strip | agents/router_agent.py:58 | `strip` returns a slice of the text with only whitespace cut from either side, and neither starting nor ending with whitespace |
| Text.PyPrefix | core/vector_store.py:56 | `xs[:n]` is a prefix of `xs` with min(n, len) elements, or max(0, len+n) for negative n |
| Text.CountContained | core/vector_store.py:50 | counts the listed words that occur: at most the number of words, positive iff one occurs |
| DocumentStore.OfTypeAppend | core/vector_store.py:25-29 | the category lists only grow at their end |
| DocumentStore.OfTypeMembers | core/vector_store.py:25-29 | a category list holds exactly the entries of that type |
| DocumentStore.CategoriesDisjoint | core/vector_store.py:26-29 | no entry is both a brand-voice and a research entry |
| DocumentStore.Zip | core/vector_store.py:17 | one entry per triple, stopping at the shortest list |
| DocumentStore.Relevance | core/vector_store.py:48-50 | the score counts query tokens, repeats included, so it never exceeds the token count |
| DocumentStore.HitsOf | core/vector_store.py:47-52 | at most one hit per pool entry |
| DocumentStore.HitsSound | core/vector_store.py:47-52 | every hit is its pool entry with that entry's positive score |
| DocumentStore.HitsInPoolOrder | core/vector_store.py:47-52 | hits are kept in pool order |
| DocumentStore.HitsComplete | core/vector_store.py:47-52 | every entry with a positive score has a hit |
| DocumentStore.InsertHit | core/vector_store.py:55 | inserting keeps every hit, adding exactly one |
| DocumentStore.SortHits | core/vector_store.py:55 | sorting is a permutation of the hits |
| DocumentStore.InsertHitRanked | core/vector_store.py:55 | inserting a later hit into a ranked list keeps it ranked |
| DocumentStore.SortHitsRanked | core/vector_store.py:55 | the sort is descending by score and stable: equal scores stay in pool order |
| DocumentStore.ResultOf | core/vector_store.py:58-61 | the three result lists are parallel |
| DocumentStore.SearchResultsParallel | core/vector_store.py:54-63 | parallel lists, at most `n_results` long for non-negative `n_results`, and each position is one matching pool entry's document, metadata and id |
| DocumentStore.SearchOrdered | core/vector_store.py:55-56 | documents come back in non-increasing relevance |
| DocumentStore.SearchComplete | core/vector_store.py:44-61 | when `n_results` covers the pool, every matching document is returned |
| DocumentStore.SearchTopN | core/vector_store.py:44-61 | a matching entry missing from the result means the result already holds `n_results` documents, each ranked before that entry |
| DocumentStore.EmptyQueryFindsNothing | core/vector_store.py:45-52 | an empty query returns empty lists |
| DocumentStore.ScoreEntries | core/vector_store.py:46-52 | the scoring loop keeps exactly the positive-scoring entries in pool order |
| DocumentStore.Unzip | core/vector_store.py:58-61 | the append loop builds the three parallel lists |
| DocumentStore.VectorStore.constructor | core/vector_store.py:10-13 | all three lists start empty |
| DocumentStore.VectorStore.AddDocuments | core/vector_store.py:15-29 | appends the zipped entries; the category lists gain exactly the entries of their type; the categories stay consistent with the documents |
| DocumentStore.VectorStore.Search | core/vector_store.py:31-63 | returns the search over the filter's pool |
| DocumentStore.VectorStore.BrandVoiceExamples | core/vector_store.py:65-68 | the first n brand-voice documents in insertion order |
| DocumentStore.VectorStore.AddBrandVoiceExample | core/vector_store.py:70-76 | appends exactly one brand-voice entry to the documents and to the brand-voice list; research list unchanged |
| DocumentStore.VectorStore.StoreResearch | core/vector_store.py:78-84 | appends exactly one research entry with its topic and source; brand-voice list unchanged |
| DocumentStore.VectorStore.RetrieveResearch | core/vector_store.py:86-92 | searches the research entries only |
| DocumentStore.ResearchMetadata | core/vector_store.py:82 | research metadata has type "research" and the keys type, topic and source |
| DocumentStore.PoolByFilter | core/vector_store.py:35-42 | a filter type of "brand_voice" or "research" picks that list; no filter, an empty filter or any other type picks all documents |
| DocumentStore.BrandVoiceExamplesInOrder | core/vector_store.py:65-68 | the examples are the first min(n, count) brand-voice documents ever added, in order |
| BrandVoices.Prompt | core/brand_voice.py:25-43 | the prompt is empty iff there are no guidelines and no examples |
| BrandVoices.PromptOpening | core/brand_voice.py:29-37 | with guidelines the prompt opens with the guideline header; otherwise it opens with the examples header |
| BrandVoices.PromptShowsGuidelines | core/brand_voice.py:29-32 | every guideline appears as `- category: guideline` |
| BrandVoices.PromptShowsExamples | core/brand_voice.py:36-39 | every example shown appears under its number, counted from 1 |
| BrandVoices.GuidelineParts | core/brand_voice.py:29-32 | the loop builds the header and one line per category, in insertion order |
| BrandVoices.ExampleParts | core/brand_voice.py:36-39 | the loop builds the header and the numbered examples |
| BrandVoices.Tone | core/brand_voice.py:50-57 | the tone report has exactly the keys formality, emotion, voice and perspective |
| BrandVoices.ToneSettings | core/brand_voice.py:52-56 | each setting is the guideline under its name, or its default |
| BrandVoices.ToneWithoutGuidelines | core/brand_voice.py:52-56 | without guidelines the tone is balanced, professional, active, second person |
| BrandVoices.ToneFollowsGuidelines | core/brand_voice.py:50-57 | a guideline under a tone name sets that setting only; other categories leave the tone alone |
| BrandVoices.ExampleId | core/brand_voice.py:22 | the document id is `brand_voice_` followed by the uuid, which it gives back |
| BrandVoices.ExampleIdsDistinct | core/brand_voice.py:22 | two examples share an id exactly when they share a uuid |
| BrandVoices.ExampleEntry | core/brand_voice.py:22-23 | the stored entry holds the content, type `brand_voice`, and an id of `brand_voice_` and the uuid |
| BrandVoices.BrandEntries | core/brand_voice.py:45-48 | one brand-voice entry per sample, holding that sample, with an id of `brand_voice_` and that sample's uuid |
| BrandVoices.BrandVoice.constructor | core/brand_voice.py:10-12 | no guidelines and no examples |
| BrandVoices.BrandVoice.AddBrandGuideline | core/brand_voice.py:14-16 | sets or replaces one category; examples unchanged |
| BrandVoices.BrandVoice.AddExampleContent | core/brand_voice.py:18-23 | appends the example and files exactly one brand-voice entry, with id `brand_voice_` and the uuid, in the store |
| BrandVoices.BrandVoice.TrainFromContent | core/brand_voice.py:45-48 | adds each sample in order, to the examples and to the store |
| BrandVoices.BrandVoice.GetBrandVoicePrompt | core/brand_voice.py:25-43 | the prompt from the guidelines and at most three store examples; empty iff there are no guidelines and no brand-voice documents |
| BrandVoices.BrandVoice.GetToneAnalysis | core/brand_voice.py:50-57 | the four tone keys |
| Router.StripFence | agents/router_agent.py:58-62 | the extracted text is stripped, and holds no fence when the reply had one |
| Router.UnfencedReply | agents/router_agent.py:58-62 | a reply without a fence passes through stripped |
| Router.JsonFenceRoundTrip | agents/router_agent.py:59-60 | a body wrapped in a "```json" fence comes back stripped |
| Router.PlainFenceRoundTrip | agents/router_agent.py:61-62 | a body wrapped in a plain "```" fence comes back stripped |
| Router.KeywordRoute | agents/router_agent.py:67-109 | every fallback route has no secondary agents and one of the four known agents |
| Router.KeywordRouteIgnoresCase | agents/router_agent.py:68 | the route depends only on the lowercased query |
| Router.KeywordRoutePrecedence | agents/router_agent.py:69-109 | writing words win over image words, which win over research words; each route is taken exactly when its rule is the first to fire |
| Router.KeywordRouteResearch | agents/router_agent.py:70-109 | research is skipped only for images, and for LinkedIn requests that do not mention research |
| Router.PostponeRoutesToBlog | agents/router_agent.py:69-85 | "postpone" matches "post" and routes to the blog agent |
| Router.Route | agents/router_agent.py:56-68 | a reply that parses, once its fence is stripped, is returned as parsed; otherwise the result is the keyword route of the query |
| Router.RouteSources | agents/router_agent.py:56-68 | a reply that parses is returned whatever the query; otherwise the reply is irrelevant and the keyword route is used |

## Left out

- Timestamps (`datetime.now()`) in score reports are not modelled.
- The `uuid4` draw is a parameter: the caller passes the uuid's string, and the model forms the id from it. Its 36-character shape is not modelled.
- The language-model calls, the HTTP and image calls, the Streamlit UI, the startup script, conversation memory, orchestration and settings are not part of this model.
- `suggest_workflow` in agents/router_agent.py is not part of this model.
- `json.loads` is the `parse` parameter. Its result is returned as is, as in the source.
- Case folding, `\w` and `\d` are ASCII only. Python's Unicode `lower()`, `\w` and `\d` also cover non-ASCII letters and digits, so a non-ASCII letter or digit is a separator in the model's word count and never matches `\d`. Whitespace (`\s`, `strip()`, `split()`) follows Python's full Unicode set.
- Router.KeywordRoute: `query.lower()` is modelled on ASCII letters only.
- SeoOptimizer.StatOf: `density` is kept as the exact rational, not rounded to two decimals. The status is decided on the unrounded value, as in the source.
- SeoOptimizer.AnalyzeReadability: `avg_sentence_length` is kept as the exact rational, not rounded to one decimal.
- Threshold comparisons are exact over integers and rationals. The source's double arithmetic agrees with them except for inputs with more than about 10^14 words or sentences, where a rounded quotient could land on a threshold.
- ContentScorer.RoundedMeanTenths: rounds halves up, while Python's `round` rounds them to even. For three or five half-point scores the mean in tenths is never exactly halfway, so the two agree.
- DocumentStore.VectorStore.Search: the source nests each result list in an outer one-element list (`[[...]]`). The model returns the inner lists.
- DocumentStore.SortHits: `list.sort` is a library call. It is modelled as a stable insertion-sort function with its permutation and ranking lemmas, not as an in-place loop.
- BrandVoices.BrandVoice.TrainFromContent: requires one uuid per sample, because the source draws a fresh `uuid4` for each.
- BrandVoices.BrandVoice.constructor: the source uses a module-level store singleton. The model takes the store as a constructor argument and does not model aliasing beyond that shared reference.
