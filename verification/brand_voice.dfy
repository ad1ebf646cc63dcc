/**
 * The brand-voice registry: an insertion-ordered map of guidelines by
 * category, a list of example texts, and the document store the examples
 * are also filed in. It renders a prompt section from the guidelines and
 * from the first brand-voice documents of the store, and reports four tone
 * settings with defaults.
 */
module BrandVoices {
  import opened Text
  import opened OrderedMaps
  import opened DocumentStore

  const GuidelinesHeader: string := "## Brand Voice Guidelines:"
  const ExamplesHeader: string := "\n## Brand Voice Examples:"

  /** How many store examples the prompt shows. */
  const ExampleLimit: nat := 3

  /** `f"- {category}: {guideline}"`. */
  function GuidelineLine(category: string, guideline: string): string {
    "- " + category + ": " + guideline
  }

  /** `f"\nExample {number}:\n{example}"`. */
  function ExampleBlock(number: nat, example: string): string {
    "\nExample " + NatToString(number) + ":\n" + example
  }

  /** The guideline part of the prompt: nothing without guidelines, else the header and one line per category in insertion order. */
  function GuidelineSection(g: OrderedMap<string, string>): seq<string>
    requires g.Valid()
  {
    if g.keys == [] then []
    else [GuidelinesHeader] + seq(|g.keys|, i requires 0 <= i < |g.keys| => GuidelineLine(g.keys[i], g.values[g.keys[i]]))
  }

  /** The example part of the prompt: nothing without examples, else the header and the examples numbered from 1. */
  function ExampleSection(examples: seq<string>): seq<string> {
    if examples == [] then []
    else [ExamplesHeader] + seq(|examples|, i requires 0 <= i < |examples| => ExampleBlock(i + 1, examples[i]))
  }

  /** `"\n".join(prompt_parts)` when there are parts, else "". */
  function Prompt(g: OrderedMap<string, string>, examples: seq<string>): (p: string)
    requires g.Valid()
    ensures p == [] <==> g.keys == [] && examples == []
  {
    var parts := GuidelineSection(g) + ExampleSection(examples);
    if parts == [] then []
    else
      JoinStartsWithFirst(parts, "\n");
      Join(parts, "\n")
  }

  /** With guidelines, the prompt opens with the guideline header; without, it opens with the example header. */
  lemma PromptOpening(g: OrderedMap<string, string>, examples: seq<string>)
    requires g.Valid()
    ensures g.keys != [] ==> StartsWith(Prompt(g, examples), GuidelinesHeader)
    ensures g.keys == [] && examples != [] ==> StartsWith(Prompt(g, examples), ExamplesHeader)
  {
    var parts := GuidelineSection(g) + ExampleSection(examples);
    if parts != [] {
      JoinStartsWithFirst(parts, "\n");
    }
  }

  /** Every guideline shows up in the prompt as its own `- category: guideline` entry. */
  lemma PromptShowsGuidelines(g: OrderedMap<string, string>, examples: seq<string>, category: string)
    requires g.Valid() && category in g.values
    ensures Contains(Prompt(g, examples), GuidelineLine(category, g.values[category]))
  {
    var parts := GuidelineSection(g) + ExampleSection(examples);
    var i :| 0 <= i < |g.keys| && g.keys[i] == category;
    assert parts[i + 1] == GuidelineLine(category, g.values[category]);
    JoinContainsParts(parts, "\n", i + 1);
  }

  /** Every example passed in shows up in the prompt, under its number counted from 1. */
  lemma PromptShowsExamples(g: OrderedMap<string, string>, examples: seq<string>, i: nat)
    requires g.Valid() && i < |examples|
    ensures Contains(Prompt(g, examples), ExampleBlock(i + 1, examples[i]))
    ensures Contains(Prompt(g, examples), examples[i])
  {
    PromptShowsBlock(g, examples, i);
    BlockShowsExample(i + 1, examples[i]);
    ContainsTransitive(Prompt(g, examples), ExampleBlock(i + 1, examples[i]), examples[i]);
  }

  lemma PromptShowsBlock(g: OrderedMap<string, string>, examples: seq<string>, i: nat)
    requires g.Valid() && i < |examples|
    ensures Contains(Prompt(g, examples), ExampleBlock(i + 1, examples[i]))
  {
    var gs := GuidelineSection(g);
    var es := ExampleSection(examples);
    var parts := gs + es;
    assert es[1 + i] == ExampleBlock(i + 1, examples[i]);
    assert parts[|gs| + 1 + i] == es[1 + i];
    JoinContainsParts(parts, "\n", |gs| + 1 + i);
    assert Prompt(g, examples) == Join(parts, "\n");
  }

  lemma BlockShowsExample(number: nat, example: string)
    ensures Contains(ExampleBlock(number, example), example)
  {
    var head := "\nExample " + NatToString(number) + ":\n";
    ContainsSelf(example);
    ContainsWithin(head, example, [], example);
    assert head + example + [] == ExampleBlock(number, example);
  }

  // ---------------------------------------------------------------------------
  // Tone
  // ---------------------------------------------------------------------------

  const ToneKeys: seq<string> := ["formality", "emotion", "voice", "perspective"]
  const ToneDefaults: seq<string> := ["balanced", "professional", "active", "second person"]

  /** `get_tone_analysis`: each tone setting from its guideline, or its default. */
  function Tone(g: OrderedMap<string, string>): (r: OrderedMap<string, string>)
    ensures r.Valid() && r.keys == ToneKeys
  {
    OrderedMap(ToneKeys, map[
      "formality" := g.Get("formality", "balanced"),
      "emotion" := g.Get("emotion", "professional"),
      "voice" := g.Get("voice", "active"),
      "perspective" := g.Get("perspective", "second person")])
  }

  /** Each setting is the guideline filed under its name when there is one, else its default. */
  lemma ToneSettings(g: OrderedMap<string, string>, i: nat)
    requires i < |ToneKeys|
    ensures ToneKeys[i] in g.values ==> Tone(g).values[ToneKeys[i]] == g.values[ToneKeys[i]]
    ensures ToneKeys[i] !in g.values ==> Tone(g).values[ToneKeys[i]] == ToneDefaults[i]
  {
  }

  /** Without guidelines the tone is the four defaults. */
  lemma ToneWithoutGuidelines()
    ensures Tone(Empty()).values ==
      map["formality" := "balanced", "emotion" := "professional", "voice" := "active", "perspective" := "second person"]
  {
  }

  /** Filing a guideline under a tone name sets that setting and no other; any other category leaves the tone alone. */
  lemma ToneFollowsGuidelines(g: OrderedMap<string, string>, category: string, guideline: string)
    requires g.Valid()
    ensures category in ToneKeys ==> Tone(g.Put(category, guideline)).values[category] == guideline
    ensures forall i :: 0 <= i < |ToneKeys| && ToneKeys[i] != category ==>
      Tone(g.Put(category, guideline)).values[ToneKeys[i]] == Tone(g).values[ToneKeys[i]]
    ensures category !in ToneKeys ==> Tone(g.Put(category, guideline)) == Tone(g)
  {
    ToneSettingsAfterPut(g, category, guideline);
    if category !in ToneKeys {
      ToneUnchangedByOtherCategory(g, category, guideline);
    }
  }

  lemma ToneSettingsAfterPut(g: OrderedMap<string, string>, category: string, guideline: string)
    ensures forall i :: 0 <= i < |ToneKeys| && ToneKeys[i] == category ==>
      Tone(g.Put(category, guideline)).values[ToneKeys[i]] == guideline
    ensures forall i :: 0 <= i < |ToneKeys| && ToneKeys[i] != category ==>
      Tone(g.Put(category, guideline)).values[ToneKeys[i]] == Tone(g).values[ToneKeys[i]]
  {
    var h := g.Put(category, guideline);
    forall i | 0 <= i < |ToneKeys|
      ensures ToneKeys[i] == category ==> Tone(h).values[ToneKeys[i]] == guideline
      ensures ToneKeys[i] != category ==> Tone(h).values[ToneKeys[i]] == Tone(g).values[ToneKeys[i]]
    {
      ToneSettings(h, i);
      ToneSettings(g, i);
    }
  }

  lemma ToneUnchangedByOtherCategory(g: OrderedMap<string, string>, category: string, guideline: string)
    requires category !in ToneKeys
    ensures Tone(g.Put(category, guideline)) == Tone(g)
  {
    var h := g.Put(category, guideline);
    forall k | k in Tone(h).values ensures Tone(h).values[k] == Tone(g).values[k] {
      var i :| 0 <= i < |ToneKeys| && ToneKeys[i] == k;
      ToneSettings(h, i);
      ToneSettings(g, i);
    }
    assert Tone(h).values == Tone(g).values;
  }

  // ---------------------------------------------------------------------------
  // The registry
  // ---------------------------------------------------------------------------

  const IdPrefix: string := "brand_voice_"

  /** `f"brand_voice_{uuid}"`: the document id an example is filed under. */
  function ExampleId(uuid: string): (id: string)
    ensures StartsWith(id, IdPrefix) && |id| == |IdPrefix| + |uuid|
    ensures id[|IdPrefix|..] == uuid
  {
    assert (IdPrefix + uuid)[..|IdPrefix|] == IdPrefix;
    IdPrefix + uuid
  }

  /** Two examples share a document id exactly when they were given the same uuid. */
  lemma ExampleIdsDistinct(u: string, v: string)
    ensures ExampleId(u) == ExampleId(v) <==> u == v
  {
    if ExampleId(u) == ExampleId(v) {
      assert u == ExampleId(u)[|IdPrefix|..];
    }
  }

  /** The store entry `add_example_content` files for `content` under the uuid drawn for it. */
  function ExampleEntry(content: string, uuid: string): (e: Entry)
    ensures StartsWith(e.id, IdPrefix) && e.id[|IdPrefix|..] == uuid
    ensures e.document == content && TypeOf(e.metadata) == Some("brand_voice")
  {
    Entry(ExampleId(uuid), content, map["type" := "brand_voice"])
  }

  /** The store entries `train_from_content` files, one per sample, under the uuids drawn for them. */
  function BrandEntries(samples: seq<string>, uuids: seq<string>): (es: seq<Entry>)
    requires |uuids| == |samples|
    ensures |es| == |samples|
    ensures forall i :: 0 <= i < |es| ==> es[i].document == samples[i] && TypeOf(es[i].metadata) == Some("brand_voice")
    ensures forall i :: 0 <= i < |es| ==> StartsWith(es[i].id, IdPrefix) && es[i].id[|IdPrefix|..] == uuids[i]
  {
    seq(|samples|, i requires 0 <= i < |samples| => ExampleEntry(samples[i], uuids[i]))
  }

  lemma BrandEntriesStep(samples: seq<string>, uuids: seq<string>, i: nat)
    requires |uuids| == |samples| && i < |samples|
    ensures samples[..i + 1] == samples[..i] + [samples[i]]
    ensures BrandEntries(samples, uuids)[..i + 1]
         == BrandEntries(samples, uuids)[..i] + [ExampleEntry(samples[i], uuids[i])]
  {
    var added := BrandEntries(samples, uuids);
    assert added[..i + 1] == added[..i] + [added[i]];
  }

  /** The guideline loop of `get_brand_voice_prompt`. */
  method GuidelineParts(g: OrderedMap<string, string>) returns (parts: seq<string>)
    requires g.Valid()
    ensures parts == GuidelineSection(g)
  {
    parts := [];
    if g.keys != [] {
      parts := [GuidelinesHeader];
      for i := 0 to |g.keys|
        invariant parts == GuidelineSection(g)[..i + 1]
      {
        var category := g.keys[i];
        parts := parts + [GuidelineLine(category, g.values[category])];
      }
    }
  }

  /** The example loop of `get_brand_voice_prompt`, numbering from 1. */
  method ExampleParts(examples: seq<string>) returns (parts: seq<string>)
    ensures parts == ExampleSection(examples)
  {
    parts := [];
    if examples != [] {
      parts := [ExamplesHeader];
      for i := 0 to |examples|
        invariant |parts| == i + 1 && parts[0] == ExamplesHeader
        invariant forall k :: 0 <= k < i ==> parts[k + 1] == ExampleBlock(k + 1, examples[k])
      {
        parts := parts + [ExampleBlock(i + 1, examples[i])];
      }
    }
    assert |parts| == |ExampleSection(examples)|;
  }

  class BrandVoice {
    var guidelines: OrderedMap<string, string>
    var examples: seq<string>
    /** The shared document store the examples are filed in and read back from. */
    const store: VectorStore

    ghost predicate Valid()
      reads this, store
    {
      guidelines.Valid() && store.Valid()
    }

    constructor(store: VectorStore)
      requires store.Valid()
      ensures Valid()
      ensures this.store == store && guidelines.keys == [] && examples == []
    {
      this.store := store;
      guidelines := Empty();
      examples := [];
    }

    /** `add_brand_guideline`: sets or replaces one category. */
    method AddBrandGuideline(category: string, guideline: string)
      modifies this
      requires Valid()
      ensures Valid()
      ensures guidelines == old(guidelines).Put(category, guideline)
      ensures examples == old(examples)
    {
      PutKeepsOthers(guidelines, category, guideline);
      guidelines := guidelines.Put(category, guideline);
    }

    /**
     * `add_example_content`, with the string of the fresh `uuid4` as a
     * parameter; the document is filed under `"brand_voice_"` and that uuid.
     */
    method AddExampleContent(content: string, uuid: string)
      modifies this, store
      requires Valid()
      ensures Valid()
      ensures examples == old(examples) + [content]
      ensures guidelines == old(guidelines)
      ensures store.documents == old(store.documents) + [ExampleEntry(content, uuid)]
      ensures store.brandVoiceDocs == old(store.brandVoiceDocs) + [ExampleEntry(content, uuid)]
      ensures store.researchDocs == old(store.researchDocs)
    {
      examples := examples + [content];
      var docId := ExampleId(uuid);
      store.AddBrandVoiceExample(content, docId);
    }

    /** `train_from_content`: `add_example_content` for each sample in order; `uuids[i]` is the uuid drawn for `samples[i]`. */
    method TrainFromContent(samples: seq<string>, uuids: seq<string>)
      modifies this, store
      requires Valid() && |uuids| == |samples|
      ensures Valid()
      ensures examples == old(examples) + samples
      ensures guidelines == old(guidelines)
      ensures store.documents == old(store.documents) + BrandEntries(samples, uuids)
      ensures store.brandVoiceDocs == old(store.brandVoiceDocs) + BrandEntries(samples, uuids)
      ensures store.researchDocs == old(store.researchDocs)
    {
      var added := BrandEntries(samples, uuids);
      for i := 0 to |samples|
        invariant Valid()
        invariant examples == old(examples) + samples[..i]
        invariant guidelines == old(guidelines)
        invariant store.documents == old(store.documents) + added[..i]
        invariant store.brandVoiceDocs == old(store.brandVoiceDocs) + added[..i]
        invariant store.researchDocs == old(store.researchDocs)
      {
        BrandEntriesStep(samples, uuids, i);
        AddExampleContent(samples[i], uuids[i]);
      }
      assert samples[..|samples|] == samples;
      assert added[..|samples|] == added;
    }

    /** `get_brand_voice_prompt`: the guideline lines, then up to three store examples, joined by newlines. */
    method GetBrandVoicePrompt() returns (prompt: string)
      requires Valid()
      ensures prompt == Prompt(guidelines, store.BrandVoiceExamples(ExampleLimit))
      ensures prompt == [] <==> guidelines.keys == [] && store.brandVoiceDocs == []
    {
      var gs := GuidelineParts(guidelines);
      var shown := store.BrandVoiceExamples(ExampleLimit);
      assert |shown| == Min(ExampleLimit, |store.brandVoiceDocs|);
      var es := ExampleParts(shown);
      var parts := gs + es;
      if parts != [] {
        prompt := Join(parts, "\n");
      } else {
        prompt := [];
      }
    }

    /** `get_tone_analysis`. */
    function GetToneAnalysis(): (r: OrderedMap<string, string>)
      reads this
      ensures r.keys == ToneKeys
    {
      Tone(guidelines)
    }
  }
}
