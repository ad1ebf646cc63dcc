/**
 * The in-memory document store: an append-only list of entries, two
 * category lists that index into it by metadata "type", and a keyword search
 * that ranks entries by how many query tokens they contain.
 */
module DocumentStore {
  import opened Text

  /** One stored document with its id and metadata. */
  datatype Entry = Entry(id: string, document: string, metadata: map<string, string>)

  /** `meta.get("type")`. */
  function TypeOf(metadata: map<string, string>): Option<string> {
    if "type" in metadata then Some(metadata["type"]) else None
  }

  /** The entries of `es` whose metadata type is `t`, in their order in `es`. */
  function OfType(es: seq<Entry>, t: string): (r: seq<Entry>)
    ensures |r| <= |es|
  {
    if es == [] then []
    else
      var last := es[|es| - 1];
      OfType(es[..|es| - 1], t) + (if TypeOf(last.metadata) == Some(t) then [last] else [])
  }

  /** Filtering distributes over appending, so a category list grows only at its end. */
  lemma {:induction false} OfTypeAppend(a: seq<Entry>, b: seq<Entry>, t: string)
    ensures OfType(a + b, t) == OfType(a, t) + OfType(b, t)
    decreases |b|
  {
    if b == [] {
      assert a + b == a;
    } else {
      var init := b[..|b| - 1];
      OfTypeAppend(a, init, t);
      assert (a + b)[..|a + b| - 1] == a + init;
    }
  }

  /** A category list holds exactly the entries of that type. */
  lemma {:induction false} OfTypeMembers(es: seq<Entry>, t: string, e: Entry)
    ensures e in OfType(es, t) <==> e in es && TypeOf(e.metadata) == Some(t)
  {
    if es != [] {
      var init := es[..|es| - 1];
      OfTypeMembers(init, t, e);
      assert es == init + [es[|es| - 1]];
    }
  }

  /** No entry is both a brand-voice entry and a research entry. */
  lemma CategoriesDisjoint(es: seq<Entry>, e: Entry)
    ensures !(e in OfType(es, "brand_voice") && e in OfType(es, "research"))
  {
    OfTypeMembers(es, "brand_voice", e);
    OfTypeMembers(es, "research", e);
  }

  /** Appending one entry extends the category list by that entry exactly when it is of that type. */
  lemma OfTypeAppendOne(es: seq<Entry>, e: Entry, t: string)
    ensures OfType(es + [e], t) == OfType(es, t) + (if TypeOf(e.metadata) == Some(t) then [e] else [])
  {
    assert (es + [e])[..|es|] == es;
  }

  lemma ZipPrefixStep(docs: seq<string>, metas: seq<map<string, string>>, ids: seq<string>, i: nat)
    requires i < |Zip(docs, metas, ids)|
    ensures Zip(docs, metas, ids)[..i + 1] == Zip(docs, metas, ids)[..i] + [Entry(ids[i], docs[i], metas[i])]
  {
    var added := Zip(docs, metas, ids);
    assert added[..i + 1] == added[..i] + [added[i]];
  }

  /** `zip(documents, metadatas, ids)` turned into entries: as long as the shortest list. */
  function Zip(docs: seq<string>, metas: seq<map<string, string>>, ids: seq<string>): (r: seq<Entry>)
    ensures |r| == Min(|docs|, Min(|metas|, |ids|))
  {
    var n := Min(|docs|, Min(|metas|, |ids|));
    seq(n, i requires 0 <= i < n => Entry(ids[i], docs[i], metas[i]))
  }

  // ---------------------------------------------------------------------------
  // Search, as functions of the pool searched
  // ---------------------------------------------------------------------------

  /** How many whitespace-separated query tokens, repeats included, occur in the document, ignoring case. */
  function Relevance(query: string, document: string): (n: nat)
    ensures n <= |Tokens(Lower(query))|
  {
    CountContained(Lower(document), Tokens(Lower(query)))
  }

  /** A scored entry; `pos` is its index in the pool searched. */
  datatype Hit = Hit(score: nat, pos: nat, entry: Entry)

  /** The hits among the first `n` pool entries, in pool order: every entry that scores above zero. */
  function HitsOf(pool: seq<Entry>, query: string, n: nat): (hs: seq<Hit>)
    requires n <= |pool|
    ensures |hs| <= n
  {
    if n == 0 then []
    else
      var init := HitsOf(pool, query, n - 1);
      var score := Relevance(query, pool[n - 1].document);
      if score > 0 then init + [Hit(score, n - 1, pool[n - 1])] else init
  }

  /** Each hit names its pool entry and carries that entry's positive score. */
  predicate SoundHit(pool: seq<Entry>, query: string, h: Hit) {
    && h.pos < |pool|
    && h.entry == pool[h.pos]
    && h.score == Relevance(query, pool[h.pos].document)
    && h.score > 0
  }

  /** Every hit names its pool entry and carries that entry's positive score. */
  lemma {:induction false} HitsSound(pool: seq<Entry>, query: string, n: nat)
    requires n <= |pool|
    ensures forall k :: 0 <= k < |HitsOf(pool, query, n)| ==>
      SoundHit(pool, query, HitsOf(pool, query, n)[k]) && HitsOf(pool, query, n)[k].pos < n
  {
    if n > 0 {
      HitsSound(pool, query, n - 1);
      var init := HitsOf(pool, query, n - 1);
      var hs := HitsOf(pool, query, n);
      var sc := Relevance(query, pool[n - 1].document);
      forall k | 0 <= k < |hs| ensures SoundHit(pool, query, hs[k]) && hs[k].pos < n {
        if k < |init| {
          assert hs[k] == init[k];
        } else {
          assert hs[k] == Hit(sc, n - 1, pool[n - 1]);
        }
      }
    }
  }

  /** Hits are listed in pool order. */
  lemma {:induction false} HitsInPoolOrder(pool: seq<Entry>, query: string, n: nat)
    requires n <= |pool|
    ensures forall k, l :: 0 <= k < l < |HitsOf(pool, query, n)| ==>
      HitsOf(pool, query, n)[k].pos < HitsOf(pool, query, n)[l].pos
  {
    if n > 0 {
      HitsInPoolOrder(pool, query, n - 1);
      HitsSound(pool, query, n - 1);
      var init := HitsOf(pool, query, n - 1);
      var hs := HitsOf(pool, query, n);
      var sc := Relevance(query, pool[n - 1].document);
      forall k, l | 0 <= k < l < |hs| ensures hs[k].pos < hs[l].pos {
        assert hs[k] == init[k];
        assert init[k].pos < n - 1;
        if l < |init| {
          assert hs[l] == init[l];
        } else {
          assert hs[l] == Hit(sc, n - 1, pool[n - 1]);
        }
      }
    }
  }

  /** Every entry among the first `n` that scores above zero has a hit. */
  lemma {:induction false} HitsComplete(pool: seq<Entry>, query: string, n: nat, i: nat)
    requires i < n <= |pool| && Relevance(query, pool[i].document) > 0
    ensures exists k :: 0 <= k < |HitsOf(pool, query, n)| && HitsOf(pool, query, n)[k].pos == i
  {
    var init := HitsOf(pool, query, n - 1);
    var hs := HitsOf(pool, query, n);
    if i == n - 1 {
      assert hs[|hs| - 1].pos == i;
    } else {
      HitsComplete(pool, query, n - 1, i);
      var k :| 0 <= k < |init| && init[k].pos == i;
      assert hs[k] == init[k];
    }
  }

  /** `a` belongs before `b`: a higher score, or the same score and an earlier pool position. */
  predicate Before(a: Hit, b: Hit) {
    a.score > b.score || (a.score == b.score && a.pos < b.pos)
  }

  /** Higher scores first; equal scores in pool order. */
  predicate Ranked(hs: seq<Hit>) {
    forall i, j :: 0 <= i < j < |hs| ==> Before(hs[i], hs[j])
  }

  lemma RankedCons(x: Hit, rest: seq<Hit>)
    requires Ranked(rest)
    requires forall y :: y in rest ==> Before(x, y)
    ensures Ranked([x] + rest)
  {
    var r := [x] + rest;
    forall i, j | 0 <= i < j < |r| ensures Before(r[i], r[j]) {
      if i == 0 {
        assert r[j] == rest[j - 1];
      } else {
        assert r[i] == rest[i - 1] && r[j] == rest[j - 1];
      }
    }
  }

  /** Places `h` after every hit scoring at least as much, before the first scoring less. */
  function InsertHit(h: Hit, sorted: seq<Hit>): (r: seq<Hit>)
    ensures multiset(r) == multiset(sorted) + multiset{h}
  {
    if sorted == [] then [h]
    else
      assert sorted == [sorted[0]] + sorted[1..];
      if sorted[0].score >= h.score then [sorted[0]] + InsertHit(h, sorted[1..])
      else [h] + sorted
  }

  /** `list.sort(reverse=True, key=score)`: Python's sort is stable, also when reversed. */
  function SortHits(hs: seq<Hit>): (r: seq<Hit>)
    ensures multiset(r) == multiset(hs)
  {
    if hs == [] then []
    else
      assert hs == hs[..|hs| - 1] + [hs[|hs| - 1]];
      InsertHit(hs[|hs| - 1], SortHits(hs[..|hs| - 1]))
  }

  lemma {:induction false} InsertHitRanked(h: Hit, sorted: seq<Hit>)
    requires Ranked(sorted)
    requires forall x :: x in sorted ==> x.pos < h.pos
    ensures Ranked(InsertHit(h, sorted))
  {
    if sorted != [] {
      var head := sorted[0];
      var tail := sorted[1..];
      assert forall y :: y in tail ==> Before(head, y) by {
        forall y | y in tail ensures Before(head, y) {
          var j :| 0 <= j < |tail| && tail[j] == y;
          assert sorted[j + 1] == y;
        }
      }
      if head.score >= h.score {
        var rest := InsertHit(h, tail);
        assert Ranked(tail) by {
          forall i, j | 0 <= i < j < |tail| ensures Before(tail[i], tail[j]) {
            assert tail[i] == sorted[i + 1] && tail[j] == sorted[j + 1];
          }
        }
        InsertHitRanked(h, tail);
        forall y | y in rest ensures Before(head, y) {
          assert y in multiset(rest);
        }
        RankedCons(head, rest);
      } else {
        forall y | y in sorted ensures Before(h, y) {
          if y != head {
            assert y in tail;
          }
        }
        RankedCons(h, sorted);
      }
    }
  }

  /** Sorting hits listed in pool order ranks them: higher scores first, ties in pool order. */
  lemma {:induction false} SortHitsRanked(hs: seq<Hit>)
    requires forall k, l :: 0 <= k < l < |hs| ==> hs[k].pos < hs[l].pos
    ensures Ranked(SortHits(hs))
  {
    if hs != [] {
      var init := hs[..|hs| - 1];
      var last := hs[|hs| - 1];
      SortHitsRanked(init);
      var s := SortHits(init);
      forall x | x in s ensures x.pos < last.pos {
        assert x in multiset(s);
        assert x in init;
      }
      InsertHitRanked(last, s);
    }
  }

  /** The three parallel result lists. */
  datatype SearchResult = SearchResult(documents: seq<string>, metadatas: seq<map<string, string>>, ids: seq<string>)

  function ResultOf(top: seq<Hit>): (r: SearchResult)
    ensures |r.documents| == |r.metadatas| == |r.ids| == |top|
  {
    SearchResult(
      seq(|top|, i requires 0 <= i < |top| => top[i].entry.document),
      seq(|top|, i requires 0 <= i < |top| => top[i].entry.metadata),
      seq(|top|, i requires 0 <= i < |top| => top[i].entry.id))
  }

  /** The ranked hits of a search over `pool`, truncated as `[:n_results]` truncates. */
  function TopHits(pool: seq<Entry>, query: string, nResults: int): seq<Hit> {
    PyPrefix(SortHits(HitsOf(pool, query, |pool|)), nResults)
  }

  /** What `search` returns for this pool. */
  function SearchOver(pool: seq<Entry>, query: string, nResults: int): SearchResult {
    ResultOf(TopHits(pool, query, nResults))
  }

  /**
   * The result lists are parallel, hold at most `n_results` entries (when it
   * is not negative), and each position names one pool entry that matches
   * the query, with its document, metadata and id together.
   */
  lemma SearchResultsParallel(pool: seq<Entry>, query: string, nResults: int)
    ensures var r := SearchOver(pool, query, nResults);
      && |r.documents| == |r.metadatas| == |r.ids| <= |pool|
      && (nResults >= 0 ==> |r.documents| <= nResults)
      && forall k :: 0 <= k < |r.documents| ==>
           exists p :: 0 <= p < |pool| && pool[p] == Entry(r.ids[k], r.documents[k], r.metadatas[k])
             && Relevance(query, pool[p].document) > 0
  {
    var hs := HitsOf(pool, query, |pool|);
    var sorted := SortHits(hs);
    var top := TopHits(pool, query, nResults);
    var r := SearchOver(pool, query, nResults);
    HitsSound(pool, query, |pool|);
    assert |sorted| == |hs| by {
      assert |multiset(sorted)| == |multiset(hs)|;
    }
    forall k | 0 <= k < |r.documents|
      ensures exists p :: (0 <= p < |pool| && pool[p] == Entry(r.ids[k], r.documents[k], r.metadatas[k])
        && Relevance(query, pool[p].document) > 0)
    {
      assert top[k] == sorted[k];
      assert sorted[k] in multiset(hs);
      var j :| 0 <= j < |hs| && hs[j] == top[k];
      var p := top[k].pos;
      assert SoundHit(pool, query, hs[j]);
      assert pool[p] == Entry(r.ids[k], r.documents[k], r.metadatas[k]);
    }
  }

  /** Documents come back in order of non-increasing relevance. */
  lemma SearchOrdered(pool: seq<Entry>, query: string, nResults: int)
    ensures var docs := SearchOver(pool, query, nResults).documents;
      forall i, j :: 0 <= i < j < |docs| ==> Relevance(query, docs[i]) >= Relevance(query, docs[j])
  {
    var hs := HitsOf(pool, query, |pool|);
    var sorted := SortHits(hs);
    HitsInPoolOrder(pool, query, |pool|);
    HitsSound(pool, query, |pool|);
    SortHitsRanked(hs);
    var top := TopHits(pool, query, nResults);
    var docs := SearchOver(pool, query, nResults).documents;
    forall k | 0 <= k < |top|
      ensures top[k].score == Relevance(query, docs[k])
    {
      assert top[k] == sorted[k];
      assert sorted[k] in multiset(hs);
      var j :| 0 <= j < |hs| && hs[j] == top[k];
      assert SoundHit(pool, query, hs[j]);
    }
    forall i, j | 0 <= i < j < |docs| ensures Relevance(query, docs[i]) >= Relevance(query, docs[j]) {
      assert top[i] == sorted[i] && top[j] == sorted[j];
      assert Before(sorted[i], sorted[j]);
    }
  }

  /** When `n_results` covers the pool, every matching entry comes back. */
  lemma SearchComplete(pool: seq<Entry>, query: string, nResults: int, p: nat)
    requires nResults >= |pool| && p < |pool| && Relevance(query, pool[p].document) > 0
    ensures pool[p].document in SearchOver(pool, query, nResults).documents
  {
    var hs := HitsOf(pool, query, |pool|);
    var sorted := SortHits(hs);
    HitsSound(pool, query, |pool|);
    HitsComplete(pool, query, |pool|, p);
    var k :| 0 <= k < |hs| && hs[k].pos == p;
    assert hs[k].entry == pool[p] by {
      assert SoundHit(pool, query, hs[k]);
    }
    assert |sorted| == |hs| by {
      assert |multiset(sorted)| == |multiset(hs)|;
    }
    PyPrefixAll(sorted, nResults);
    assert TopHits(pool, query, nResults) == sorted;
    assert hs[k] in multiset(sorted);
    var i :| 0 <= i < |sorted| && sorted[i] == hs[k];
    assert SearchOver(pool, query, nResults).documents[i] == pool[p].document;
  }

  /**
   * Truncation keeps the best-ranked matches: a matching pool entry is
   * either returned, or every returned hit ranks before it (a higher score,
   * or the same score and an earlier pool position) and, for a non-negative
   * `n_results`, the result is already full.
   */
  lemma SearchTopN(pool: seq<Entry>, query: string, nResults: int, p: nat)
    requires p < |pool| && Relevance(query, pool[p].document) > 0
    ensures var top := TopHits(pool, query, nResults);
      var mine := Hit(Relevance(query, pool[p].document), p, pool[p]);
      || (exists k :: 0 <= k < |top| && top[k] == mine)
      || (&& (forall k :: 0 <= k < |top| ==> Before(top[k], mine))
          && (nResults >= 0 ==> |SearchOver(pool, query, nResults).documents| == nResults))
  {
    var sorted := SortHits(HitsOf(pool, query, |pool|));
    var mine := Hit(Relevance(query, pool[p].document), p, pool[p]);
    var i := MatchAmongRanked(pool, query, p);
    RankedPrefix(sorted, PyPrefix(sorted, nResults), i);
  }

  /** A matching entry's hit sits somewhere in the ranked hits. */
  lemma MatchAmongRanked(pool: seq<Entry>, query: string, p: nat) returns (i: nat)
    requires p < |pool| && Relevance(query, pool[p].document) > 0
    ensures Ranked(SortHits(HitsOf(pool, query, |pool|)))
    ensures i < |SortHits(HitsOf(pool, query, |pool|))|
    ensures SortHits(HitsOf(pool, query, |pool|))[i] == Hit(Relevance(query, pool[p].document), p, pool[p])
  {
    var hs := HitsOf(pool, query, |pool|);
    var sorted := SortHits(hs);
    var mine := Hit(Relevance(query, pool[p].document), p, pool[p]);
    HitsSound(pool, query, |pool|);
    HitsInPoolOrder(pool, query, |pool|);
    SortHitsRanked(hs);
    HitsComplete(pool, query, |pool|, p);
    var j :| 0 <= j < |hs| && hs[j].pos == p;
    assert hs[j] == mine by {
      assert SoundHit(pool, query, hs[j]);
    }
    assert mine in multiset(sorted);
    i :| 0 <= i < |sorted| && sorted[i] == mine;
  }

  /** In a prefix of a ranked list, an element is kept or ranks after everything kept. */
  lemma RankedPrefix(sorted: seq<Hit>, top: seq<Hit>, i: nat)
    requires Ranked(sorted) && |top| <= |sorted| && top == sorted[..|top|] && i < |sorted|
    ensures i < |top| ==> top[i] == sorted[i]
    ensures i >= |top| ==> forall k :: 0 <= k < |top| ==> Before(top[k], sorted[i])
  {
  }

  /** A query without tokens matches nothing. */
  lemma EmptyQueryFindsNothing(pool: seq<Entry>, nResults: int)
    ensures SearchOver(pool, "", nResults) == SearchResult([], [], [])
  {
    assert Tokens(Lower("")) == [];
    EmptyHits(pool, |pool|);
  }

  lemma {:induction false} EmptyHits(pool: seq<Entry>, n: nat)
    requires n <= |pool|
    ensures HitsOf(pool, "", n) == []
  {
    if n > 0 {
      EmptyHits(pool, n - 1);
    }
  }

  /** The scoring loop of `search`: one hit per pool entry that contains some query token. */
  method ScoreEntries(pool: seq<Entry>, query: string) returns (scored: seq<Hit>)
    ensures scored == HitsOf(pool, query, |pool|)
  {
    scored := [];
    for i := 0 to |pool|
      invariant scored == HitsOf(pool, query, i)
    {
      var score := Relevance(query, pool[i].document);
      if score > 0 {
        scored := scored + [Hit(score, i, pool[i])];
      }
    }
  }

  /** The loop of `search` that appends each kept entry's document, metadata and id to the three lists. */
  method Unzip(top: seq<Hit>) returns (result: SearchResult)
    ensures result == ResultOf(top)
  {
    var docs: seq<string> := [];
    var metas: seq<map<string, string>> := [];
    var ids: seq<string> := [];
    for i := 0 to |top|
      invariant |docs| == |metas| == |ids| == i
      invariant forall k :: 0 <= k < i ==> docs[k] == top[k].entry.document
      invariant forall k :: 0 <= k < i ==> metas[k] == top[k].entry.metadata
      invariant forall k :: 0 <= k < i ==> ids[k] == top[k].entry.id
    {
      docs := docs + [top[i].entry.document];
      metas := metas + [top[i].entry.metadata];
      ids := ids + [top[i].entry.id];
    }
    result := SearchResult(docs, metas, ids);
  }

  // ---------------------------------------------------------------------------
  // The store
  // ---------------------------------------------------------------------------

  /** The search filter: `None`, or a metadata dictionary such as `{"type": "research"}`. */
  type Filter = Option<map<string, string>>

  class VectorStore {
    var documents: seq<Entry>
    var brandVoiceDocs: seq<Entry>
    var researchDocs: seq<Entry>

    /** The category lists are the brand-voice and research entries of `documents`, in order. */
    ghost predicate Valid()
      reads this
    {
      && brandVoiceDocs == OfType(documents, "brand_voice")
      && researchDocs == OfType(documents, "research")
    }

    constructor()
      ensures Valid()
      ensures documents == [] && brandVoiceDocs == [] && researchDocs == []
    {
      documents := [];
      brandVoiceDocs := [];
      researchDocs := [];
    }

    /** `add_documents`: one entry per triple, stopping at the shortest list. */
    method AddDocuments(docs: seq<string>, metas: seq<map<string, string>>, ids: seq<string>)
      modifies this
      requires Valid()
      ensures Valid()
      ensures documents == old(documents) + Zip(docs, metas, ids)
      ensures brandVoiceDocs == old(brandVoiceDocs) + OfType(Zip(docs, metas, ids), "brand_voice")
      ensures researchDocs == old(researchDocs) + OfType(Zip(docs, metas, ids), "research")
    {
      var added := Zip(docs, metas, ids);
      var n := Min(|docs|, Min(|metas|, |ids|));
      for i := 0 to n
        invariant documents == old(documents) + added[..i]
        invariant Valid()
      {
        var entry := Entry(ids[i], docs[i], metas[i]);
        ZipPrefixStep(docs, metas, ids, i);
        OfTypeAppendOne(documents, entry, "brand_voice");
        OfTypeAppendOne(documents, entry, "research");
        documents := documents + [entry];
        if TypeOf(metas[i]) == Some("brand_voice") {
          brandVoiceDocs := brandVoiceDocs + [entry];
        } else if TypeOf(metas[i]) == Some("research") {
          researchDocs := researchDocs + [entry];
        }
      }
      assert added[..n] == added;
      OfTypeAppend(old(documents), added, "brand_voice");
      OfTypeAppend(old(documents), added, "research");
    }

    /** The list `search` ranks: a category list for a non-empty filter whose type names one, else every entry. */
    function Pool(filter: Filter): seq<Entry>
      reads this
    {
      if filter.Some? && filter.value != map[] && TypeOf(filter.value) == Some("brand_voice") then brandVoiceDocs
      else if filter.Some? && filter.value != map[] && TypeOf(filter.value) == Some("research") then researchDocs
      else documents
    }

    /** `search`: score the pool, keep the matches, sort them stably by score, truncate, and unzip. */
    method Search(query: string, nResults: int := 5, filter: Filter := None) returns (result: SearchResult)
      ensures result == SearchOver(Pool(filter), query, nResults)
    {
      var pool := documents;
      if filter.Some? && filter.value != map[] {
        var docType := TypeOf(filter.value);
        if docType == Some("brand_voice") {
          pool := brandVoiceDocs;
        } else if docType == Some("research") {
          pool := researchDocs;
        }
      }
      var scored := ScoreEntries(pool, query);
      result := Unzip(PyPrefix(SortHits(scored), nResults));
    }

    /** `get_brand_voice_examples`: the first `n` brand-voice documents, in the order they were added. */
    function BrandVoiceExamples(n: int := 3): (r: seq<string>)
      reads this
      ensures var shown := PyPrefix(brandVoiceDocs, n);
        |r| == |shown| && forall i :: 0 <= i < |r| ==> r[i] == brandVoiceDocs[i].document
    {
      var shown := PyPrefix(brandVoiceDocs, n);
      seq(|shown|, i requires 0 <= i < |shown| => shown[i].document)
    }

    /** `add_brand_voice_example`: one entry of type "brand_voice". */
    method AddBrandVoiceExample(content: string, docId: string)
      modifies this
      requires Valid()
      ensures Valid()
      ensures documents == old(documents) + [Entry(docId, content, map["type" := "brand_voice"])]
      ensures brandVoiceDocs == old(brandVoiceDocs) + [Entry(docId, content, map["type" := "brand_voice"])]
      ensures researchDocs == old(researchDocs)
    {
      var e := Entry(docId, content, map["type" := "brand_voice"]);
      assert Zip([content], [map["type" := "brand_voice"]], [docId]) == [e];
      assert OfType([e], "brand_voice") == [e] && OfType([e], "research") == [] by {
        assert [e][..0] == [];
      }
      AddDocuments([content], [map["type" := "brand_voice"]], [docId]);
    }

    /** `store_research`: one entry of type "research" carrying its topic and source. */
    method StoreResearch(topic: string, content: string, source: string, docId: string)
      modifies this
      requires Valid()
      ensures Valid()
      ensures documents == old(documents) + [Entry(docId, content, ResearchMetadata(topic, source))]
      ensures researchDocs == old(researchDocs) + [Entry(docId, content, ResearchMetadata(topic, source))]
      ensures brandVoiceDocs == old(brandVoiceDocs)
    {
      var meta := ResearchMetadata(topic, source);
      var e := Entry(docId, content, meta);
      assert Zip([content], [meta], [docId]) == [e];
      assert OfType([e], "research") == [e] && OfType([e], "brand_voice") == [] by {
        assert [e][..0] == [];
      }
      AddDocuments([content], [meta], [docId]);
    }

    /** `retrieve_research`: a search over the research entries only. */
    method RetrieveResearch(topic: string, nResults: int := 5) returns (result: SearchResult)
      ensures result == SearchOver(researchDocs, topic, nResults)
    {
      result := Search(topic, nResults, Some(map["type" := "research"]));
    }
  }

  /** `{"type": "research", "topic": topic, "source": source}`. */
  function ResearchMetadata(topic: string, source: string): (m: map<string, string>)
    ensures TypeOf(m) == Some("research")
    ensures m.Keys == {"type", "topic", "source"}
  {
    map["type" := "research", "topic" := topic, "source" := source]
  }

  /** The search pool for each filter: only a non-empty filter naming a category narrows it. */
  lemma PoolByFilter(store: VectorStore, filter: Filter)
    requires store.Valid()
    ensures filter.None? || filter.value == map[] ==> store.Pool(filter) == store.documents
    ensures filter.Some? && TypeOf(filter.value) == Some("research") ==>
      store.Pool(filter) == OfType(store.documents, "research")
    ensures filter.Some? && TypeOf(filter.value) == Some("brand_voice") ==>
      store.Pool(filter) == OfType(store.documents, "brand_voice")
    ensures filter.Some? && TypeOf(filter.value) != Some("research") && TypeOf(filter.value) != Some("brand_voice") ==>
      store.Pool(filter) == store.documents
  {
  }

  /** Brand-voice examples are the first brand-voice documents ever added, in the order they were added. */
  lemma BrandVoiceExamplesInOrder(store: VectorStore, n: int)
    requires store.Valid()
    ensures var ex := store.BrandVoiceExamples(n);
      var bv := OfType(store.documents, "brand_voice");
      && (n >= 0 ==> |ex| == Min(n, |bv|))
      && forall i :: 0 <= i < |ex| ==> ex[i] == bv[i].document
  {
  }
}
