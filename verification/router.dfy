/**
 * The deterministic part of query routing: cutting the JSON out of a model
 * reply that may wrap it in a markdown code fence, and the keyword rules
 * that pick an agent from the user's query when the reply does not parse.
 * The model call and the JSON parser are outside the model; the parser is
 * a parameter.
 */
module Router {
  import opened Text

  const Fence: string := "```"
  const JsonFence: string := "```json"

  // ---------------------------------------------------------------------------
  // Fence stripping
  // ---------------------------------------------------------------------------

  /**
   * The text handed to the JSON parser: the stripped reply; or, when it holds
   * "```json", the text between the first "```json" and the next "```"; or,
   * when it holds only "```", the text between the first two "```"; stripped
   * again in both fenced cases.
   */
  function StripFence(reply: string): (r: string)
    ensures r == [] || (!IsSpace(r[0]) && !IsSpace(r[|r| - 1]))
    ensures Contains(Strip(reply), Fence) ==> !Contains(r, Fence)
  {
    var content := Strip(reply);
    if Contains(content, JsonFence) then
      CountPositiveIffContains(content, JsonFence);
      var inner := Split(Split(content, JsonFence)[1], Fence)[0];
      StripKeepsAbsence(inner, Fence);
      Strip(inner)
    else if Contains(content, Fence) then
      CountPositiveIffContains(content, Fence);
      var inner := Split(Split(content, Fence)[1], Fence)[0];
      StripKeepsAbsence(inner, Fence);
      Strip(inner)
    else content
  }

  /** A reply without any fence is passed on stripped and otherwise unchanged. */
  lemma UnfencedReply(reply: string)
    requires !Contains(Strip(reply), Fence)
    ensures StripFence(reply) == Strip(reply)
  {
    assert StartsWith(JsonFence, Fence);
    if Contains(Strip(reply), JsonFence) {
      ContainsTransitive(Strip(reply), JsonFence, Fence);
    }
  }

  /** Text with no "```" followed by "```" holds no "```json": its only backticks are the closing fence. */
  lemma NoJsonFenceBeforeClose(body: string)
    requires !Contains(body, Fence)
    ensures !Contains(body + Fence, JsonFence)
  {
    var s := body + Fence;
    ContainsIffOccurs(s, JsonFence);
    ContainsIffOccurs(body, Fence);
    forall i | 0 <= i && i + 7 <= |s| ensures !OccursAt(s, JsonFence, i) {
      assert s[i..i + 7][..3] == s[i..i + 3] == body[i..i + 3];
      assert !OccursAt(body, Fence, i);
    }
  }

  /** A reply made of `fenced` padded with whitespace strips to `fenced`, when `fenced` opens and closes with a backtick. */
  lemma StripFencedReply(before: string, fenced: string, after: string)
    requires AllSpace(before) && AllSpace(after)
    requires fenced != [] && fenced[0] == '`' && fenced[|fenced| - 1] == '`'
    ensures Strip(before + fenced + after) == fenced
  {
    StripPadded(before, fenced, after);
    StripUnpadded(fenced);
  }

  /** The text between "```json" and the closing "```" of `"```json" + body + "```"` is `body`. */
  lemma JsonFenceInner(body: string)
    requires !Contains(body, Fence) && (body == [] || body[|body| - 1] != '`')
    ensures Split(Split(JsonFence + body + Fence, JsonFence)[1], Fence)[0] == body
  {
    var closed := body + Fence;
    AfterJsonFence(body);
    assert Split(closed, Fence)[0] == body by {
      FirstPiece(body, Fence, []);
      assert body + Fence + [] == closed;
    }
  }

  lemma AfterJsonFence(body: string)
    requires !Contains(body, Fence)
    ensures Split(JsonFence + body + Fence, JsonFence)[1] == body + Fence
  {
    var closed := body + Fence;
    ConcatAssoc(JsonFence, body, Fence);
    SplitLeadingSeparator(JsonFence, closed);
    NoJsonFenceBeforeClose(body);
    SplitWithoutSeparator(closed, JsonFence);
  }

  /** Wrapping a JSON body in a "```json" fence, with any surrounding whitespace, gives back the stripped body. */
  lemma JsonFenceRoundTrip(before: string, body: string, after: string)
    requires AllSpace(before) && AllSpace(after)
    requires !Contains(body, Fence) && (body == [] || body[|body| - 1] != '`')
    ensures StripFence(before + (JsonFence + body + Fence) + after) == Strip(body)
  {
    var fenced := JsonFence + body + Fence;
    FencedShape(JsonFence, body);
    StripFencedReply(before, fenced, after);
    JsonFenceInner(body);
    JsonFenceCase(before + fenced + after);
  }

  lemma FencedShape(open: string, body: string)
    requires open != [] && open[0] == '`'
    ensures var f := open + body + Fence; f[0] == '`' && f[|f| - 1] == '`' && StartsWith(f, open)
  {
    assert (open + body + Fence)[..|open|] == open;
  }

  lemma JsonFenceCase(reply: string)
    requires StartsWith(Strip(reply), JsonFence)
    ensures StripFence(reply) == Strip(Split(Split(Strip(reply), JsonFence)[1], Fence)[0])
  {
    assert Contains(Strip(reply), JsonFence);
  }

  /** Text with no backtick that does not start with "json", between two "```", holds no "```json". */
  lemma NoJsonFenceInPlainFence(body: string)
    requires '`' !in body && !StartsWith(body, "json")
    ensures !Contains(Fence + body + Fence, JsonFence)
  {
    var s := Fence + body + Fence;
    ContainsIffOccurs(s, JsonFence);
    forall i | 0 <= i && i + 7 <= |s| ensures !OccursAt(s, JsonFence, i) {
      if i >= 1 {
        assert s[i + 2] == body[i - 1];
        assert body[i - 1] in body;
        assert s[i..i + 7][2] != JsonFence[2];
      } else if |body| >= 4 {
        assert body[..4] != "json";
        var k :| 0 <= k < 4 && body[..4][k] != "json"[k];
        assert s[3 + k] == body[k];
        assert s[i..i + 7][3 + k] != JsonFence[3 + k];
      } else {
        assert s[3 + |body|] == '`';
        assert s[i..i + 7][3 + |body|] != JsonFence[3 + |body|];
      }
    }
  }

  /** The text between the two fences of `"```" + body + "```"` is `body`, when `body` has no backtick. */
  lemma PlainFenceInner(body: string)
    requires '`' !in body
    ensures Split(Split(Fence + body + Fence, Fence)[1], Fence)[0] == body
  {
    assert !Contains(body, Fence) by {
      AbsentChar(body, '`');
      assert StartsWith(Fence, ['`']);
      if Contains(body, Fence) {
        ContainsTransitive(body, Fence, ['`']);
      }
    }
    ConcatAssoc(Fence, body, Fence);
    SplitLeadingSeparator(Fence, body + Fence);
    FirstPiece(body, Fence, []);
    assert body + Fence + [] == body + Fence;
    SplitWithoutSeparator(body, Fence);
  }

  /** Wrapping a body in a plain "```" fence gives back the stripped body, unless the body could read as a "```json" fence. */
  lemma PlainFenceRoundTrip(before: string, body: string, after: string)
    requires AllSpace(before) && AllSpace(after)
    requires '`' !in body && !StartsWith(body, "json")
    ensures StripFence(before + (Fence + body + Fence) + after) == Strip(body)
  {
    var fenced := Fence + body + Fence;
    var reply := before + fenced + after;
    FencedShape(Fence, body);
    StripFencedReply(before, fenced, after);
    NoJsonFenceInPlainFence(body);
    assert Contains(fenced, Fence);
    PlainFenceInner(body);
    assert StripFence(reply) == Strip(Split(Split(fenced, Fence)[1], Fence)[0]);
  }

  // ---------------------------------------------------------------------------
  // Keyword fallback
  // ---------------------------------------------------------------------------

  /** A routing decision: the agent to run, helpers, whether to research first, and why. */
  datatype Routing = Routing(
    primaryAgent: string,
    secondaryAgents: seq<string>,
    requiresResearch: bool,
    contentType: string,
    reasoning: string)

  const Agents: seq<string> := ["research_agent", "blog_agent", "linkedin_agent", "image_agent"]
  const WriteWords: seq<string> := ["blog", "article", "write", "post"]
  const ImageWords: seq<string> := ["image", "visual", "graphic", "picture"]
  const ResearchWords: seq<string> := ["research", "find", "search", "analyze"]

  /** The keyword classifier used when the reply does not parse; it looks only at the lowercased query. */
  function KeywordRoute(query: string): (r: Routing)
    ensures r.secondaryAgents == [] && r.primaryAgent in Agents
  {
    var q := Lower(query);
    if ContainsAny(q, WriteWords) then
      if Contains(q, "linkedin") then
        Routing("linkedin_agent", [], Contains(q, "research"), "linkedin", "Detected LinkedIn content request")
      else
        Routing("blog_agent", [], true, "blog", "Detected blog content request")
    else if ContainsAny(q, ImageWords) then
      Routing("image_agent", [], false, "image", "Detected image generation request")
    else if ContainsAny(q, ResearchWords) then
      Routing("research_agent", [], true, "research", "Detected research request")
    else
      Routing("blog_agent", [], true, "general", "Default routing")
  }

  /** Letter case in the query never changes the route. */
  lemma KeywordRouteIgnoresCase(query: string)
    ensures KeywordRoute(query) == KeywordRoute(Lower(query))
  {
    LowerIdempotent(query);
  }

  /**
   * Precedence: a writing word wins over everything, then an image word, then
   * a research word; each agent is chosen exactly when its rule is the first
   * that fires.
   */
  lemma KeywordRoutePrecedence(query: string)
    ensures var q := Lower(query); var r := KeywordRoute(query);
      && (r.primaryAgent == "linkedin_agent" <==> ContainsAny(q, WriteWords) && Contains(q, "linkedin"))
      && (r.contentType == "blog" <==> ContainsAny(q, WriteWords) && !Contains(q, "linkedin"))
      && (r.primaryAgent == "image_agent" <==> !ContainsAny(q, WriteWords) && ContainsAny(q, ImageWords))
      && (r.primaryAgent == "research_agent" <==>
            !ContainsAny(q, WriteWords) && !ContainsAny(q, ImageWords) && ContainsAny(q, ResearchWords))
      && (r.contentType == "general" <==>
            !ContainsAny(q, WriteWords) && !ContainsAny(q, ImageWords) && !ContainsAny(q, ResearchWords))
  {
  }

  /** Research is skipped only for images, and for LinkedIn posts whose query does not mention research. */
  lemma KeywordRouteResearch(query: string)
    ensures var q := Lower(query); var r := KeywordRoute(query);
      !r.requiresResearch <==>
        r.primaryAgent == "image_agent" || (r.primaryAgent == "linkedin_agent" && !Contains(q, "research"))
  {
  }

  /** Matching is by substring, so "postpone" reads as "post" and routes to the blog agent. */
  lemma PostponeRoutesToBlog()
    ensures KeywordRoute("postpone the launch") == Routing("blog_agent", [], true, "blog", "Detected blog content request")
  {
    var q := "postpone the launch";
    PostponeIsLowercase(q);
    PostponeHasWriteWord(q);
    PostponeLacksLinkedin(q);
  }

  lemma PostponeIsLowercase(q: string)
    requires q == "postpone the launch"
    ensures Lower(q) == q
  {
    LowerOfLowercase(q);
  }

  lemma PostponeHasWriteWord(q: string)
    requires q == "postpone the launch"
    ensures ContainsAny(q, WriteWords)
  {
    assert StartsWith(q, "post");
    assert Contains(q, WriteWords[3]);
  }

  lemma PostponeLacksLinkedin(q: string)
    requires q == "postpone the launch"
    ensures !Contains(q, "linkedin")
  {
    AbsentChar(q, 'i');
    assert StartsWith("linkedin"[1..], ['i']);
    assert Contains("linkedin", ['i']);
    if Contains(q, "linkedin") {
      ContainsTransitive(q, "linkedin", ['i']);
    }
  }

  lemma LowerOfLowercase(s: string)
    requires forall i :: 0 <= i < |s| ==> !IsUpper(s[i])
    ensures Lower(s) == s
  {
  }

  // ---------------------------------------------------------------------------
  // The routing decision
  // ---------------------------------------------------------------------------

  /** What `route_query` returns: the parsed reply as it is, or the keyword route. */
  datatype Decision<J> = Parsed(json: J) | Keyword(routing: Routing)

  /**
   * `parse` stands for `json.loads`: `None` where it raises. The reply, once
   * its fence is stripped, decides alone when it parses; the query decides
   * alone when it does not.
   */
  function Route<J>(reply: string, query: string, parse: string -> Option<J>): (d: Decision<J>)
    ensures d.Parsed? <==> parse(StripFence(reply)).Some?
    ensures d.Parsed? ==> d.json == parse(StripFence(reply)).value
    ensures d.Keyword? ==> d.routing == KeywordRoute(query)
  {
    match parse(StripFence(reply))
    case Some(j) => Parsed(j)
    case None => Keyword(KeywordRoute(query))
  }

  /** A reply that parses is returned whatever the query says; one that does not is ignored in favour of the query. */
  lemma RouteSources<J>(reply1: string, reply2: string, query1: string, query2: string, parse: string -> Option<J>)
    ensures parse(StripFence(reply1)).Some? ==>
      Route(reply1, query1, parse) == Route(reply1, query2, parse) == Parsed(parse(StripFence(reply1)).value)
    ensures parse(StripFence(reply1)).None? && parse(StripFence(reply2)).None? ==>
      Route(reply1, query1, parse) == Route(reply2, query1, parse) == Keyword(KeywordRoute(query1))
  {
  }
}
