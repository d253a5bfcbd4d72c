/**
 * `GroqAPIService` (backend/services/groq_service.py:10-281): the key-rotating
 * completion client as a class whose fields change in place, and
 * `generate_educational_content`, which wraps request, parse and fallback.
 *
 * Credentials are opaque tokens supplied to the constructor; the client object
 * is represented by the token it was built with.
 */
module GroqService {
  import opened Wrappers
  import opened Strings
  import opened KeyRotation
  import opened LearningStyles
  import opened ContentParsing
  import opened FallbackContent

  /** What `generate_educational_content` returns: the parsed model payload, or the fallback template. */
  datatype Generated<+J> = FromModel(doc: J) | FromFallback(content: EducationalContent)

  /** The trace `t` with the calls `ks` made before it. */
  ghost function Prepend(ks: seq<nat>, t: Trace): Trace {
    t.(keysUsed := ks + t.keysUsed)
  }

  lemma PrependTwice(a: seq<nat>, b: seq<nat>, t: Trace)
    ensures Prepend(a, Prepend(b, t)) == Prepend(a + b, t)
  {
    assert a + (b + t.keysUsed) == (a + b) + t.keysUsed;
  }

  class GroqApiService {
    const apiKeys: seq<string>
    const maxRequestsPerKey: nat
    var currentKeyIndex: nat
    var requestCount: nat
    /** The credential the current client was built with (`self.client`). */
    var client: string

    ghost predicate Valid()
      reads this
    {
      |apiKeys| > 0 && currentKeyIndex < |apiKeys| && client == apiKeys[currentKeyIndex]
    }

    function State(): Pool
      reads this
    {
      Pool(currentKeyIndex, requestCount)
    }

    /** `__init__`: first key, zero requests, the configured bound; `api_keys[0]` needs a non-empty pool. */
    constructor(keys: seq<string>)
      requires |keys| > 0
      ensures Valid()
      ensures apiKeys == keys && maxRequestsPerKey == MaxRequestsPerKey
      ensures State() == Pool(0, 0) && client == keys[0]
    {
      apiKeys := keys;
      maxRequestsPerKey := MaxRequestsPerKey;
      currentKeyIndex := 0;
      requestCount := 0;
      client := keys[0];
    }

    /** `_rotate_api_key`: next index modulo the pool size, counter reset, client rebuilt on the new key. */
    method RotateApiKey()
      requires Valid()
      modifies this
      ensures Valid()
      ensures State() == Rotate(old(State()), |apiKeys|)
    {
      currentKeyIndex := (currentKeyIndex + 1) % |apiKeys|;
      requestCount := 0;
      client := apiKeys[currentKeyIndex];
    }

    /**
     * `_make_request`: the retry loop over `len(api_keys)` attempts. The returned outcome,
     * the new pool state and the keys the provider was called with are those of `Request`.
     */
    method MakeRequest(request: CompletionRequest, provider: Provider) returns (outcome: RequestOutcome, ghost keysUsed: seq<nat>)
      requires Valid()
      modifies this
      ensures Valid()
      ensures Trace(State(), outcome, keysUsed) == Request(old(State()), |apiKeys|, maxRequestsPerKey, request, provider)
    {
      var n := |apiKeys|;
      ghost var used: seq<nat> := [];
      var attempt := 0;
      while attempt < n
        invariant Valid() && 0 <= attempt <= n
        invariant Request(old(State()), n, maxRequestsPerKey, request, provider)
          == Prepend(used, Attempts(State(), n, maxRequestsPerKey, request, provider, attempt))
      {
        ghost var before := State();
        if requestCount >= maxRequestsPerKey {
          RotateApiKey();
        }
        ghost var q := State();
        assert q == Proactive(before, n, maxRequestsPerKey);
        var key := currentKeyIndex;
        match provider(request, attempt)
        case Completed(content) =>
          requestCount := requestCount + 1;
          assert Attempts(before, n, maxRequestsPerKey, request, provider, attempt)
            == Trace(State(), Returned(content), [key]);
          outcome := Returned(content);
          keysUsed := used + [key];
          return;
        case Failed(message) =>
          if IsQuotaError(message) {
            RotateApiKey();
          }
          ghost var next := State();
          if attempt == n - 1 {
            assert Attempts(before, n, maxRequestsPerKey, request, provider, attempt)
              == Trace(next, Raised(message), [key]);
            outcome := Raised(message);
            keysUsed := used + [key];
            return;
          }
          assert Attempts(before, n, maxRequestsPerKey, request, provider, attempt)
            == Prepend([key], Attempts(next, n, maxRequestsPerKey, request, provider, attempt + 1));
          PrependTwice(used, [key], Attempts(next, n, maxRequestsPerKey, request, provider, attempt + 1));
        used := used + [key];
        attempt := attempt + 1;
      }
      outcome := Returned(None);
      keysUsed := used;
    }

    /**
     * `generate_educational_content`: never raises. The model's text is parsed when the
     * request returned one; a raised request, a `None` content or a failed parse all
     * yield the fallback template.
     */
    method GenerateEducationalContent<J>(topic: string, level: string, style: string, provider: Provider, loads: string -> Option<J>)
      returns (r: Generated<J>)
      requires Valid()
      modifies this
      ensures Valid()
      ensures var t := Request(old(State()), |apiKeys|, maxRequestsPerKey, ContentRequest(topic, level, style), provider);
        State() == t.pool && r == Synthesize(t.outcome, loads, Fallback(topic, level, style))
    {
      var request := ContentRequest(topic, level, style);
      r := RequestAndParse(request, topic, level, style, provider, loads);
    }

    /**
     * The `try` block of `generate_educational_content` for an already built request: one
     * `_make_request`, then the parsed document or the fallback template.
     */
    method RequestAndParse<J>(request: CompletionRequest, topic: string, level: string, style: string,
                              provider: Provider, loads: string -> Option<J>) returns (r: Generated<J>)
      requires Valid()
      modifies this
      ensures Valid()
      ensures var t := Request(old(State()), |apiKeys|, maxRequestsPerKey, request, provider);
        State() == t.pool && r == Synthesize(t.outcome, loads, Fallback(topic, level, style))
    {
      var outcome, keysUsed := MakeRequest(request, provider);
      ghost var t := Trace(State(), outcome, keysUsed);
      assert t.pool == State() && t.outcome == outcome;
      r := ContentOrFallback(outcome, topic, level, style, loads);
    }

    /** Lines 176-180: the parsed document, or the fallback template when there is none. */
    static method ContentOrFallback<J>(outcome: RequestOutcome, topic: string, level: string, style: string,
                                       loads: string -> Option<J>) returns (r: Generated<J>)
      ensures r == Synthesize(outcome, loads, Fallback(topic, level, style))
    {
      var doc := ModelDocument(outcome, loads);
      if doc.Some? {
        r := FromModel(doc.value);
        SynthesizeCases(outcome, loads, Fallback(topic, level, style));
      } else {
        var fallback := GetFallbackContent(topic, level, style);
        r := FromFallback(fallback);
        SynthesizeCases(outcome, loads, fallback);
      }
    }

    /**
     * The messages and settings of lines 69-174, built for one call: a system prompt naming
     * the topic, level and style, then the user line, on the default model at temperature
     * 0.7 with 4000 tokens.
     */
    static method BuildContentRequest(topic: string, level: string, style: string) returns (request: CompletionRequest)
      ensures request == ContentRequest(topic, level, style)
      ensures RequestShape(request, topic, level, style)
    {
      request := ContentRequest(topic, level, style);
      ContentRequestShape(topic, level, style);
    }

    /**
     * `_get_fallback_content`: the deterministic template for the topic and style, with the
     * style's emphasis looked up case-insensitively (unknown styles use the visual entry).
     */
    static method GetFallbackContent(topic: string, level: string, style: string) returns (content: EducationalContent)
      ensures content == Fallback(topic, level, style)
      ensures TemplateShape(content, topic, style, ConfigFor(style).contentEmphasis)
    {
      content := Fallback(topic, level, style);
      FallbackShape(topic, style, ConfigFor(style));
    }

    /**
     * The `try` body after the request: a returned text is cleaned and parsed
     * (`_parse_educational_content`); anything else produces no document.
     */
    static method ModelDocument<J>(outcome: RequestOutcome, loads: string -> Option<J>) returns (doc: Option<J>)
      ensures doc == Accepted(outcome, loads)
    {
      match outcome
      case Returned(Some(text)) =>
        var parsed := ParseEducationalContent(text, loads);
        match parsed {
          case Parsed(d) => doc := Some(d);
          case ParseFailed(_) => doc := None;
        }
      case _ =>
        doc := None;
    }
  }

  /** The system prompt of lines 69-164 with `config` the style's table entry. */
  function ContentPrompt(topic: string, level: string, style: string): string {
    HeaderTask(topic, level, style) + HeaderFocus(ConfigFor(style)) + ResponseSchema(level, style) + PromptFooter(level, style)
  }

  /** Lines 69-71: role, audience and topic. */
  function HeaderTask(topic: string, level: string, style: string): string {
    "You are an expert " + "educational content " + "creator specializing in " + style + " learning.\n"
    + "\n"
    + "Create comprehensive " + "educational content for " + level + " level learners about: " + topic + "\n"
  }

  /** Lines 72-76: the style's emphasis and instructions, then the request for JSON. */
  function HeaderFocus(config: StyleConfig): string {
    "\n"
    + "Learning Style Focus: " + config.contentEmphasis + "\n"
    + config.promptSuffix + "\n"
    + "\n"
    + "Generate ONLY valid " + "JSON with this exact " + "structure:\n"
  }

  /** Lines 77-162: the JSON shape the model is asked to produce. */
  function ResponseSchema(level: string, style: string): string {
    "{\n"
    + "  \"learning_objectives\": " + "[\n"
    + "    \"Detailed objective " + "1 (specific and " + "measurable)\",\n"
    + "    \"Detailed objective " + "2 (with action verbs)\",\n"
    + "    \"Detailed objective " + "3 (tailored to " + level + " level)\",\n"
    + "    \"Detailed objective " + "4 (aligned with " + style + " learning)\",\n"
    + "    \"Detailed objective " + "5 (practical " + "application)\"\n"
    + "  ],\n"
    + "  \"video_script\": " + "\"Comprehensive 3-4 " + "minute script with " + "[SCENE: description] "
    + "markers for visual " + "cues. "
    + "Include engaging " + "narration tailored for " + style + " learners. "
    + "Format with proper " + "paragraphs and scene " + "breaks.\",\n"
    + "  \"quiz\": [\n"
    + "    {\n"
    + "      \"question\": " + "\"Thought-provoking " + "question 1\",\n"
    + "      \"options\": " + "[\"Option A\", \"Option " + "B\", \"Option C\", \"Option " + "D\"],\n"
    + "      \"correct_answer\": " + "0,\n"
    + "      \"explanation\": " + "\"Detailed explanation " + "with learning " + "reinforcement\",\n"
    + "      \"hint\": \"Helpful " + "hint for learners\"\n"
    + "    },\n"
    + "    {\n"
    + "      \"question\": " + "\"Application-based " + "question 2\",\n"
    + "      \"options\": " + "[\"Option A\", \"Option " + "B\", \"Option C\", \"Option " + "D\"], \n"
    + "      \"correct_answer\": " + "1,\n"
    + "      \"explanation\": " + "\"Clear explanation " + "connecting to learning " + "objectives\",\n"
    + "      \"hint\": \"Guiding " + "hint\"\n"
    + "    },\n"
    + "    {\n"
    + "      \"question\": " + "\"Analysis question 3\",\n"
    + "      \"options\": " + "[\"Option A\", \"Option " + "B\", \"Option C\", \"Option " + "D\"],\n"
    + "      \"correct_answer\": " + "2,\n"
    + "      \"explanation\": " + "\"Comprehensive " + "explanation\",\n"
    + "      \"hint\": " + "\"Strategic hint\"\n"
    + "    },\n"
    + "    {\n"
    + "      \"question\": " + "\"Synthesis question 4\", " + "\n"
    + "      \"options\": " + "[\"Option A\", \"Option " + "B\", \"Option C\", \"Option " + "D\"],\n"
    + "      \"correct_answer\": " + "1,\n"
    + "      \"explanation\": " + "\"In-depth explanation\",\n"
    + "      \"hint\": " + "\"Learning-focused hint\"\n"
    + "    },\n"
    + "    {\n"
    + "      \"question\": " + "\"Evaluation question " + "5\",\n"
    + "      \"options\": " + "[\"Option A\", \"Option " + "B\", \"Option C\", \"Option " + "D\"],\n"
    + "      \"correct_answer\": " + "3,\n"
    + "      \"explanation\": " + "\"Detailed explanation " + "with examples\",\n"
    + "      \"hint\": " + "\"Supportive hint\"\n"
    + "    }\n"
    + "  ],\n"
    + "  \"flashcards\": [\n"
    + "    {\n"
    + "      \"front\": \"Key " + "concept 1\",\n"
    + "      \"back\": " + "\"Comprehensive " + "explanation with " + "examples\"\n"
    + "    },\n"
    + "    {\n"
    + "      \"front\": " + "\"Important term 2\",\n"
    + "      \"back\": \"Clear " + "definition with " + "context\"\n"
    + "    },\n"
    + "    {\n"
    + "      \"front\": " + "\"Process/Method 3\",\n"
    + "      \"back\": " + "\"Step-by-step " + "explanation\"\n"
    + "    },\n"
    + "    {\n"
    + "      \"front\": " + "\"Application 4\",\n"
    + "      \"back\": " + "\"Real-world example and " + "usage\"\n"
    + "    },\n"
    + "    {\n"
    + "      \"front\": " + "\"Connection 5\",\n"
    + "      \"back\": \"How this " + "relates to broader " + "concepts\"\n"
    + "    },\n"
    + "    {\n"
    + "      \"front\": " + "\"Practice 6\",\n"
    + "      \"back\": \"Example " + "problem or scenario\"\n"
    + "    },\n"
    + "    {\n"
    + "      \"front\": \"Summary " + "7\",\n"
    + "      \"back\": \"Key " + "takeaway and " + "importance\"\n"
    + "    },\n"
    + "    {\n"
    + "      \"front\": \"Next " + "Steps 8\",\n"
    + "      \"back\": \"What to " + "learn next or how to " + "apply\"\n"
    + "    }\n"
    + "  ],\n"
    + "  \"ui_suggestions\": {\n"
    + "    \"color_scheme\": " + "\"Recommended colors " + "based on topic and " + "learning style\",\n"
    + "    \"layout_emphasis\": " + "\"Visual focus areas for " + style + " learners\",\n"
    + "    \"interaction_type\": " + "\"Recommended " + "interaction patterns\"\n"
    + "  }\n"
    + "}\n"
  }

  /** Lines 163-164. */
  function PromptFooter(level: string, style: string): string {
    "\n"
    + "Ensure the content is " + "engaging, " + "age-appropriate for " + level + " level, and optimized " + "for " + style + " learning style."
  }

  /** The request of lines 167-174 for the prompt of lines 69-164. */
  function ContentRequest(topic: string, level: string, style: string): CompletionRequest {
    RequestWith(ContentPrompt(topic, level, style), topic)
  }

  /** Lines 167-174: system prompt, user line, default model, temperature 0.7, 4000 tokens. */
  function RequestWith(systemPrompt: string, topic: string): CompletionRequest {
    CompletionRequest(
      [ChatMessage(System, systemPrompt),
       ChatMessage(User, "Create educational " + "content for: " + topic)],
      "llama3-8b-8192", 0.7, 4000)
  }

  /**
   * What a caller of lines 167-174 can rely on: two messages, the system prompt first and
   * the user line second; the system prompt names the topic, the level and the style.
   */
  predicate RequestShape(request: CompletionRequest, topic: string, level: string, style: string) {
    && |request.messages| == 2
    && request.messages[0].role == System && request.messages[1].role == User
    && request.messages[1].content == "Create educational " + "content for: " + topic
    && request.model == "llama3-8b-8192" && request.temperature == 0.7 && request.maxTokens == 4000
    && Contains(request.messages[0].content, topic)
    && Contains(request.messages[0].content, level)
    && Contains(request.messages[0].content, style)
  }

  /** The header names the topic on line 71. */
  lemma HeaderNamesTopic(topic: string, level: string, style: string)
    ensures Contains(HeaderTask(topic, level, style), topic)
  {
    ContainsConcat("You are an expert " + "educational content " + "creator specializing in " + style + " learning.\n"
      + "\n"
      + "Create comprehensive " + "educational content for " + level + " level learners about: ", topic, "\n");
  }

  /** The closing line names both the level and the style. */
  lemma FooterNamesLevelAndStyle(level: string, style: string)
    ensures Contains(PromptFooter(level, style), level)
    ensures Contains(PromptFooter(level, style), style)
  {
    var lead := "\n" + "Ensure the content is " + "engaging, " + "age-appropriate for ";
    var head := lead + level + " level, and optimized " + "for ";
    ContainsConcat(lead, level, " level, and optimized ");
    ContainsAppend(lead + level + " level, and optimized ", "for ", level);
    ContainsAppend(head, style, level);
    ContainsAppend(head + style, " learning style.", level);
    ContainsConcat(head, style, " learning style.");
  }

  /** A prompt whose first part names the topic and whose last part names the level and style names all three. */
  lemma PartsNamed(task: string, focus: string, schema: string, footer: string, topic: string, level: string, style: string)
    requires Contains(task, topic) && Contains(footer, level) && Contains(footer, style)
    ensures var prompt := task + focus + schema + footer;
      Contains(prompt, topic) && Contains(prompt, level) && Contains(prompt, style)
  {
    ContainsAppend(task, focus, topic);
    ContainsAppend(task + focus, schema, topic);
    ContainsAppend(task + focus + schema, footer, topic);
    ContainsPrepend(task + focus + schema, footer, level);
    ContainsPrepend(task + focus + schema, footer, style);
  }

  /** The system prompt names the topic, the level and the style. */
  lemma ContentPromptNames(topic: string, level: string, style: string)
    ensures var prompt := ContentPrompt(topic, level, style);
      Contains(prompt, topic) && Contains(prompt, level) && Contains(prompt, style)
  {
    HeaderNamesTopic(topic, level, style);
    FooterNamesLevelAndStyle(level, style);
    PartsNamed(HeaderTask(topic, level, style), HeaderFocus(ConfigFor(style)), ResponseSchema(level, style),
               PromptFooter(level, style), topic, level, style);
  }

  /** Any system prompt naming the three parameters gives a request of that shape. */
  lemma RequestWithShape(systemPrompt: string, topic: string, level: string, style: string)
    requires Contains(systemPrompt, topic) && Contains(systemPrompt, level) && Contains(systemPrompt, style)
    ensures RequestShape(RequestWith(systemPrompt, topic), topic, level, style)
  {
  }

  lemma ContentRequestShape(topic: string, level: string, style: string)
    ensures RequestShape(ContentRequest(topic, level, style), topic, level, style)
  {
    ContentPromptNames(topic, level, style);
    RequestWithShape(ContentPrompt(topic, level, style), topic, level, style);
  }

  /**
   * The document the model's reply yields: only a returned text that parses; `re.sub`
   * on a `None` content raises a TypeError, handled like any other failure.
   */
  function Accepted<J>(outcome: RequestOutcome, loads: string -> Option<J>): Option<J> {
    match outcome
    case Returned(Some(text)) =>
      (match Parse(text, loads)
       case Parsed(doc) => Some(doc)
       case ParseFailed(_) => None)
    case _ => None
  }

  /** The result of `generate_educational_content` once the request has run, with `fallback` the template. */
  function Synthesize<J>(outcome: RequestOutcome, loads: string -> Option<J>, fallback: EducationalContent): Generated<J> {
    match Accepted(outcome, loads)
    case Some(doc) => FromModel(doc)
    case None => FromFallback(fallback)
  }

  /** `Synthesize` by cases on whether the reply yields a document. */
  lemma SynthesizeCases<J>(outcome: RequestOutcome, loads: string -> Option<J>, fallback: EducationalContent)
    ensures Synthesize(outcome, loads, fallback)
      == (if Accepted(outcome, loads).Some? then FromModel(Accepted(outcome, loads).value) else FromFallback(fallback))
  {
  }

  /**
   * The model's document is used exactly when the request returned a text that parses;
   * a raised request, a `None` content, a reply without `{` or one `loads` rejects all
   * give the fallback template.
   */
  lemma SynthesizeFallsBack<J>(outcome: RequestOutcome, loads: string -> Option<J>, fallback: EducationalContent)
    ensures var r := Synthesize(outcome, loads, fallback);
      && (r.FromModel? <==> outcome.Returned? && outcome.content.Some? && Parse(outcome.content.value, loads).Parsed?)
      && (r.FromModel? ==> r.doc == Parse(outcome.content.value, loads).doc)
      && (r.FromFallback? ==> r.content == fallback)
  {
  }

  /**
   * A reply whose first `{` is never closed yields the empty candidate; when `json.loads("")`
   * fails, as it does, the parse fails and the caller gets the fallback template.
   */
  lemma UnclosedReplyFallsBack<J>(text: string, loads: string -> Option<J>, fallback: EducationalContent)
    requires loads("") == None
    requires IndexFrom(Clean(text), '{', 0).Some?
    requires OpenThrough(Clean(text), IndexFrom(Clean(text), '{', 0).value, |Clean(text)|)
    ensures Parse(text, loads) == ParseFailed(InvalidJson(""))
    ensures Synthesize(Returned(Some(text)), loads, fallback) == FromFallback(fallback)
  {
    UnclosedCandidate(Clean(text));
  }

  /** When every provider call fails, the request raises and the result is the fallback. */
  lemma FallsBackWhenAllFail<J>(p: Pool, n: nat, max: nat, request: CompletionRequest, provider: Provider,
                                loads: string -> Option<J>, fallback: EducationalContent)
    requires n > 0
    requires forall i :: 0 <= i < n ==> provider(request, i).Failed?
    ensures Synthesize(Request(p, n, max, request, provider).outcome, loads, fallback) == FromFallback(fallback)
  {
    RequestRaisesIffAllFail(p, n, max, request, provider);
  }
}
