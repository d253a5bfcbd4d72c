/**
 * The pure text functions of `ChatbotService`
 * (backend/services/chatbot_service.py:126-248): the contextual system
 * prompt, the keyword fallback reply, and the summary and study-tips prompts.
 */
module ChatPrompts {
  import opened Wrappers
  import opened Strings

  /** An element of a list in the context: a string, or any other value kept with its `repr()`. */
  datatype ListItem = StrItem(text: string) | OtherItem(repr: string)

  /**
   * A value of the learning context, which the source keeps as `Dict[str, Any]`: a string,
   * a list, or a value that cannot be sliced (a number, None), kept with its `str()` rendering.
   */
  datatype ContextValue = Text(text: string) | ListValue(items: seq<ListItem>) | OtherValue(rendered: string)

  type Context = map<string, ContextValue>

  /** The first `min(3, |s|)` elements, Python's `s[:3]`. */
  function FirstThree<T>(s: seq<T>): (r: seq<T>)
    ensures |r| == Min(3, |s|) && r <= s
  {
    if |s| <= 3 then s else s[..3]
  }

  /** A list of strings as context items. */
  function StrItems(texts: seq<string>): (r: seq<ListItem>)
    ensures |r| == |texts| && forall i :: 0 <= i < |r| ==> r[i] == StrItem(texts[i])
  {
    seq(|texts|, i requires 0 <= i < |texts| => StrItem(texts[i]))
  }

  /** `repr()` of each item: a string in single quotes (not escaped), anything else as kept. */
  function Reprs(items: seq<ListItem>): (r: seq<string>)
    ensures |r| == |items|
  {
    seq(|items|, i requires 0 <= i < |items| => match items[i] case StrItem(t) => "'" + t + "'" case OtherItem(s) => s)
  }

  /** `str(v)` as an f-string renders a context value. */
  function Render(v: ContextValue): string {
    match v
    case Text(t) => t
    case ListValue(items) => "[" + Join(Reprs(items), ", ") + "]"
    case OtherValue(r) => r
  }

  /** The items' strings when every item is a string; None when one is not, where `str.join` raises. */
  function ItemTexts(items: seq<ListItem>): (r: Option<seq<string>>)
    ensures r.Some? <==> forall i :: 0 <= i < |items| ==> items[i].StrItem?
    ensures r.Some? ==> |r.value| == |items| && forall i :: 0 <= i < |items| ==> r.value[i] == items[i].text
  {
    if |items| == 0 then Some([])
    else if items[0].OtherItem? then None
    else match ItemTexts(items[1..])
      case None => None
      case Some(rest) => Some([items[0].text] + rest)
  }

  /** The characters of a string as one-character strings: what iterating a `str` yields. */
  function Chars(s: string): (r: seq<string>)
    ensures |r| == |s|
  {
    seq(|s|, i requires 0 <= i < |s| => [s[i]])
  }

  /**
   * `', '.join(v[:3])`: for a string, its first three characters joined; for a list, its
   * first three items, which must be strings; otherwise a TypeError, here None.
   */
  function JoinFirstThree(v: ContextValue): Option<string> {
    match v
    case Text(t) => Some(Join(Chars(FirstThree(t)), ", "))
    case ListValue(items) =>
      (match ItemTexts(FirstThree(items))
       case None => None
       case Some(texts) => Some(Join(texts, ", ")))
    case OtherValue(_) => None
  }

  /** Where `', '.join(v[:3])` raises: an unsliceable value, or a list whose first three items hold a non-string. */
  predicate JoinRaises(v: ContextValue) {
    || v.OtherValue?
    || (v.ListValue? && exists i :: 0 <= i < |v.items| && i < 3 && v.items[i].OtherItem?)
  }

  /** The fixed assistant description every system prompt begins with (lines 129-149). */
  const BasePrompt: string :=
    "You are EduForge AI " + "Assistant, an expert " + "educational chatbot " + "designed to help " + "students learn " + "effectively. You have " + "the following " + "capabilities:\n"
    + "\n"
    + "1. **Answer Questions**: " + "Provide clear, accurate " + "answers on any " + "educational topic\n"
    + "2. **Summarize Topics**: " + "Create concise, " + "comprehensive summaries " + "of complex subjects\n"
    + "3. **Clarify Concepts**: " + "Break down difficult " + "ideas into " + "understandable parts\n"
    + "4. **Learning Support**: " + "Offer study tips, " + "learning strategies, " + "and educational " + "guidance\n"
    + "5. **Context Awareness**: " + "Remember our " + "conversation and build " + "upon previous topics\n"
    + "\n"
    + "Your communication " + "style should be:\n"
    + "- Clear and educational\n"
    + "- Encouraging and " + "supportive  \n"
    + "- Appropriate for " + "learners of all levels\n"
    + "- Concise but " + "comprehensive\n"
    + "- Engaging and " + "interactive\n"
    + "\n"
    + "Guidelines:\n"
    + "- Always provide " + "accurate, helpful " + "information\n"
    + "- If you don't know " + "something, admit it and " + "suggest how to find the " + "answer\n"
    + "- Use examples and " + "analogies to explain " + "complex concepts\n"
    + "- Encourage critical " + "thinking and curiosity\n"
    + "- Maintain conversation " + "context and refer back " + "to previous topics when " + "relevant"

  const ContextHeader: string := "\n\nCurrent Learning " + "Context:\n"

  /** Appended once a conversation holds more than six messages (line 170). */
  const ContinuityNote: string :=
    "\n\nConversation Summary: " + "We have been discussing " + "educational topics. " + "Please maintain " + "continuity with our " + "previous conversation " + "while helping with new " + "questions."

  /** The message count above which the continuity note is added. */
  const LongConversation: nat := 6

  /** One `- Label: value` line when `key` is in the context, else nothing. */
  function ContextLine(ctx: Context, key: string, name: string): string {
    if key in ctx then "- " + name + ": " + Render(ctx[key]) + "\n" else ""
  }

  /** The objectives line of line 163, "" without objectives, None when the join raises. */
  function ObjectivesLine(ctx: Context): Option<string> {
    if "recent_objectives" in ctx then
      match JoinFirstThree(ctx["recent_objectives"])
      case None => None
      case Some(j) => Some("- Recent Learning " + "Objectives: " + j + "\n")
    else Some("")
  }

  /** The lines of lines 156-163, or None when joining the objectives raises. */
  function ContextLines(ctx: Context): Option<string> {
    match ObjectivesLine(ctx)
    case None => None
    case Some(objectives) =>
      Some(ContextLine(ctx, "current_topic", "Current Topic")
        + (ContextLine(ctx, "learning_style", "Learner Style")
           + ContextLine(ctx, "learner_level", "Learner Level")
           + objectives))
  }

  /** The continuity note when there are more than six messages, else nothing. */
  function ContinuitySuffix(messageCount: nat): string {
    if messageCount > LongConversation then ContinuityNote else ""
  }

  /** The base prompt, followed by the context block when the context is non-empty (lines 129-165). */
  function PromptBody(ctx: Context): Option<string> {
    if |ctx| == 0 then Some(BasePrompt)
    else match ContextLines(ctx)
      case None => None
      case Some(lines) => Some(BasePrompt + ContextHeader + lines)
  }

  /**
   * `_build_system_prompt` for a conversation with context `ctx` and `messageCount`
   * messages; None when the objectives line raises.
   */
  function BuildSystemPrompt(ctx: Context, messageCount: nat): Option<string> {
    match PromptBody(ctx)
    case None => None
    case Some(body) => Some(body + ContinuitySuffix(messageCount))
  }

  /** `a` is a prefix of `a + b`, and prefixes carry over to extensions. */
  lemma PrefixConcat(a: string, b: string, c: string)
    requires a <= b
    ensures a <= b + c
  {
    assert (b + c)[..|a|] == b[..|a|];
  }

  /**
   * The context block appears exactly for a non-empty context: an empty one leaves the
   * base prompt alone, a non-empty one follows it with the context header.
   */
  lemma ContextBlockIffNonEmpty(ctx: Context)
    ensures |ctx| == 0 ==> PromptBody(ctx) == Some(BasePrompt)
    ensures |ctx| > 0 && PromptBody(ctx).Some? ==>
      BasePrompt + ContextHeader <= PromptBody(ctx).value && |PromptBody(ctx).value| > |BasePrompt|
    ensures PromptBody(ctx).Some? ==> BasePrompt <= PromptBody(ctx).value
  {
    if |ctx| > 0 && PromptBody(ctx).Some? {
      var lines := ContextLines(ctx).value;
      assert PromptBody(ctx).value == (BasePrompt + ContextHeader) + lines;
      PrefixConcat(BasePrompt + ContextHeader, BasePrompt + ContextHeader, lines);
      PrefixConcat(BasePrompt, BasePrompt, ContextHeader);
    }
  }

  /**
   * The continuity note is added exactly when there are more than six messages:
   * a short conversation's prompt is the body alone, a long one's the body and the note.
   */
  lemma ContinuityNoteIffLong(ctx: Context, messageCount: nat)
    ensures BuildSystemPrompt(ctx, messageCount).Some? <==> PromptBody(ctx).Some?
    ensures PromptBody(ctx).Some? && messageCount <= LongConversation ==>
      BuildSystemPrompt(ctx, messageCount) == PromptBody(ctx)
    ensures PromptBody(ctx).Some? && messageCount > LongConversation ==>
      BuildSystemPrompt(ctx, messageCount) == Some(PromptBody(ctx).value + ContinuityNote)
  {
    ShortPromptKeepsBody(ctx, messageCount);
    LongPromptAddsNote(ctx, messageCount);
  }

  lemma ShortPromptKeepsBody(ctx: Context, messageCount: nat)
    ensures PromptBody(ctx).Some? && messageCount <= LongConversation ==>
      BuildSystemPrompt(ctx, messageCount) == PromptBody(ctx)
  {
    if PromptBody(ctx).Some? {
      SuffixCases(PromptBody(ctx).value, messageCount);
    }
  }

  lemma LongPromptAddsNote(ctx: Context, messageCount: nat)
    ensures PromptBody(ctx).Some? && messageCount > LongConversation ==>
      BuildSystemPrompt(ctx, messageCount) == Some(PromptBody(ctx).value + ContinuityNote)
  {
    if PromptBody(ctx).Some? {
      SuffixCases(PromptBody(ctx).value, messageCount);
    }
  }

  /** The body is kept as it is for a short conversation and followed by the note for a long one. */
  lemma SuffixCases(body: string, messageCount: nat)
    ensures messageCount <= LongConversation ==> body + ContinuitySuffix(messageCount) == body
    ensures messageCount > LongConversation ==> body + ContinuitySuffix(messageCount) == body + ContinuityNote
  {
    if messageCount <= LongConversation {
      assert body + "" == body;
    }
  }

  /** Every prompt built starts with the assistant description. */
  lemma PromptStartsWithBase(ctx: Context, messageCount: nat)
    requires BuildSystemPrompt(ctx, messageCount).Some?
    ensures BasePrompt <= BuildSystemPrompt(ctx, messageCount).value
  {
    ContextBlockIffNonEmpty(ctx);
    PrefixConcat(BasePrompt, PromptBody(ctx).value, ContinuitySuffix(messageCount));
  }

  /** The prompt only ever shows the first three recent objectives. */
  lemma PromptUsesFirstThreeObjectives(ctx: Context, objectives: seq<ListItem>, messageCount: nat)
    requires "recent_objectives" in ctx && ctx["recent_objectives"] == ListValue(objectives)
    ensures BuildSystemPrompt(ctx, messageCount)
      == BuildSystemPrompt(ctx["recent_objectives" := ListValue(FirstThree(objectives))], messageCount)
  {
    var ctx' := ctx["recent_objectives" := ListValue(FirstThree(objectives))];
    assert ctx'.Keys == ctx.Keys;
    assert |ctx'| == |ctx|;
    assert FirstThree(FirstThree(objectives)) == FirstThree(objectives);
    forall k | k in ctx && k != "recent_objectives"
      ensures ctx'[k] == ctx[k]
    {
    }
    assert ContextLine(ctx', "current_topic", "Current Topic") == ContextLine(ctx, "current_topic", "Current Topic");
    assert ContextLine(ctx', "learning_style", "Learner Style") == ContextLine(ctx, "learning_style", "Learner Style");
    assert ContextLine(ctx', "learner_level", "Learner Level") == ContextLine(ctx, "learner_level", "Learner Level");
  }

  /** A topic given as a string appears verbatim in the prompt. */
  lemma PromptMentionsTopic(ctx: Context, topic: string, messageCount: nat)
    requires "current_topic" in ctx && ctx["current_topic"] == Text(topic)
    requires BuildSystemPrompt(ctx, messageCount).Some?
    ensures Contains(BuildSystemPrompt(ctx, messageCount).value, topic)
  {
    var lead := "- " + "Current Topic" + ": ";
    var rest := ContextLine(ctx, "learning_style", "Learner Style")
      + ContextLine(ctx, "learner_level", "Learner Level") + ObjectivesLine(ctx).value;
    assert |ctx| > 0 by { assert "current_topic" in ctx.Keys; }
    assert ContextLines(ctx).value == lead + topic + "\n" + rest;
    TopicInPrompt(BasePrompt + ContextHeader, lead, topic, "\n", rest, ContinuitySuffix(messageCount));
  }

  /** A string placed in the context lines occurs in the prompt built around them. */
  lemma TopicInPrompt(head: string, lead: string, topic: string, tail: string, rest: string, note: string)
    ensures Contains(head + (lead + topic + tail + rest) + note, topic)
  {
    ContainsConcat(lead, topic, tail);
    ContainsAppend(lead + topic + tail, rest, topic);
    ContainsPrepend(head, lead + topic + tail + rest, topic);
    ContainsAppend(head + (lead + topic + tail + rest), note, topic);
  }

  /** The join yields a string exactly when `JoinRaises` does not hold. */
  lemma JoinFirstThreeRaisesIff(v: ContextValue)
    ensures JoinFirstThree(v).None? <==> JoinRaises(v)
  {
    if v.ListValue? {
      var head := FirstThree(v.items);
      assert forall i :: 0 <= i < |head| ==> head[i] == v.items[i];
    }
  }

  /** Building the prompt raises exactly when the context holds objectives whose join raises. */
  lemma PromptRaisesIff(ctx: Context, messageCount: nat)
    ensures BuildSystemPrompt(ctx, messageCount).None? <==>
      "recent_objectives" in ctx && JoinRaises(ctx["recent_objectives"])
  {
    if "recent_objectives" in ctx {
      JoinFirstThreeRaisesIff(ctx["recent_objectives"]);
      assert |ctx| > 0 by { assert "recent_objectives" in ctx.Keys; }
    }
  }

  /** Only the first three items are joined: `["a", "b", "c", 5]` gives `a, b, c`. */
  lemma LaterItemsNotJoined()
    ensures JoinFirstThree(ListValue([StrItem("a"), StrItem("b"), StrItem("c"), OtherItem("5")])) == Some("a, b, c")
  {
    var items := [StrItem("a"), StrItem("b"), StrItem("c"), OtherItem("5")];
    var first := [StrItem("a"), StrItem("b"), StrItem("c")];
    assert FirstThree(items) == first;
    var empty: seq<ListItem> := [];
    assert ItemTexts(empty) == Some([]);
    assert ItemTexts([StrItem("c")]) == Some(["c"]) by {
      assert [StrItem("c")][1..] == empty;
      assert ["c"] + [] == ["c"];
    }
    assert ItemTexts([StrItem("b"), StrItem("c")]) == Some(["b", "c"]) by {
      assert [StrItem("b"), StrItem("c")][1..] == [StrItem("c")];
      assert ["b"] + ["c"] == ["b", "c"];
    }
    assert first[1..] == [StrItem("b"), StrItem("c")];
    assert ["a"] + ["b", "c"] == ["a", "b", "c"];
    var texts := ["a", "b", "c"];
    assert texts[1..] == ["b", "c"] && texts[1..][1..] == ["c"];
    assert Join(texts, ", ") == "a, b, c";
  }

  /** Keyword groups of `_get_fallback_response`, in the order they are tried. */
  const ExplainWords: seq<string> := ["what is", "define", "explain"]
  const ProcessWords: seq<string> := ["how to", "how do", "steps"]
  const SummaryWords: seq<string> := ["summary", "summarize", "overview"]
  const HelpWords: seq<string> := ["help", "stuck", "confused"]

  const ExplainReply: string :=
    "I'd be happy to help " + "explain that concept! " + "However, I'm " + "experiencing some " + "technical difficulties " + "right now. Could you try " + "rephrasing your " + "question, or I can help " + "you find reliable " + "educational resources to " + "look up the information " + "you need."
  const ProcessReply: string :=
    "Great question about the " + "process! While I'm " + "having some " + "connectivity issues, I " + "can suggest breaking " + "down your learning into " + "smaller steps and " + "checking reputable " + "educational sources for " + "step-by-step guides."
  const SummaryReply: string :=
    "I'd love to help create " + "a summary for you! " + "Unfortunately, I'm " + "experiencing technical " + "issues. In the meantime, " + "try creating your own " + "summary by identifying " + "the main points, key " + "concepts, and important " + "details of the topic " + "you're studying."
  const HelpReply: string :=
    "I understand you need " + "help! Even though I'm " + "having technical " + "difficulties, here are " + "some general study " + "strategies: break the " + "problem into smaller " + "parts, review the " + "basics, try explaining " + "it to someone else, and " + "don't hesitate to seek " + "additional resources or " + "ask teachers/peers for " + "clarification."
  const GenericReply: string :=
    "Thank you for your " + "question! I'm currently " + "experiencing technical " + "difficulties, but I'm " + "here to help with your " + "learning. Please try " + "asking your question " + "again, or feel free to " + "explore the educational " + "content and resources " + "available in EduForge AI."

  /** `any(word in text for word in words)`. */
  predicate AnyIn(text: string, words: seq<string>) {
    exists w :: w in words && Contains(text, w)
  }

  /** `_get_fallback_response`: the first keyword group found in the lower-cased message picks the reply. */
  function FallbackResponse(message: string): string {
    var m := Lower(message);
    if AnyIn(m, ExplainWords) then ExplainReply
    else if AnyIn(m, ProcessWords) then ProcessReply
    else if AnyIn(m, SummaryWords) then SummaryReply
    else if AnyIn(m, HelpWords) then HelpReply
    else GenericReply
  }

  lemma RepliesDistinct()
    ensures ExplainReply != ProcessReply && ExplainReply != SummaryReply && ExplainReply != HelpReply && ExplainReply != GenericReply
    ensures ProcessReply != SummaryReply && ProcessReply != HelpReply && ProcessReply != GenericReply
    ensures SummaryReply != HelpReply && SummaryReply != GenericReply
    ensures HelpReply != GenericReply
  {
    assert ExplainReply[0] == 'I' && ExplainReply[4] == 'b';
    assert ProcessReply[0] == 'G';
    assert SummaryReply[0] == 'I' && SummaryReply[4] == 'l';
    assert HelpReply[0] == 'I' && HelpReply[2] == 'u';
    assert ExplainReply[2] == 'd' && SummaryReply[2] == 'd';
    assert GenericReply[0] == 'T';
  }

  /**
   * Each reply is chosen exactly when its keyword group is the first one present,
   * in the order explain, process, summary, help, and the generic reply otherwise.
   */
  lemma FallbackResponsePriority(message: string)
    ensures var m, r := Lower(message), FallbackResponse(message);
      && (r == ExplainReply <==> AnyIn(m, ExplainWords))
      && (r == ProcessReply <==> !AnyIn(m, ExplainWords) && AnyIn(m, ProcessWords))
      && (r == SummaryReply <==> !AnyIn(m, ExplainWords) && !AnyIn(m, ProcessWords) && AnyIn(m, SummaryWords))
      && (r == HelpReply <==>
            !AnyIn(m, ExplainWords) && !AnyIn(m, ProcessWords) && !AnyIn(m, SummaryWords) && AnyIn(m, HelpWords))
      && (r == GenericReply <==>
            !AnyIn(m, ExplainWords) && !AnyIn(m, ProcessWords) && !AnyIn(m, SummaryWords) && !AnyIn(m, HelpWords))
  {
    RepliesDistinct();
  }

  /** The keyword match ignores case: a message and its lower-cased form get the same reply. */
  lemma FallbackResponseIgnoresCase(message: string)
    ensures FallbackResponse(message) == FallbackResponse(Lower(message))
  {
    LowerIdempotent(message);
  }

  /** `detail_instructions.get(detail_level, detail_instructions["medium"])`. */
  function DetailInstruction(detail: string): string {
    if detail == "brief" then
      "Provide a concise 2-3 " + "sentence summary " + "covering only the most " + "essential points."
    else if detail == "detailed" then
      "Generate an in-depth " + "summary with multiple " + "paragraphs covering " + "concepts, applications, " + "examples, and " + "significance."
    else
      "Create a comprehensive " + "paragraph summary (4-6 " + "sentences) covering key " + "concepts and main ideas."
  }

  const SummaryBody: string :=
    "\n\nThe summary should be " + "educational, accurate, " + "and appropriate for " + "learners. Include:\n"
    + "- Main concepts and " + "definitions\n"
    + "- Key points and " + "important details\n"
    + "- Practical applications " + "or examples (if " + "applicable)\n"
    + "- Why this topic is " + "important or relevant\n"
    + "\n"
    + "Format the response in a " + "clear, organized manner " + "that's easy to " + "understand."

  /** The prompt `summarize_topic` sends through `chat` (lines 203-221). */
  function SummarizePrompt(topic: string, detail: string): string {
    "Please provide a " + detail + " summary of the topic: " + topic + "\n\n" + DetailInstruction(detail) + SummaryBody
  }

  /** The summary prompt names the topic and carries the instruction for the level, the medium one for unknown levels. */
  lemma SummarizePromptContents(topic: string, detail: string)
    ensures Contains(SummarizePrompt(topic, detail), topic)
    ensures Contains(SummarizePrompt(topic, detail), DetailInstruction(detail))
    ensures detail != "brief" && detail != "detailed" ==> DetailInstruction(detail) == DetailInstruction("medium")
  {
    var lead := "Please provide a " + detail + " summary of the topic: ";
    PromptPieces(lead, topic, "\n\n", DetailInstruction(detail), SummaryBody);
  }

  /** Both the topic and the instruction occur in a prompt assembled around them. */
  lemma PromptPieces(lead: string, topic: string, sep: string, instruction: string, body: string)
    ensures Contains(lead + topic + sep + instruction + body, topic)
    ensures Contains(lead + topic + sep + instruction + body, instruction)
  {
    ContainsConcat(lead, topic, sep + instruction + body);
    assert lead + topic + (sep + instruction + body) == lead + topic + sep + instruction + body;
    ContainsConcat(lead + topic + sep, instruction, body);
  }

  /** `style_note`: added only for a truthy learning style (None is the empty string here). */
  function StyleNote(style: string): string {
    if style == "" then "" else " Keep in mind that " + ("I'm a " + style + " learner.")
  }

  const TipsBody: string :=
    "\n\nPlease include:\n"
    + "- Specific study " + "techniques that work " + "well for this subject\n"
    + "- How to organize and " + "structure learning\n"
    + "- Common challenges and " + "how to overcome them\n"
    + "- Ways to test " + "understanding and " + "retention\n"
    + "- Additional resources " + "or tools that might help\n"
    + "\n"
    + "Make the advice " + "practical and " + "actionable."

  /** The prompt `get_study_tips` sends through `chat` (lines 233-246). */
  function StudyTipsPrompt(topic: string, style: string): string {
    "Can you provide " + "effective study tips and " + "strategies for learning " + "about " + topic + "?" + StyleNote(style) + TipsBody
  }

  /**
   * The study-tips prompt names the topic; a non-empty style adds the note naming it,
   * and with no style the prompt is exactly the note-less one.
   */
  lemma StudyTipsPromptContents(topic: string, style: string)
    ensures Contains(StudyTipsPrompt(topic, style), topic)
    ensures style != "" ==> Contains(StudyTipsPrompt(topic, style), "I'm a " + style + " learner.")
    ensures |StudyTipsPrompt(topic, style)| == |StudyTipsPrompt(topic, "")| + |StyleNote(style)|
  {
    var lead := "Can you provide " + "effective study tips and " + "strategies for learning " + "about ";
    var note := StyleNote(style);
    NotedPrompt(lead, topic, "?", note, TipsBody);
    if style != "" {
      NoteInPrompt(lead + topic + "?", " Keep in mind that ", "I'm a " + style + " learner.", TipsBody);
    }
  }

  /** The topic occurs in a prompt whatever note follows it, and the note adds exactly its own length. */
  lemma NotedPrompt(lead: string, topic: string, mark: string, note: string, body: string)
    ensures Contains(lead + topic + mark + note + body, topic)
    ensures |lead + topic + mark + note + body| == |lead + topic + mark + "" + body| + |note|
  {
    ContainsConcat(lead, topic, mark + note + body);
    assert lead + topic + (mark + note + body) == lead + topic + mark + note + body;
  }

  /** A phrase ending a note occurs in the prompt that carries the note. */
  lemma NoteInPrompt(head: string, intro: string, phrase: string, body: string)
    ensures Contains(head + (intro + phrase) + body, phrase)
  {
    ContainsSuffix(intro, phrase);
    ContainsPrepend(head, intro + phrase, phrase);
    ContainsAppend(head + (intro + phrase), body, phrase);
  }
}
