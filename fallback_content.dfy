/**
 * The educational-content payload (backend/models.py) and the deterministic
 * template `_get_fallback_content` (backend/services/groq_service.py:213-281).
 */
module FallbackContent {
  import opened Strings
  import opened LearningStyles

  datatype QuizItem = QuizItem(
    question: string,
    options: seq<string>,
    correctAnswer: int,
    explanation: string,
    hint: string)

  datatype Flashcard = Flashcard(front: string, back: string)

  datatype UiSuggestions = UiSuggestions(colorScheme: string, layoutEmphasis: string, interactionType: string)

  datatype EducationalContent = EducationalContent(
    learningObjectives: seq<string>,
    videoScript: string,
    quiz: seq<QuizItem>,
    flashcards: seq<Flashcard>,
    uiSuggestions: UiSuggestions)

  /** Every quiz item has four options and an answer index among them. */
  predicate QuizWellFormed(quiz: seq<QuizItem>) {
    forall q :: q in quiz ==> |q.options| == 4 && 0 <= q.correctAnswer < 4
  }

  /** The narration script of lines 225-238, `[SCENE: ...]` markers included. */
  function FallbackScript(topic: string, style: string, emphasis: string): string {
    ScriptOpeningLead(topic) + style + ScriptRest(topic, style, emphasis)
  }

  /** Lines 225-226 up to the style. */
  function ScriptOpeningLead(topic: string): string {
    "[SCENE: Introduction " + "with " + topic + " overview]\n"
    + "Welcome to this " + "comprehensive lesson on " + topic + "! Today we'll explore " + "this fascinating " + "subject through a "
  }

  /** Lines 226-238 after the style. */
  function ScriptRest(topic: string, style: string, emphasis: string): string {
    " learning approach.\n"
    + "\n"
    + ScriptMiddle(topic, emphasis) + ScriptClosing(topic, style)
  }

  /** Lines 228-235: the three middle scenes. */
  function ScriptMiddle(topic: string, emphasis: string): string {
    ConceptsLead(topic) + emphasis + ScriptBody(topic)
  }

  /** Lines 228-229 up to the emphasis. */
  function ConceptsLead(topic: string): string {
    "[SCENE: Core concepts " + "explanation] \n"
    + "Let's start by " + "understanding what " + topic + " really means and why " + "it's important in " + "today's world. "
  }

  /** Lines 229-235 after the emphasis. */
  function ScriptBody(topic: string): string {
    " will help us grasp " + "these concepts " + "effectively.\n"
    + "\n"
    + "[SCENE: Detailed " + "breakdown]\n"
    + "Now, let's dive deeper " + "into the key components " + "and examine how they " + "work together to form " + "the complete picture of " + topic + ".\n"
    + "\n"
    + "[SCENE: Practical " + "applications]\n"
    + "Finally, we'll see how " + topic + " applies to real-world " + "situations and how you " + "can use this knowledge " + "in practical scenarios.\n"
    + "\n"
  }

  /** Lines 237-238. */
  function ScriptClosing(topic: string, style: string): string {
    "[SCENE: Summary and " + "next steps]\n"
    + "To summarize, we've " + "covered the essential " + "aspects of " + topic + " using " + style + " learning techniques. "
    + "Remember to practice " + "these concepts and " + "explore further!"
  }

  function FallbackObjectives(topic: string): (r: seq<string>)
    ensures |r| == 5
  {
    [ "Understand the " + "fundamental concepts of " + topic,
      "Analyze key components " + "and their relationships " + "in " + topic,
      "Apply " + topic + " principles to " + "real-world scenarios",
      "Evaluate different " + "approaches and methods " + "in " + topic,
      "Create solutions using " + topic + " knowledge and skills" ]
  }

  function FallbackQuiz(topic: string, style: string, emphasis: string): (r: seq<QuizItem>)
    ensures |r| == 3 && QuizWellFormed(r)
  {
    [ QuizItem(
        "What is the primary " + "focus of " + topic + "?",
        ["Option A", "Option B", "Option C", "Option D"],
        0,
        "The primary focus helps " + "establish the " + "foundation for " + "understanding " + topic + ".",
        "Think about the core " + "purpose and main " + "objectives."),
      QuizItem(
        "How does " + topic + " apply to real-world " + "scenarios?",
        ["Limited applications", "Broad practical uses", "Theoretical only", "Outdated concepts"],
        1,
        topic + " has extensive " + "real-world applications " + "across many fields.",
        "Consider the practical " + "benefits and widespread " + "usage."),
      QuizItem(
        "What makes " + topic + " particularly suitable " + "for " + style + " learners?",
        ["Text-heavy content", emphasis, "Audio-only format", "Abstract concepts"],
        1,
        "The emphasis on " + emphasis + " aligns perfectly with " + style + " learning preferences.",
        "Think about how the " + "content is presented " + "and structured.") ]
  }

  function FallbackFlashcards(topic: string, style: string, emphasis: string): (r: seq<Flashcard>)
    ensures |r| == 3
  {
    [ Flashcard(
        "What is " + topic + "?",
        "A comprehensive subject " + "area with practical " + "applications and " + "theoretical foundations."),
      Flashcard(
        "Key benefits of " + topic,
        "Provides practical " + "skills, theoretical " + "understanding, and " + "real-world applications."),
      Flashcard(
        style + " learning approach",
        "Emphasizes " + emphasis + " for optimal learning " + "experience.") ]
  }

  /** The template filled with a given style configuration. */
  function FallbackFor(topic: string, style: string, config: StyleConfig): EducationalContent {
    EducationalContent(
      FallbackObjectives(topic),
      FallbackScript(topic, style, config.contentEmphasis),
      FallbackQuiz(topic, style, config.contentEmphasis),
      FallbackFlashcards(topic, style, config.contentEmphasis),
      UiSuggestions(
        "Blue and green " + "gradients for trust and " + "growth",
        "Focus on " + config.videoStyle,
        "Interactive elements " + "suited for " + style + " learners"))
  }

  /** `_get_fallback_content(topic, learner_level, learning_style)`; `level` is accepted and not used. */
  function Fallback(topic: string, level: string, style: string): EducationalContent {
    FallbackFor(topic, style, ConfigFor(style))
  }

  /**
   * What the template promises a caller: five objectives, each naming the topic; three
   * well-formed quiz items, the first naming the topic; three flashcards; and a script
   * naming the topic, the style and the style's emphasis.
   */
  predicate TemplateShape(c: EducationalContent, topic: string, style: string, emphasis: string) {
    && |c.learningObjectives| == 5 && (forall o :: o in c.learningObjectives ==> Contains(o, topic))
    && |c.quiz| == 3 && QuizWellFormed(c.quiz) && Contains(c.quiz[0].question, topic)
    && |c.flashcards| == 3
    && Contains(c.videoScript, topic) && Contains(c.videoScript, style) && Contains(c.videoScript, emphasis)
  }

  /** Each of the five objectives mentions the topic. */
  lemma ObjectivesMentionTopic(topic: string)
    ensures forall o :: o in FallbackObjectives(topic) ==> Contains(o, topic)
  {
    ContainsSuffix("Understand the " + "fundamental concepts of ", topic);
    ContainsSuffix("Analyze key components " + "and their relationships " + "in ", topic);
    ContainsConcat("Apply ", topic, " principles to ");
    ContainsAppend("Apply " + topic + " principles to ", "real-world scenarios", topic);
    ContainsSuffix("Evaluate different " + "approaches and methods " + "in ", topic);
    ContainsConcat("Create solutions using ", topic, " knowledge and skills");
  }

  /** Three quiz items with four options each and an answer index among them; the first question names the topic. */
  lemma QuizMentionsTopic(topic: string, style: string, emphasis: string)
    ensures var quiz := FallbackQuiz(topic, style, emphasis);
      |quiz| == 3 && QuizWellFormed(quiz) && Contains(quiz[0].question, topic)
  {
    ContainsConcat("What is the primary " + "focus of ", topic, "?");
  }

  /** The narration script names the learning style verbatim. */
  lemma ScriptMentionsStyle(topic: string, style: string, emphasis: string)
    ensures Contains(FallbackScript(topic, style, emphasis), style)
  {
    ContainsConcat(ScriptOpeningLead(topic), style, ScriptRest(topic, style, emphasis));
  }

  /** Whatever the middle scenes name, the whole script names. */
  lemma MiddleInScript(topic: string, style: string, emphasis: string, needle: string)
    requires Contains(ScriptMiddle(topic, emphasis), needle)
    ensures Contains(FallbackScript(topic, style, emphasis), needle)
  {
    var mark := " learning approach.\n" + "\n";
    ContainsPrepend(mark, ScriptMiddle(topic, emphasis), needle);
    ContainsAppend(mark + ScriptMiddle(topic, emphasis), ScriptClosing(topic, style), needle);
    ContainsPrepend(ScriptOpeningLead(topic) + style, ScriptRest(topic, style, emphasis), needle);
  }

  /** The script names the topic, in its core-concepts scene, and the style's emphasis. */
  lemma ScriptMentionsTopicAndEmphasis(topic: string, style: string, emphasis: string)
    ensures Contains(FallbackScript(topic, style, emphasis), topic)
    ensures Contains(FallbackScript(topic, style, emphasis), emphasis)
  {
    var lead := ConceptsLead(topic);
    var head := "[SCENE: Core concepts " + "explanation] \n" + "Let's start by " + "understanding what ";
    ContainsConcat(head, topic, " really means and why ");
    ContainsAppend(head + topic + " really means and why ", "it's important in ", topic);
    ContainsAppend(head + topic + " really means and why " + "it's important in ", "today's world. ", topic);
    ContainsAppend(lead, emphasis, topic);
    ContainsAppend(lead + emphasis, ScriptBody(topic), topic);
    MiddleInScript(topic, style, emphasis, topic);
    ContainsConcat(lead, emphasis, ScriptBody(topic));
    MiddleInScript(topic, style, emphasis, emphasis);
  }

  /** The template keeps every promise of `TemplateShape`, whatever the style's table entry. */
  lemma FallbackShape(topic: string, style: string, config: StyleConfig)
    ensures TemplateShape(FallbackFor(topic, style, config), topic, style, config.contentEmphasis)
  {
    ObjectivesMentionTopic(topic);
    QuizMentionsTopic(topic, style, config.contentEmphasis);
    ScriptMentionsStyle(topic, style, config.contentEmphasis);
    ScriptMentionsTopicAndEmphasis(topic, style, config.contentEmphasis);
  }

  /** The template's script is the script for the style's table entry. */
  lemma ScriptField(topic: string, level: string, style: string)
    ensures Fallback(topic, level, style).videoScript == FallbackScript(topic, style, ConfigFor(style).contentEmphasis)
  {
  }

  /** The learner level does not influence the fallback payload. */
  lemma FallbackIgnoresLevel(topic: string, level1: string, level2: string, style: string)
    ensures Fallback(topic, level1, style) == Fallback(topic, level2, style)
  {
  }

  /** A style outside the table is templated with the visual entry, its own name kept verbatim. */
  lemma FallbackUnknownStyle(topic: string, level: string, style: string)
    requires Entry(Lower(style)).None?
    ensures Fallback(topic, level, style) == FallbackFor(topic, style, Entry("visual").value)
  {
    assert ConfigFor(style) == Entry("visual").value;
  }

  /** The first character of `s` sits right after `lead`. */
  lemma FirstAfterLead(lead: string, s: string, rest: string)
    requires |s| > 0
    ensures |lead| < |lead + s + rest| && (lead + s + rest)[|lead|] == s[0]
  {
  }

  /** Styles with different first letters give different scripts, whatever the emphases. */
  lemma ScriptsDiffer(topic: string, style1: string, emphasis1: string, style2: string, emphasis2: string)
    requires |style1| > 0 && |style2| > 0 && style1[0] != style2[0]
    ensures FallbackScript(topic, style1, emphasis1) != FallbackScript(topic, style2, emphasis2)
  {
    var lead := ScriptOpeningLead(topic);
    FirstAfterLead(lead, style1, ScriptRest(topic, style1, emphasis1));
    FirstAfterLead(lead, style2, ScriptRest(topic, style2, emphasis2));
  }

  /** Visual and auditory learners get different scripts for the same topic. */
  lemma FallbackScriptDependsOnStyle(topic: string, level: string)
    ensures Fallback(topic, level, "visual").videoScript != Fallback(topic, level, "auditory").videoScript
  {
    FallbackScriptsDiffer(topic, level, "visual", "auditory");
  }

  /** Styles with different first letters get different fallback scripts. */
  lemma FallbackScriptsDiffer(topic: string, level: string, style1: string, style2: string)
    requires |style1| > 0 && |style2| > 0 && style1[0] != style2[0]
    ensures Fallback(topic, level, style1).videoScript != Fallback(topic, level, style2).videoScript
  {
    ScriptField(topic, level, style1);
    ScriptField(topic, level, style2);
    ScriptsDiffer(topic, style1, ConfigFor(style1).contentEmphasis, style2, ConfigFor(style2).contentEmphasis);
  }
}
