/**
 * The constant learning-style table and the key-rotation bound of the
 * configuration (backend/config.py). Credentials are opaque tokens here:
 * the configured keys are not part of the model.
 */
module LearningStyles {
  import opened Wrappers
  import Strings

  /** MAX_REQUESTS_PER_KEY. */
  const MaxRequestsPerKey: nat := 20

  datatype StyleConfig = StyleConfig(
    contentEmphasis: string,
    videoStyle: string,
    quizStyle: string,
    promptSuffix: string)

  /** `LEARNING_STYLES.get(name)`: exact key lookup in the table of backend/config.py:36-67. */
  function Entry(name: string): Option<StyleConfig> {
    if name == "visual" then
      Some(StyleConfig(
        "diagrams, infographics, " + "visual scenes, charts, " + "mind maps",
        "rich visual content " + "with diagrams and " + "animations",
        "visual-based questions " + "with image descriptions",
        "Focus on visual " + "elements, diagrams, and " + "scene descriptions. "
        + "Use visual metaphors " + "and spatial " + "relationships."))
    else if name == "auditory" then
      Some(StyleConfig(
        "narration, dialogues, " + "discussions, audio " + "explanations",
        "podcast-style with " + "detailed audio " + "explanations and " + "dialogues",
        "listening-based and " + "discussion questions",
        "Emphasize audio " + "content, conversations, " + "and verbal " + "explanations. "
        + "Use dialogue format and " + "discussion-based " + "learning."))
    else if name == "reading" then
      Some(StyleConfig(
        "detailed text notes, " + "structured outlines, " + "written summaries",
        "text-heavy slides with " + "detailed written content",
        "reading comprehension " + "and written analysis " + "questions",
        "Focus on detailed " + "written content, " + "structured text, and " + "comprehensive reading " + "materials. "
        + "Use bullet points and " + "organized text."))
    else if name == "kinesthetic" then
      Some(StyleConfig(
        "hands-on activities, " + "simulations, " + "interactive experiments",
        "demonstration-focused " + "with step-by-step " + "practical examples",
        "interactive and " + "simulation-based " + "questions with " + "practical scenarios",
        "Emphasize hands-on " + "learning, practical " + "examples, and " + "interactive elements. "
        + "Include " + "'try-it-yourself' " + "activities and " + "real-world applications."))
    else if name == "comprehensive" then
      Some(StyleConfig(
        "multi-modal content " + "combining visual, " + "auditory, and practical " + "elements",
        "balanced approach with " + "visuals, clear " + "narration, and " + "practical examples",
        "diverse question types " + "covering multiple " + "learning approaches",
        "Create comprehensive " + "content that appeals to " + "all learning styles. "
        + "Include visual " + "elements, clear " + "explanations, practical " + "examples, and " + "interactive components."))
    else None
  }

  /** `LEARNING_STYLES.get(style.lower(), LEARNING_STYLES["visual"])`. */
  function ConfigFor(style: string): StyleConfig {
    match Entry(Strings.Lower(style))
    case Some(c) => c
    case None => Entry("visual").value
  }

  /** The lookup depends only on the lower-cased name: any capitalisation of a style selects the same entry. */
  lemma ConfigForIgnoresCase(style: string)
    ensures ConfigFor(style) == ConfigFor(Strings.Lower(style))
  {
    Strings.LowerIdempotent(style);
  }
}
