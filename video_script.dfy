/**
 * The text helpers of `VideoGenerationService`
 * (backend/services/video_service.py): scene extraction, the OpenSora
 * prompt, and the cleaning of the narration script before speech synthesis.
 * The regular expressions are replaced by scanners that find the same
 * matches for these patterns.
 */
module VideoScript {
  import opened Wrappers
  import opened Strings

  /** The literal start of a scene marker. */
  const MarkerOpen: string := "[SCENE: "

  /**
   * `\[SCENE: ([^\]]+)\]` matched at the start of `s`: the index of the closing `]`. The title
   * runs from after the opening to the first `]` and must not be empty.
   */
  function MarkerClose(s: string): (r: Option<nat>)
    ensures r.Some? ==> |MarkerOpen| < r.value < |s| && MarkerOpen <= s && s[r.value] == ']'
    ensures r.Some? ==> forall k :: |MarkerOpen| <= k < r.value ==> s[k] != ']'
    ensures r.Some? ==> s[0] == '['
  {
    if MarkerOpen <= s then
      match IndexFrom(s, ']', |MarkerOpen|)
      case Some(j) => if j > |MarkerOpen| then Some(j) else None
      case None => None
    else None
  }

  /** `([^\[]*)` from index `from`: where the run of characters other than `[` ends. */
  function BodyEnd(s: string, from: nat): (r: nat)
    requires from <= |s|
    ensures from <= r <= |s|
    ensures forall k :: from <= k < r ==> s[k] != '['
    ensures r < |s| ==> s[r] == '['
  {
    match IndexFrom(s, '[', from)
    case Some(k) => k
    case None => |s|
  }

  /** One match of `\[SCENE: ([^\]]+)\]([^\[]*)`: the title and the text up to the next `[`. */
  datatype SceneMatch = SceneMatch(title: string, body: string)

  /** `re.findall(r'\[SCENE: ([^\]]+)\]([^[]*)', s)`. */
  function SceneMatches(s: string): seq<SceneMatch>
    decreases |s|
  {
    if |s| == 0 then []
    else match MarkerClose(s)
      case None => SceneMatches(s[1..])
      case Some(j) =>
        var k := BodyEnd(s, j + 1);
        [SceneMatch(s[|MarkerOpen|..j], s[j + 1..k])] + SceneMatches(s[k..])
  }

  /** `re.findall(r'\[SCENE: ([^\]]+)\]', s)`: the titles only. */
  function TitleMatches(s: string): seq<string>
    decreases |s|
  {
    if |s| == 0 then []
    else match MarkerClose(s)
      case None => TitleMatches(s[1..])
      case Some(j) => [s[|MarkerOpen|..j]] + TitleMatches(s[j + 1..])
  }

  /** `re.sub(r'\[SCENE: [^\]]+\]', '', s)`. */
  function RemoveMarkers(s: string): (r: string)
    ensures |r| <= |s|
    decreases |s|
  {
    if |s| == 0 then []
    else match MarkerClose(s)
      case None => [s[0]] + RemoveMarkers(s[1..])
      case Some(j) => RemoveMarkers(s[j + 1..])
  }

  /** The title of each match, in order. */
  function Titles(ms: seq<SceneMatch>): (r: seq<string>)
    ensures |r| == |ms|
  {
    if |ms| == 0 then [] else [ms[0].title] + Titles(ms[1..])
  }

  /** No match can start inside a run without `[`: text before such a run is skipped. */
  lemma {:induction false} TitleMatchesSkip(s: string, k: nat)
    requires k <= |s| && forall i :: 0 <= i < k ==> s[i] != '['
    ensures TitleMatches(s) == TitleMatches(s[k..])
    decreases k
  {
    if k > 0 {
      assert MarkerClose(s).None?;
      assert s[1..][k - 1..] == s[k..];
      TitleMatchesSkip(s[1..], k - 1);
    }
  }

  /**
   * Both patterns find the same titles: the body group never consumes a `[`, so the
   * title-and-body search resumes where the title-only search would find its next marker.
   */
  lemma {:induction false} SceneTitlesAgree(s: string)
    ensures Titles(SceneMatches(s)) == TitleMatches(s)
    decreases |s|
  {
    if |s| > 0 {
      var close := MarkerClose(s);
      if close.None? {
        SceneTitlesAgree(s[1..]);
      } else {
        var j := close.value;
        var k := BodyEnd(s, j + 1);
        MarkerStep(s, j);
        SceneTitlesAgree(s[k..]);
        TitlesCons(SceneMatch(s[|MarkerOpen|..j], s[j + 1..k]), SceneMatches(s[k..]));
      }
    }
  }

  /** One step of both searches at a marker: the title search resumes where the body ends. */
  lemma MarkerStep(s: string, j: nat)
    requires |s| > 0 && MarkerClose(s) == Some(j)
    ensures var k := BodyEnd(s, j + 1);
      && SceneMatches(s) == [SceneMatch(s[|MarkerOpen|..j], s[j + 1..k])] + SceneMatches(s[k..])
      && TitleMatches(s) == [s[|MarkerOpen|..j]] + TitleMatches(s[k..])
  {
    var k := BodyEnd(s, j + 1);
    var rest := s[j + 1..];
    SceneMatchAt(s, j);
    TitleMatchAt(s, j);
    forall i | 0 <= i < k - (j + 1)
      ensures rest[i] != '['
    {
      assert rest[i] == s[j + 1 + i];
    }
    TitleMatchesSkip(rest, k - (j + 1));
    assert rest[k - (j + 1)..] == s[k..];
  }

  /** The title-and-body search at a marker: the match, then the search after its body. */
  lemma SceneMatchAt(s: string, j: nat)
    requires |s| > 0 && MarkerClose(s) == Some(j)
    ensures SceneMatches(s) == [SceneMatch(s[|MarkerOpen|..j], s[j + 1..BodyEnd(s, j + 1)])] + SceneMatches(s[BodyEnd(s, j + 1)..])
  {
  }

  /** The title search at a marker: the title, then the search after the `]`. */
  lemma TitleMatchAt(s: string, j: nat)
    requires |s| > 0 && MarkerClose(s) == Some(j)
    ensures TitleMatches(s) == [s[|MarkerOpen|..j]] + TitleMatches(s[j + 1..])
  {
  }

  lemma TitlesCons(m: SceneMatch, tail: seq<SceneMatch>)
    ensures Titles([m] + tail) == [m.title] + Titles(tail)
  {
    assert ([m] + tail)[1..] == tail;
  }

  /** Text with no `[` has no marker and loses nothing to marker removal. */
  lemma {:induction false} RemoveMarkersPlain(s: string)
    requires forall i :: 0 <= i < |s| ==> s[i] != '['
    ensures RemoveMarkers(s) == s && |TitleMatches(s)| == 0
    decreases |s|
  {
    if |s| > 0 {
      RemoveMarkersPlain(s[1..]);
    }
  }

  /** A marker with a non-empty title free of `]` is matched where it starts. */
  lemma MarkerAtStart(title: string, b: string)
    requires |title| > 0 && forall i :: 0 <= i < |title| ==> title[i] != ']'
    ensures var s := MarkerOpen + title + "]" + b;
      MarkerClose(s) == Some(|MarkerOpen| + |title|)
      && s[|MarkerOpen|..|MarkerOpen| + |title|] == title
      && s[|MarkerOpen| + |title| + 1..] == b
  {
    var s := MarkerOpen + title + "]" + b;
    var j := |MarkerOpen| + |title|;
    assert s[..|MarkerOpen|] == MarkerOpen;
    assert s[j] == ']';
    forall k | |MarkerOpen| <= k < j
      ensures s[k] != ']'
    {
      assert s[k] == title[k - |MarkerOpen|];
    }
    assert s[|MarkerOpen|..j] == title;
    assert s[j + 1..] == b;
  }

  /** No match starts at a character other than `[`. */
  lemma PlainStep(s: string)
    requires |s| > 0 && s[0] != '['
    ensures RemoveMarkers(s) == [s[0]] + RemoveMarkers(s[1..])
    ensures TitleMatches(s) == TitleMatches(s[1..])
  {
    assert MarkerClose(s).None?;
  }

  /** Text without `[` in front of `t` is kept as it is, and no title is found in it. */
  lemma {:induction false} PlainPrefix(a: string, t: string)
    requires forall i :: 0 <= i < |a| ==> a[i] != '['
    ensures RemoveMarkers(a + t) == a + RemoveMarkers(t)
    ensures TitleMatches(a + t) == TitleMatches(t)
    decreases |a|
  {
    if |a| == 0 {
      assert a + t == t;
    } else {
      assert (a + t)[0] == a[0];
      PlainStep(a + t);
      assert (a + t)[1..] == a[1..] + t;
      PlainPrefix(a[1..], t);
      assert a == [a[0]] + a[1..];
    }
  }

  /** A marker removed at the start of the text is gone, and its title is found. */
  lemma MarkerRemoved(title: string, b: string)
    requires |title| > 0 && forall i :: 0 <= i < |title| ==> title[i] != ']'
    ensures RemoveMarkers(MarkerOpen + title + "]" + b) == RemoveMarkers(b)
    ensures TitleMatches(MarkerOpen + title + "]" + b) == [title] + TitleMatches(b)
  {
    var s := MarkerOpen + title + "]" + b;
    MarkerAtStart(title, b);
    var j := |MarkerOpen| + |title|;
    assert MarkerClose(s) == Some(j);
    assert s[j + 1..] == b;
  }

  /** Text without `[` before a marker is kept, and the marker is removed. */
  lemma RemoveMarkerAfterPlain(a: string, title: string, b: string)
    requires forall i :: 0 <= i < |a| ==> a[i] != '['
    requires |title| > 0 && forall i :: 0 <= i < |title| ==> title[i] != ']'
    ensures RemoveMarkers(a + MarkerOpen + title + "]" + b) == a + RemoveMarkers(b)
    ensures TitleMatches(a + MarkerOpen + title + "]" + b) == [title] + TitleMatches(b)
  {
    var t := MarkerOpen + title + "]" + b;
    assert a + MarkerOpen + title + "]" + b == a + t;
    PlainPrefix(a, t);
    MarkerRemoved(title, b);
  }

  /** The longest preview kept before the ellipsis. */
  const PreviewLength: nat := 200

  /** `text[:200] + "..." if len(text) > 200 else text`. */
  function Truncate(text: string): (r: string)
    ensures |r| <= PreviewLength + 3
    ensures |text| <= PreviewLength ==> r == text
    ensures |text| > PreviewLength ==> r == text[..PreviewLength] + "..."
  {
    if |text| > PreviewLength then text[..PreviewLength] + "..." else text
  }

  /** The preview of a scene's text: stripped, then truncated. */
  function Preview(body: string): string {
    Truncate(Strip(body))
  }

  /** `f"{scene_title}: {content_preview}"`. */
  function SceneLine(m: SceneMatch): string {
    m.title + ": " + Preview(m.body)
  }

  /** `[p.strip() for p in parts if p.strip()]`. */
  function NonEmptyStripped(parts: seq<string>): (r: seq<string>)
    ensures |r| <= |parts|
    ensures forall p <- r :: |p| > 0
  {
    if |parts| == 0 then []
    else
      var rest := NonEmptyStripped(parts[1..]);
      var p := Strip(parts[0]);
      if |p| == 0 then rest else [p] + rest
  }

  /** The non-empty paragraphs of a script: `script.split('\n\n')`, stripped. */
  function Paragraphs(script: string): seq<string> {
    NonEmptyStripped(Split(script, "\n\n"))
  }

  /** The most paragraphs turned into sections. */
  const MaxSections: nat := 6

  /** `f"Section {i+1}: {preview}"`. */
  function SectionLine(i: nat, paragraph: string): string {
    "Section " + NatToString(i + 1) + ": " + Truncate(paragraph)
  }

  /** One scene line per marker match, in order. */
  function MarkerScenes(ms: seq<SceneMatch>): (r: seq<string>)
    ensures |r| == |ms| && forall i :: 0 <= i < |ms| ==> r[i] == SceneLine(ms[i])
  {
    seq(|ms|, i requires 0 <= i < |ms| => SceneLine(ms[i]))
  }

  /** One section line per paragraph, numbered from one, for the first six. */
  function SectionScenes(ps: seq<string>): (r: seq<string>)
    ensures |r| == Min(MaxSections, |ps|) && forall i :: 0 <= i < |r| ==> r[i] == SectionLine(i, ps[i])
  {
    var n := Min(MaxSections, |ps|);
    seq(n, i requires 0 <= i < n => SectionLine(i, ps[i]))
  }

  /** The scenes before padding: one per marker match, or one per paragraph (at most six). */
  function BaseScenes(script: string): seq<string> {
    var ms := SceneMatches(script);
    if |ms| > 0 then MarkerScenes(ms) else SectionScenes(Paragraphs(script))
  }

  /** The padding scene added at position `k - 1`. */
  function PadLine(topic: string, k: nat): string {
    "Learning about " + topic + " - Key concept " + NatToString(k)
  }

  /** The padding loop: add scenes until there are three. */
  function Pad(scenes: seq<string>, topic: string): seq<string>
    decreases 3 - |scenes|
  {
    if |scenes| >= 3 then scenes else Pad(scenes + [PadLine(topic, |scenes| + 1)], topic)
  }

  /** `_extract_scenes_from_script`. */
  function ExtractScenes(script: string, topic: string): seq<string> {
    Pad(BaseScenes(script), topic)
  }

  /** Padding keeps what is there and adds padding scenes, numbered from one, up to three. */
  lemma {:induction false} PadShape(scenes: seq<string>, topic: string)
    ensures var r := Pad(scenes, topic);
      && |r| == Max(3, |scenes|)
      && r[..|scenes|] == scenes
      && forall i :: |scenes| <= i < |r| ==> r[i] == PadLine(topic, i + 1)
    decreases 3 - |scenes|
  {
    if |scenes| < 3 {
      var next := scenes + [PadLine(topic, |scenes| + 1)];
      PadShape(next, topic);
      var r := Pad(next, topic);
      assert r[..|scenes|] == r[..|next|][..|scenes|];
    }
  }

  /** The shape of padded scenes built from given matches and paragraphs. */
  lemma PaddedShape(ms: seq<SceneMatch>, ps: seq<string>, topic: string)
    ensures var base := if |ms| > 0 then MarkerScenes(ms) else SectionScenes(ps);
      var r := Pad(base, topic);
      && |r| >= 3
      && (|ms| > 0 ==> |r| == Max(3, |ms|) && forall i :: 0 <= i < |ms| ==> r[i] == SceneLine(ms[i]))
      && (|ms| == 0 ==> forall i :: 0 <= i < Min(MaxSections, |ps|) ==> r[i] == SectionLine(i, ps[i]))
      && forall i :: |base| <= i < |r| ==> r[i] == PadLine(topic, i + 1)
  {
    var base := if |ms| > 0 then MarkerScenes(ms) else SectionScenes(ps);
    PadShape(base, topic);
    var r := Pad(base, topic);
    forall i | 0 <= i < |base|
      ensures r[i] == base[i]
    {
      assert r[..|base|][i] == r[i];
    }
  }

  /**
   * At least three scenes: one per marker in script order when there are markers, else one
   * per non-empty paragraph up to six; the rest are padding scenes naming the topic.
   */
  lemma ExtractScenesShape(script: string, topic: string)
    ensures var r, ms := ExtractScenes(script, topic), SceneMatches(script);
      && |r| >= 3
      && (|ms| > 0 ==> |r| == Max(3, |ms|) && forall i :: 0 <= i < |ms| ==> r[i] == SceneLine(ms[i]))
      && (|ms| == 0 ==>
            var ps := Paragraphs(script);
            forall i :: 0 <= i < Min(MaxSections, |ps|) ==> r[i] == SectionLine(i, ps[i]))
      && forall i :: |BaseScenes(script)| <= i < |r| ==> r[i] == PadLine(topic, i + 1)
  {
    PaddedShape(SceneMatches(script), Paragraphs(script), topic);
  }

  /** Lines 349-352: one scene line per match, appended in order. */
  method CollectMarkerScenes(matches: seq<SceneMatch>) returns (scenes: seq<string>)
    ensures scenes == MarkerScenes(matches)
  {
    scenes := [];
    var i := 0;
    while i < |matches|
      invariant 0 <= i <= |matches|
      invariant |scenes| == i && forall k :: 0 <= k < i ==> scenes[k] == SceneLine(matches[k])
    {
      scenes := scenes + [SceneLine(matches[i])];
      i := i + 1;
    }
  }

  /** Lines 355-358: one section line per paragraph, for the first six. */
  method CollectSections(paragraphs: seq<string>) returns (scenes: seq<string>)
    ensures scenes == SectionScenes(paragraphs)
  {
    scenes := [];
    var n := if |paragraphs| < MaxSections then |paragraphs| else MaxSections;
    var i := 0;
    while i < n
      invariant 0 <= i <= n
      invariant |scenes| == i && forall k :: 0 <= k < i ==> scenes[k] == SectionLine(k, paragraphs[k])
    {
      scenes := scenes + [SectionLine(i, paragraphs[i])];
      i := i + 1;
    }
  }

  /** Lines 361-362: padding scenes until there are three. */
  method PadScenes(base: seq<string>, topic: string) returns (scenes: seq<string>)
    ensures scenes == Pad(base, topic)
    ensures |scenes| >= 3
  {
    scenes := base;
    while |scenes| < 3
      invariant Pad(scenes, topic) == Pad(base, topic)
      decreases 3 - |scenes|
    {
      scenes := scenes + [PadLine(topic, |scenes| + 1)];
    }
  }

  /** `_extract_scenes_from_script`: the marker scenes, else the paragraph sections, then padding. */
  method ExtractScenesFromScript(script: string, topic: string) returns (scenes: seq<string>)
    ensures scenes == ExtractScenes(script, topic)
    ensures |scenes| >= 3
  {
    var matches := SceneMatches(script);
    if |matches| > 0 {
      scenes := CollectMarkerScenes(matches);
    } else {
      scenes := CollectSections(Paragraphs(script));
    }
    scenes := PadScenes(scenes, topic);
  }

  /** `style_prompts.get(learning_style, style_prompts["visual"])`: exact-match lookup. */
  function StyleInstruction(style: string): string {
    if style == "auditory" then
      "talking head style with " + "emphasis on clear " + "narration and minimal " + "distractions"
    else if style == "reading" then
      "text-heavy slides with " + "bullet points and " + "structured information"
    else if style == "kinesthetic" then
      "demonstration-style with " + "hands-on examples and " + "interactive elements"
    else
      VisualInstruction
  }

  const VisualInstruction: string :=
    "educational animation " + "with clear diagrams, " + "charts, and visual " + "explanations"

  /** The scenes used when no title is found. */
  function DefaultScenes(topic: string): seq<string> {
    ["Introduction to " + topic, "Key concepts of " + topic, "Applications of " + topic, "Summary of " + topic]
  }

  /** The most titles used in the prompt. */
  const MaxPromptScenes: nat := 4

  /** Lines 133-140 of `_create_opensora_prompt`: up to four titles when the script has a marker opening, else the defaults. */
  function PromptScenes(script: string, topic: string): seq<string> {
    var titles := if Contains(script, "[SCENE:") then TitleMatches(script) else [];
    var first := if |titles| <= MaxPromptScenes then titles else titles[..MaxPromptScenes];
    if |first| == 0 then DefaultScenes(topic) else first
  }

  const PromptLead: string := "Create an educational " + "video about "

  /** The prompt after the style instruction: the scenes joined by arrows, then fixed guidance. */
  function PromptTail(scenes: seq<string>): string {
    " format. \n"
    + "        \n"
    + "        The video should " + "include these scenes:\n"
    + "        " + Join(scenes, " -> ") + "\n"
    + "        \n"
    + "        Style: Professional " + "educational content, " + "clean design, " + "appropriate for learning " + "environment.\n"
    + "        Duration: 2-3 " + "minutes with smooth " + "transitions between " + "concepts.\n"
    + "        Quality: High " + "definition, stable " + "camera, good lighting."
  }

  /** `_create_opensora_prompt`. */
  function OpenSoraPrompt(script: string, topic: string, style: string): string {
    PromptLead + topic + " in " + StyleInstruction(style) + PromptTail(PromptScenes(script, topic))
  }

  /** A title match begins with the marker opening, so a script without `[SCENE:` has none. */
  lemma {:induction false} NoMarkerNoTitles(s: string)
    requires !Contains(s, "[SCENE:")
    ensures |TitleMatches(s)| == 0
    decreases |s|
  {
    if |s| > 0 {
      assert MarkerClose(s).None?;
      NoMarkerNoTitles(s[1..]);
    }
  }

  /**
   * The prompt's scenes are the script's first titles, at most four of them, in script order,
   * or the four topic defaults when there is none.
   */
  lemma PromptScenesShape(script: string, topic: string)
    ensures var ps, ts := PromptScenes(script, topic), TitleMatches(script);
      && 1 <= |ps| <= MaxPromptScenes
      && (|ts| == 0 ==> ps == DefaultScenes(topic))
      && (|ts| > 0 ==> ps == ts[..Min(MaxPromptScenes, |ts|)])
  {
    if !Contains(script, "[SCENE:") {
      NoMarkerNoTitles(script);
    }
  }

  /** The prompt names the topic and the style's instruction; unknown styles (any case) get the visual one. */
  lemma OpenSoraPromptContents(script: string, topic: string, style: string)
    ensures Contains(OpenSoraPrompt(script, topic, style), topic)
    ensures Contains(OpenSoraPrompt(script, topic, style), StyleInstruction(style))
    ensures style !in {"visual", "auditory", "reading", "kinesthetic"} ==> StyleInstruction(style) == VisualInstruction
  {
    var instr := StyleInstruction(style);
    var tail := PromptTail(PromptScenes(script, topic));
    ContainsConcat(PromptLead, topic, " in ");
    ContainsAppend(PromptLead + topic + " in ", instr, topic);
    ContainsAppend(PromptLead + topic + " in " + instr, tail, topic);
    ContainsConcat(PromptLead + topic + " in ", instr, tail);
  }

  predicate IsNewline(c: char) { c == '\n' }

  /** Drops the leading characters that satisfy `p`. */
  function DropRun(s: string, p: char -> bool): (r: string)
    ensures |r| <= |s| && r == s[|s| - |r|..] && (|r| == 0 || !p(r[0]))
    ensures |s| > 0 && p(s[0]) ==> |r| < |s|
  {
    if |s| > 0 && p(s[0]) then
      var r := DropRun(s[1..], p);
      assert s[1..][|s| - 1 - |r|..] == s[|s| - |r|..];
      r
    else s
  }

  /** `re.sub(pattern + '+', ' ', s)` for a one-character class `p`: each run becomes one space. */
  function CollapseRuns(s: string, p: char -> bool): (r: string)
    decreases |s|
  {
    if |s| == 0 then []
    else if p(s[0]) then [' '] + CollapseRuns(DropRun(s, p), p)
    else [s[0]] + CollapseRuns(s[1..], p)
  }

  /**
   * The cleaning lines of `_generate_tts_audio`: markers removed, newline runs to spaces,
   * stripped, whitespace runs to single spaces (`.replace('. ', '. ')` changes nothing).
   */
  function CleanScript(script: string): string {
    CollapseRuns(Strip(CollapseRuns(RemoveMarkers(script), IsNewline)), IsSpace)
  }

  /** After collapsing whitespace runs, the only whitespace is single spaces. */
  lemma {:induction false} CollapsedSpaces(s: string)
    ensures var r := CollapseRuns(s, IsSpace);
      && (forall i :: 0 <= i < |r| && IsSpace(r[i]) ==> r[i] == ' ')
      && (forall i :: 0 <= i < |r| - 1 ==> !(r[i] == ' ' && r[i + 1] == ' '))
      && (|s| == 0 <==> |r| == 0)
      && (|s| > 0 && !IsSpace(s[0]) ==> r[0] == s[0])
      && (|s| > 0 && IsSpace(s[0]) ==> r[0] == ' ')
    decreases |s|
  {
    if |s| > 0 {
      if IsSpace(s[0]) {
        var rest := DropRun(s, IsSpace);
        CollapsedSpaces(rest);
      } else {
        CollapsedSpaces(s[1..]);
      }
    }
  }

  /** Collapsing keeps the last character when it is not in the class. */
  lemma {:induction false} CollapsedLast(s: string, p: char -> bool)
    requires |s| > 0 && !p(s[|s| - 1])
    ensures var r := CollapseRuns(s, p); |r| > 0 && r[|r| - 1] == s[|s| - 1]
    decreases |s|
  {
    if p(s[0]) {
      var rest := DropRun(s, p);
      DropRunSuffix(s, p);
      CollapsedLast(rest, p);
    } else if |s| > 1 {
      CollapsedLast(s[1..], p);
    }
  }

  /** What `DropRun` leaves is a suffix of its input, non-empty when the last character stays. */
  lemma {:induction false} DropRunSuffix(s: string, p: char -> bool)
    requires |s| > 0 && !p(s[|s| - 1])
    ensures var r := DropRun(s, p); |r| > 0 && r == s[|s| - |r|..]
    decreases |s|
  {
    if p(s[0]) {
      DropRunSuffix(s[1..], p);
    }
  }

  /**
   * The cleaned script is normalised for speech: its only whitespace is single spaces,
   * never two in a row, and it neither starts nor ends with one.
   */
  lemma CleanScriptNormalised(script: string)
    ensures var r := CleanScript(script);
      && (forall i :: 0 <= i < |r| && IsSpace(r[i]) ==> r[i] == ' ')
      && (forall i :: 0 <= i < |r| - 1 ==> !(r[i] == ' ' && r[i + 1] == ' '))
      && (|r| == 0 || (r[0] != ' ' && r[|r| - 1] != ' '))
  {
    var t := Strip(CollapseRuns(RemoveMarkers(script), IsNewline));
    CollapsedSpaces(t);
    if |t| > 0 {
      CollapsedLast(t, IsSpace);
    }
  }

  /** `c` does not occur in `s`. */
  predicate Excludes(s: string, c: char) {
    forall i :: 0 <= i < |s| ==> s[i] != c
  }

  /** Collapsing runs into spaces brings in no character other than a space. */
  lemma {:induction false} CollapseRunsExcludes(s: string, p: char -> bool, c: char)
    requires c != ' ' && Excludes(s, c)
    ensures Excludes(CollapseRuns(s, p), c)
    decreases |s|
  {
    if |s| > 0 {
      var next := if p(s[0]) then DropRun(s, p) else s[1..];
      assert next == s[|s| - |next|..];
      assert Excludes(next, c) by {
        forall i | 0 <= i < |next|
          ensures next[i] != c
        {
          assert next[i] == s[|s| - |next| + i];
        }
      }
      CollapseRunsExcludes(next, p, c);
    }
  }

  /** Stripping keeps a slice of its input, so it brings in no character. */
  lemma StripExcludes(s: string, c: char)
    requires Excludes(s, c)
    ensures Excludes(Strip(s), c)
  {
    var t := TrimStart(s);
    assert Excludes(t, c) by {
      forall i | 0 <= i < |t|
        ensures t[i] != c
      {
        assert t[i] == s[|s| - |t| + i];
      }
    }
    var r := TrimEnd(t);
    assert Excludes(r, c) by {
      forall i | 0 <= i < |r|
        ensures r[i] != c
      {
        assert r[i] == t[i];
      }
    }
  }

  /** Cleaning brings in no character except spaces: what marker removal dropped stays out. */
  lemma CleanScriptExcludes(script: string, c: char)
    requires c != ' ' && Excludes(RemoveMarkers(script), c)
    ensures Excludes(CleanScript(script), c)
  {
    var once := CollapseRuns(RemoveMarkers(script), IsNewline);
    CollapseRunsExcludes(RemoveMarkers(script), IsNewline, c);
    StripExcludes(once, c);
    CollapseRunsExcludes(Strip(once), IsSpace, c);
  }

  /** Text without `[` does not contain a marker opening. */
  lemma {:induction false} ExcludesOpenBracket(s: string)
    requires Excludes(s, '[')
    ensures !Contains(s, "[SCENE:")
    decreases |s|
  {
    if |s| > 0 {
      assert s[0] != '[';
      assert !("[SCENE:" <= s);
      ExcludesOpenBracket(s[1..]);
    }
  }

  /**
   * A two-scene script, as the speech step receives it: both markers go, the narration
   * stays, both titles are found in order, and the text to be spoken has no marker opening.
   */
  lemma TwoSceneScript(t1: string, w1: string, t2: string, w2: string)
    requires |t1| > 0 && forall i :: 0 <= i < |t1| ==> t1[i] != ']'
    requires |t2| > 0 && forall i :: 0 <= i < |t2| ==> t2[i] != ']'
    requires Excludes(w1, '[') && Excludes(w2, '[')
    ensures var script := MarkerOpen + t1 + "]" + (w1 + (MarkerOpen + t2 + "]" + w2));
      && RemoveMarkers(script) == w1 + w2
      && TitleMatches(script) == [t1, t2]
      && !Contains(CleanScript(script), "[SCENE:")
  {
    var b := MarkerOpen + t2 + "]" + w2;
    var script := MarkerOpen + t1 + "]" + (w1 + b);
    RemoveMarkersPlain(w2);
    MarkerRemoved(t2, w2);
    PlainPrefix(w1, b);
    MarkerRemoved(t1, w1 + b);
    assert TitleMatches(script) == [t1] + ([t2] + []);
    ExcludesConcat(w1, w2, '[');
    CleanScriptUnmarked(script);
  }

  /** A character missing from two texts is missing from their concatenation. */
  lemma ExcludesConcat(a: string, b: string, c: char)
    requires Excludes(a, c) && Excludes(b, c)
    ensures Excludes(a + b, c)
  {
    forall i | 0 <= i < |a + b|
      ensures (a + b)[i] != c
    {
      if i >= |a| {
        assert (a + b)[i] == b[i - |a|];
      }
    }
  }

  /** When marker removal leaves no `[`, the text to be spoken has no marker opening. */
  lemma CleanScriptUnmarked(script: string)
    requires Excludes(RemoveMarkers(script), '[')
    ensures !Contains(CleanScript(script), "[SCENE:")
  {
    CleanScriptExcludes(script, '[');
    ExcludesOpenBracket(CleanScript(script));
  }
}
