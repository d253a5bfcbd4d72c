/**
 * `_parse_educational_content` (backend/services/groq_service.py:182-211):
 * cleaning of the model's reply, then the balanced-brace extraction of the
 * first JSON object. `json.loads` is an abstract partial function `loads`.
 */
module ContentParsing {
  import opened Wrappers
  import opened Strings

  datatype ParseError = NoJsonObject | InvalidJson(text: string)

  datatype ParseResult<+J> = Parsed(doc: J) | ParseFailed(error: ParseError)

  /** `re.sub(tag + r'\s*', '', s)`: every occurrence of `tag`, with the whitespace after it, removed. */
  function RemoveFence(s: string, tag: string): (r: string)
    requires |tag| > 0
    ensures |r| <= |s|
    decreases |s|
  {
    if |s| == 0 then []
    else if tag <= s then RemoveFence(TrimStart(s[|tag|..]), tag)
    else [s[0]] + RemoveFence(s[1..], tag)
  }

  /** First `:` at or after `i` that is reached without crossing a newline (`.*?:`). */
  function ColonOnLine(s: string, i: nat): (r: Option<nat>)
    decreases |s| - i
    ensures r.Some? ==> i <= r.value < |s| && s[r.value] == ':'
  {
    if i >= |s| then None
    else if s[i] == ':' then Some(i)
    else if s[i] == '\n' then None
    else ColonOnLine(s, i + 1)
  }

  /** `re.sub(r'Here is.*?:', '', s, flags=re.IGNORECASE)`. */
  function RemoveHereIs(s: string): (r: string)
    ensures |r| <= |s|
    decreases |s|
  {
    if |s| == 0 then []
    else if |s| >= 7 && Lower(s[..7]) == "here is" then
      match ColonOnLine(s, 7)
      case Some(j) => RemoveHereIs(s[j + 1..])
      case None => [s[0]] + RemoveHereIs(s[1..])
    else [s[0]] + RemoveHereIs(s[1..])
  }

  /** The four cleaning steps of lines 188-191. */
  function Clean(content: string): string {
    Strip(RemoveHereIs(RemoveFence(RemoveFence(content, "```json"), "```")))
  }

  function Delta(c: char): int {
    if c == '{' then 1 else if c == '}' then -1 else 0
  }

  /** Number of `{` minus number of `}` in `t`. */
  function Balance(t: string): int {
    if |t| == 0 then 0 else Balance(t[..|t| - 1]) + Delta(t[|t| - 1])
  }

  /** The brace-depth scan of lines 199-208 from index `i` with depth `depth`: the end index of the match, if any. */
  function MatchEnd(s: string, i: nat, depth: int): (r: Option<nat>)
    decreases |s| - i
    ensures r.Some? ==> i < r.value <= |s|
  {
    if i >= |s| then None
    else if s[i] == '{' then MatchEnd(s, i + 1, depth + 1)
    else if s[i] == '}' then (if depth - 1 == 0 then Some(i + 1) else MatchEnd(s, i + 1, depth - 1))
    else MatchEnd(s, i + 1, depth)
  }

  /** The text handed to `json.loads`: None when there is no `{`, "" when the first `{` is never closed. */
  function Candidate(s: string): Option<string> {
    match IndexFrom(s, '{', 0)
    case None => None
    case Some(start) =>
      match MatchEnd(s, start, 0)
      case None => Some("")
      case Some(e) => Some(s[start..e])
  }

  /** `_parse_educational_content` as a function: no schema validation of what `loads` returns. */
  function Parse<J>(content: string, loads: string -> Option<J>): ParseResult<J> {
    match Candidate(Clean(content))
    case None => ParseFailed(NoJsonObject)
    case Some(text) =>
      match loads(text)
      case None => ParseFailed(InvalidJson(text))
      case Some(doc) => Parsed(doc)
  }

  lemma BalanceStep(s: string, a: nat, k: nat)
    requires a <= k < |s|
    ensures Balance(s[a..k + 1]) == Balance(s[a..k]) + Delta(s[k])
  {
    assert s[a..k + 1][..k - a] == s[a..k];
  }

  /** Every prefix of `s[start..]` longer than zero and at most `i - start` has a positive balance. */
  ghost predicate OpenThrough(s: string, start: nat, i: nat)
    requires start <= i <= |s|
  {
    forall k :: start < k <= i ==> Balance(s[start..k]) > 0
  }

  /**
   * The scan from `i`, with the depth equal to the balance so far and still open, ends at the
   * first later index where the balance returns to zero, or finds none.
   */
  lemma {:induction false} MatchEndFirstZero(s: string, start: nat, i: nat)
    requires start < i <= |s| && OpenThrough(s, start, i)
    ensures var r := MatchEnd(s, i, Balance(s[start..i]));
      && (r.Some? ==> i < r.value <= |s| && Balance(s[start..r.value]) == 0 && OpenThrough(s, start, r.value - 1))
      && (r.None? ==> OpenThrough(s, start, |s|))
    decreases |s| - i
  {
    if i < |s| {
      BalanceStep(s, start, i);
      var d := Balance(s[start..i]);
      if s[i] == '}' && d - 1 == 0 {
      } else {
        assert Balance(s[start..i + 1]) > 0;
        assert OpenThrough(s, start, i + 1);
        MatchEndFirstZero(s, start, i + 1);
        assert MatchEnd(s, i, d) == MatchEnd(s, i + 1, Balance(s[start..i + 1]));
      }
    }
  }

  /** The candidate is None exactly when there is no `{`. */
  lemma CandidateNoneIff(s: string)
    ensures Candidate(s).None? <==> forall k :: 0 <= k < |s| ==> s[k] != '{'
  {
  }

  /** The scan from the first `{` is open after that one character. */
  lemma OpenAtFirstBrace(s: string, start: nat)
    requires start < |s| && s[start] == '{'
    ensures OpenThrough(s, start, start + 1) && Balance(s[start..start + 1]) == 1
    ensures MatchEnd(s, start, 0) == MatchEnd(s, start + 1, 1)
  {
    BalanceStep(s, start, start);
    assert s[start..start] == [];
  }

  /** An empty candidate means the braces opened at the first `{` never close. */
  lemma CandidateUnclosed(s: string)
    requires Candidate(s) == Some("")
    ensures IndexFrom(s, '{', 0).Some? && OpenThrough(s, IndexFrom(s, '{', 0).value, |s|)
  {
    var start := IndexFrom(s, '{', 0).value;
    OpenAtFirstBrace(s, start);
    MatchEndFirstZero(s, start, start + 1);
  }

  /** Conversely, a first `{` whose braces never close gives the empty candidate. */
  lemma UnclosedCandidate(s: string)
    requires IndexFrom(s, '{', 0).Some? && OpenThrough(s, IndexFrom(s, '{', 0).value, |s|)
    ensures Candidate(s) == Some("")
  {
    var start := IndexFrom(s, '{', 0).value;
    OpenAtFirstBrace(s, start);
    MatchEndFirstZero(s, start, start + 1);
  }

  /**
   * A non-empty candidate starts at the first `{`, ends with `}`, is balanced,
   * and no shorter non-empty prefix of it is.
   */
  lemma CandidateBalanced(s: string)
    requires Candidate(s).Some? && Candidate(s).value != ""
    ensures var c := Candidate(s).value;
      && IndexFrom(s, '{', 0).Some?
      && c == s[IndexFrom(s, '{', 0).value..IndexFrom(s, '{', 0).value + |c|]
      && c[0] == '{' && c[|c| - 1] == '}'
      && Balance(c) == 0
      && forall k :: 0 < k < |c| ==> Balance(c[..k]) > 0
  {
    var start := IndexFrom(s, '{', 0).value;
    var e := ClosedAt(s, start);
    assert Candidate(s).value == s[start..e];
    BalancedSlice(s, start, e);
  }

  /** A scan from a `{` that finds an end finds the first index where the balance returns to zero. */
  lemma ClosedAt(s: string, start: nat) returns (e: nat)
    requires start < |s| && s[start] == '{' && MatchEnd(s, start, 0).Some?
    ensures e == MatchEnd(s, start, 0).value
    ensures start + 1 < e <= |s| && Balance(s[start..e]) == 0 && OpenThrough(s, start, e - 1)
  {
    OpenAtFirstBrace(s, start);
    MatchEndFirstZero(s, start, start + 1);
    e := MatchEnd(s, start + 1, 1).value;
  }

  /** A slice whose balance first returns to zero at its end is a candidate-shaped object. */
  lemma BalancedSlice(s: string, start: nat, e: nat)
    requires start + 1 < e <= |s| && s[start] == '{' && Balance(s[start..e]) == 0 && OpenThrough(s, start, e - 1)
    ensures var c := s[start..e];
      && c[0] == '{' && c[|c| - 1] == '}'
      && Balance(c) == 0
      && forall k :: 0 < k < |c| ==> Balance(c[..k]) > 0
  {
    var c := s[start..e];
    forall k | 0 < k < |c|
      ensures Balance(c[..k]) > 0
    {
      assert c[..k] == s[start..start + k];
    }
    assert c[..|c| - 1] == s[start..e - 1];
    assert Balance(c) == Balance(c[..|c| - 1]) + Delta(c[|c| - 1]);
  }

  /**
   * The loop of lines 199-208 over `content[start:]`: the returned text is the candidate
   * handed to `json.loads`, and a missing `{` is reported as NoJsonObject (the ValueError).
   */
  method ExtractJsonObject(content: string) returns (r: Option<string>)
    ensures r == Candidate(content)
  {
    var found := IndexFrom(content, '{', 0);
    if found.None? {
      return None;
    }
    var start := found.value;
    var braceCount := 0;
    var endIdx := start;
    var i := start;
    while i < |content|
      invariant start <= i <= |content|
      invariant endIdx == start
      invariant MatchEnd(content, start, 0) == MatchEnd(content, i, braceCount)
    {
      if content[i] == '{' {
        braceCount := braceCount + 1;
      } else if content[i] == '}' {
        braceCount := braceCount - 1;
        if braceCount == 0 {
          endIdx := i + 1;
          assert MatchEnd(content, start, 0) == Some(endIdx);
          break;
        }
      }
      i := i + 1;
    }
    assert MatchEnd(content, start, 0) == if endIdx == start then None else Some(endIdx);
    assert endIdx == start ==> content[start..endIdx] == "";
    r := Some(content[start..endIdx]);
  }

  /** The method form of `_parse_educational_content`, equal to `Parse`. */
  method ParseEducationalContent<J>(content: string, loads: string -> Option<J>) returns (r: ParseResult<J>)
    ensures r == Parse(content, loads)
    ensures r.Parsed? ==> exists k :: 0 <= k < |Clean(content)| && Clean(content)[k] == '{'
  {
    var cleaned := Clean(content);
    var candidate := ExtractJsonObject(cleaned);
    CandidateNoneIff(cleaned);
    match candidate
    case None =>
      r := ParseFailed(NoJsonObject);
    case Some(text) =>
      match loads(text)
      case None => r := ParseFailed(InvalidJson(text));
      case Some(doc) => r := Parsed(doc);
  }

  /** Characters other than braces leave the scan's depth alone. */
  lemma {:induction false} MatchEndSkip(s: string, i: nat, j: nat, depth: int)
    requires i <= j <= |s|
    requires forall k :: i <= k < j ==> s[k] != '{' && s[k] != '}'
    ensures MatchEnd(s, i, depth) == MatchEnd(s, j, depth)
    decreases j - i
  {
    if i < j {
      MatchEndSkip(s, i + 1, j, depth);
    }
  }

  /** Text in which `tag` never occurs is left unchanged by fence removal. */
  lemma {:induction false} RemoveFenceAbsent(s: string, tag: string)
    requires |tag| > 0
    requires forall k :: !OccursAt(s, tag, k)
    ensures RemoveFence(s, tag) == s
    decreases |s|
  {
    if |s| > 0 {
      assert !OccursAt(s, tag, 0);
      forall k: nat
        ensures OccursAt(s[1..], tag, k) ==> OccursAt(s, tag, k + 1)
      {
        if k + 1 + |tag| <= |s| {
          assert s[1..][k..k + |tag|] == s[k + 1..k + 1 + |tag|];
        }
      }
      RemoveFenceAbsent(s[1..], tag);
    }
  }

  /** A text that does not start with the tag's first character keeps that character. */
  lemma FenceNotHere(s: string, tag: string)
    requires |tag| > 0 && |s| > 0 && s[0] != tag[0]
    ensures RemoveFence(s, tag) == [s[0]] + RemoveFence(s[1..], tag)
  {
    assert !(tag <= s) by {
      if |tag| <= |s| {
        assert tag[0] != s[..|tag|][0];
      }
    }
  }

  /** A stretch without the tag's first character passes through fence removal unchanged. */
  lemma {:induction false} RemoveFenceKeeps(x: string, y: string, tag: string)
    requires |tag| > 0 && forall k :: 0 <= k < |x| ==> x[k] != tag[0]
    ensures RemoveFence(x + y, tag) == x + RemoveFence(y, tag)
    decreases |x|
  {
    if |x| == 0 {
      assert x + y == y;
    } else {
      var s := x + y;
      assert s[0] == x[0] && s[1..] == x[1..] + y;
      FenceNotHere(s, tag);
      RemoveFenceKeeps(x[1..], y, tag);
      assert x == [x[0]] + x[1..];
    }
  }

  /** "Here is", in any ASCII case, starts at index `k` of `s`. */
  predicate HereIsAt(s: string, k: nat) {
    k + 7 <= |s| && Lower(s[k..k + 7]) == "here is"
  }

  /** Text without "Here is" is left unchanged by the prefix removal. */
  lemma {:induction false} RemoveHereIsAbsent(s: string)
    requires forall k :: !HereIsAt(s, k)
    ensures RemoveHereIs(s) == s
    decreases |s|
  {
    if |s| > 0 {
      assert !HereIsAt(s, 0);
      if |s| >= 7 {
        assert s[0..7] == s[..7];
      }
      forall k: nat
        ensures HereIsAt(s[1..], k) ==> HereIsAt(s, k + 1)
      {
        if k + 8 <= |s| {
          assert s[1..][k..k + 7] == s[k + 1..k + 8];
        }
      }
      RemoveHereIsAbsent(s[1..]);
      assert [s[0]] + s[1..] == s;
    }
  }

  predicate AllSpace(w: string) {
    forall k :: 0 <= k < |w| ==> IsSpace(w[k])
  }

  predicate NoBackquote(s: string) {
    forall k :: 0 <= k < |s| ==> s[k] != '`'
  }

  /** Whitespace after a text cannot complete a "Here is" that the text lacks. */
  lemma NoHereIsBeforeSpaces(x: string, w: string)
    requires AllSpace(w) && forall k :: !HereIsAt(x, k)
    ensures forall k :: !HereIsAt(x + w, k)
  {
    forall k: nat | k + 7 <= |x + w|
      ensures !HereIsAt(x + w, k)
    {
      if k + 7 <= |x| {
        assert !HereIsAt(x, k);
        assert (x + w)[k..k + 7] == x[k..k + 7];
      } else {
        var c := (x + w)[k + 6];
        assert c == w[k + 6 - |x|] && IsSpace(c);
        assert Lower((x + w)[k..k + 7])[6] == LowerChar(c) == c;
        assert Lower((x + w)[k..k + 7])[6] != "here is"[6];
      }
    }
  }

  /** Whitespace before a text cannot start a "Here is" that the text lacks. */
  lemma NoHereIsAfterSpaces(w: string, x: string)
    requires AllSpace(w) && forall k :: !HereIsAt(x, k)
    ensures forall k :: !HereIsAt(w + x, k)
  {
    forall k: nat | k + 7 <= |w + x|
      ensures !HereIsAt(w + x, k)
    {
      if k < |w| {
        var c := (w + x)[k];
        assert c == w[k] && IsSpace(c);
        assert Lower((w + x)[k..k + 7])[0] == LowerChar(c) == c;
        assert Lower((w + x)[k..k + 7])[0] != "here is"[0];
      } else {
        assert !HereIsAt(x, k - |w|);
        assert (w + x)[k..k + 7] == x[k - |w|..k - |w| + 7];
      }
    }
  }

  lemma {:induction false} TrimStartSpaces(w: string, x: string)
    requires AllSpace(w) && (|x| == 0 || !IsSpace(x[0]))
    ensures TrimStart(w + x) == x
    decreases |w|
  {
    if |w| == 0 {
      assert w + x == x;
    } else {
      assert (w + x)[1..] == w[1..] + x;
      TrimStartSpaces(w[1..], x);
    }
  }

  lemma {:induction false} TrimEndSpaces(x: string, w: string)
    requires AllSpace(w) && |x| > 0 && !IsSpace(x[|x| - 1])
    ensures TrimEnd(x + w) == x
    decreases |w|
  {
    if |w| == 0 {
      assert x + w == x;
    } else {
      var s := x + w;
      assert s[|s| - 1] == w[|w| - 1];
      assert s[..|s| - 1] == x + w[..|w| - 1];
      TrimEndSpaces(x, w[..|w| - 1]);
    }
  }

  /** A text starting with `{` and ending with `}` is its own stripped form. */
  lemma StripObject(obj: string, w: string)
    requires |obj| > 0 && obj[0] == '{' && obj[|obj| - 1] == '}' && AllSpace(w)
    ensures Strip(obj + w) == obj
  {
    assert (obj + w)[0] == '{';
    assert TrimStart(obj + w) == obj + w;
    TrimEndSpaces(obj, w);
  }

  /** An object whose braces first balance at its last character is its own candidate. */
  lemma CandidateWhole(obj: string)
    requires |obj| > 0 && obj[0] == '{' && Balance(obj) == 0
    requires forall k :: 0 < k < |obj| ==> Balance(obj[..k]) > 0
    ensures Candidate(obj) == Some(obj)
  {
    OpenAtFirstBrace(obj, 0);
    MatchEndFirstZero(obj, 0, 1);
    assert obj[0..|obj|] == obj;
    var r := MatchEnd(obj, 1, 1);
    assert r.Some?;
    assert obj[0..r.value] == obj[..r.value];
    assert r.value == |obj|;
  }

  /** The reply to be parsed is an object with these properties. */
  ghost predicate PlainObject(obj: string) {
    && |obj| > 0 && obj[0] == '{' && obj[|obj| - 1] == '}'
    && Balance(obj) == 0 && (forall k :: 0 < k < |obj| ==> Balance(obj[..k]) > 0)
    && NoBackquote(obj) && (forall k :: !HereIsAt(obj, k))
  }

  lemma NoBackquoteConcat(a: string, b: string)
    requires NoBackquote(a) && NoBackquote(b)
    ensures NoBackquote(a + b)
  {
    assert forall k :: |a| <= k < |a + b| ==> (a + b)[k] == b[k - |a|];
  }

  /** The four cleaning steps, one at a time. */
  lemma CleanSteps(s: string, unfenced: string, unprefixed: string, stripped: string)
    requires RemoveFence(RemoveFence(s, "```json"), "```") == unfenced
    requires RemoveHereIs(unfenced) == unprefixed && Strip(unprefixed) == stripped
    ensures Clean(s) == stripped
  {
  }

  /** Both fences go, with the whitespace after the opening one. */
  lemma FencesRemoved(w1: string, obj: string, w2: string)
    requires AllSpace(w1) && NoBackquote(obj + w2) && |obj| > 0 && !IsSpace(obj[0])
    ensures RemoveFence(RemoveFence("```json" + w1 + obj + w2 + "```", "```json"), "```") == obj + w2
  {
    var fence, tag := "```", "```json";
    var s := tag + w1 + obj + w2 + fence;
    assert tag <= s;
    assert s[|tag|..] == w1 + (obj + w2 + fence);
    TrimStartSpaces(w1, obj + w2 + fence);
    RemoveFenceKeeps(obj + w2, fence, tag);
    RemoveFenceAbsent(fence, tag);
    RemoveFenceKeeps(obj + w2, fence, fence);
    assert fence <= fence && fence[|fence|..] == [];
    assert RemoveFence(fence, fence) == [];
  }

  /** An object followed by whitespace is left as the bare object. */
  lemma TrailingSpacesStripped(obj: string, w2: string)
    requires AllSpace(w2) && PlainObject(obj)
    ensures RemoveHereIs(obj + w2) == obj + w2 && Strip(obj + w2) == obj
  {
    NoHereIsBeforeSpaces(obj, w2);
    RemoveHereIsAbsent(obj + w2);
    StripObject(obj, w2);
  }

  /**
   * A reply fenced as a JSON code block, with whitespace around the object, is cleaned
   * down to the object, which is then the candidate handed to `json.loads`.
   */
  lemma FencedReply(w1: string, obj: string, w2: string)
    requires AllSpace(w1) && AllSpace(w2) && PlainObject(obj)
    ensures Clean("```json" + w1 + obj + w2 + "```") == obj
    ensures Candidate(Clean("```json" + w1 + obj + w2 + "```")) == Some(obj)
  {
    assert NoBackquote(obj + w2) by {
      assert NoBackquote(w2);
      NoBackquoteConcat(obj, w2);
    }
    FencesRemoved(w1, obj, w2);
    TrailingSpacesStripped(obj, w2);
    CleanSteps("```json" + w1 + obj + w2 + "```", obj + w2, obj + w2, obj);
    CandidateWhole(obj);
  }

  /** `.*?:` from `i` reaches the first `:` when no newline comes before it. */
  lemma {:induction false} ColonOnLineAt(s: string, i: nat, j: nat)
    requires i <= j < |s| && s[j] == ':'
    requires forall k :: i <= k < j ==> s[k] != ':' && s[k] != '\n'
    ensures ColonOnLine(s, i) == Some(j)
    decreases j - i
  {
    if i < j {
      ColonOnLineAt(s, i + 1, j);
    }
  }

  /** Text without a backquote has no fence to remove. */
  lemma FenceFree(s: string)
    requires NoBackquote(s)
    ensures RemoveFence(RemoveFence(s, "```json"), "```") == s
  {
    RemoveFenceKeeps(s, [], "```json");
    RemoveFenceKeeps(s, [], "```");
    assert s + [] == s;
  }

  /** A "Here is" whose line reaches a `:` is removed up to and including that colon. */
  lemma HereIsRemoved(x: string, rest: string)
    requires forall k :: 0 <= k < |x| ==> x[k] != ':' && x[k] != '\n'
    ensures RemoveHereIs("Here is" + x + ":" + rest) == RemoveHereIs(rest)
  {
    var s := "Here is" + x + ":" + rest;
    assert s[..7] == "Here is";
    assert Lower(s[..7]) == "here is";
    ColonOnLineAt(s, 7, 7 + |x|);
    assert s[7 + |x| + 1..] == rest;
  }

  lemma HereIsUnfenced(x: string, w: string, obj: string)
    requires NoBackquote(x) && AllSpace(w) && NoBackquote(obj)
    ensures RemoveFence(RemoveFence("Here is" + x + ":" + w + obj, "```json"), "```") == "Here is" + x + ":" + w + obj
  {
    assert NoBackquote("Here is") && NoBackquote(":") && NoBackquote(w);
    NoBackquoteConcat("Here is", x);
    NoBackquoteConcat("Here is" + x, ":");
    NoBackquoteConcat("Here is" + x + ":", w);
    NoBackquoteConcat("Here is" + x + ":" + w, obj);
    FenceFree("Here is" + x + ":" + w + obj);
  }

  /** Whitespace in front of an object goes, and nothing else. */
  lemma LeadingSpacesStripped(w: string, obj: string)
    requires AllSpace(w) && PlainObject(obj)
    ensures RemoveHereIs(w + obj) == w + obj && Strip(w + obj) == obj
  {
    NoHereIsAfterSpaces(w, obj);
    RemoveHereIsAbsent(w + obj);
    TrimStartSpaces(w, obj);
    TrimEndSpaces(obj, []);
    assert obj + [] == obj;
  }

  /**
   * A reply introduced by "Here is ...:" on its line, as in "Here is the content: {...}",
   * is cleaned down to the object that follows.
   */
  lemma HereIsReply(x: string, w: string, obj: string)
    requires NoBackquote(x) && forall k :: 0 <= k < |x| ==> x[k] != ':' && x[k] != '\n'
    requires AllSpace(w) && PlainObject(obj)
    ensures Clean("Here is" + x + ":" + w + obj) == obj
    ensures Candidate(Clean("Here is" + x + ":" + w + obj)) == Some(obj)
  {
    var s := "Here is" + x + ":" + w + obj;
    HereIsUnfenced(x, w, obj);
    assert s == "Here is" + x + ":" + (w + obj);
    HereIsRemoved(x, w + obj);
    LeadingSpacesStripped(w, obj);
    CleanSteps(s, s, w + obj, obj);
    CandidateWhole(obj);
  }

  const ExampleObject := "{\"a\": {\"b\": 1}}"
  const ExampleReply := "intro text " + ExampleObject + " trailing {text}"

  lemma ExampleFirstBrace()
    ensures |ExampleReply| == 42 && ExampleReply[11..26] == ExampleObject
    ensures IndexFrom(ExampleReply, '{', 0) == Some(11)
  {
    var s, intro := ExampleReply, "intro text ";
    assert s[..11] == intro && s[11] == '{';
    assert forall k :: 0 <= k < 11 ==> s[k] == intro[k] != '{';
  }

  lemma ExampleMatchEnd()
    ensures MatchEnd(ExampleReply, 11, 0) == Some(26)
  {
    var s := ExampleReply;
    assert |s| == 42 && s[11..26] == ExampleObject;
    MatchEndSkip(s, 12, 17, 1);
    MatchEndSkip(s, 18, 24, 2);
    assert MatchEnd(s, 11, 0) == MatchEnd(s, 24, 2);
  }

  /** The balanced scan stops at the first complete object and ignores trailing text and braces. */
  lemma CandidateExample()
    ensures Candidate(ExampleReply) == Some(ExampleObject)
  {
    ExampleFirstBrace();
    ExampleMatchEnd();
  }
}
