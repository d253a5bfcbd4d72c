# EduForgeAI service core in Dafny

This project models the three backend services of EduForgeAI that hold its
sequential logic, and proves what they promise:

- **The completion client** (`GroqAPIService`, backend/services/groq_service.py).
  It holds a pool of API keys and changes two fields in place:
  `current_key_index` and `request_count`. `_make_request` tries the
  provider at most once per key. It rotates before a call when the key's
  request budget is used up. It rotates after a quota or rate-limit error.
  It keeps the key after any other error. On the last attempt it re-raises
  the last error. `generate_educational_content` sends the content prompt,
  cleans the reply, cuts out the first balanced `{…}` object and parses it.
  It returns a fixed template (`_get_fallback_content`) when anything fails.
- **The conversation store** (`ChatbotService`, backend/services/chatbot_service.py).
  This is a map from session id to a conversation record. Records expire two
  hours after creation; expired ones are swept lazily. A chat turn merges the
  context, appends the user message, builds the system prompt and sends the
  last ten messages. It then appends the reply, or a keyword-chosen fallback
  when the reply is empty. The module also models the history, clear,
  context-update, session-listing and statistics operations, plus the
  summary and study-tips prompts.
- **The video script text helpers** (backend/services/video_service.py).
  These are scene extraction from `[SCENE: …]` markers or paragraphs, the
  OpenSora prompt, and the cleaning of the narration before speech synthesis.

Layout:

| file | module | contents |
|---|---|---|
| strings.dfy | `Wrappers`, `Strings` | `Option`; Python's `str.lower` (ASCII), `strip`, `find`, `split`, `join`, `in` |
| learning_styles.dfy | `LearningStyles` | the `LEARNING_STYLES` table and `MAX_REQUESTS_PER_KEY` of backend/config.py |
| key_rotation.dfy | `KeyRotation` | the rotation and retry policy as functions (`Rotate`, `Attempts`, `Request`) and its lemmas |
| groq_service.dfy | `GroqService` | class `GroqApiService`, whose methods are proved equal to `KeyRotation.Request`; content generation |
| content_parsing.dfy | `ContentParsing` | reply cleaning and balanced-brace extraction; `json.loads` is a parameter |
| fallback_content.dfy | `FallbackContent` | the payload datatypes and the fallback template |
| chat_prompts.dfy | `ChatPrompts` | system prompt, keyword fallback reply, summary and study-tips prompts |
| conversation_store.dfy | `ConversationStore` | the store as functions on `map<string, Conversation>` and its lemmas |
| chatbot_service.dfy | `Chatbot` | class `ChatbotService`, whose methods change the map in place and are proved to follow `ConversationStore` |
| video_script.dfy | `VideoScript` | regex scanners, scene extraction, OpenSora prompt, speech-text cleaning |

Things outside the program are parameters:

- **Provider:** the completion provider is an oracle `provider(request, i)`.
  It gives the outcome of the i-th provider call made while serving
  `request`: a content (possibly `None`) or an error message.
- **Clock:** wall-clock time is a `nat` number of seconds, `now`.
- **JSON parser:** `json.loads` is a partial function `loads`.
- **API keys:** the keys are opaque strings given to the constructor. The
  configured keys are not part of the model.

## Model

| member | source | states |
|---|---|---|
| KeyRotation.Rotate | backend/services/groq_service.py:18-23 | the next index is the current one plus one modulo the pool size, and the counter is reset to 0 |
| KeyRotation.Proactive | backend/services/groq_service.py:33-34 | the step before each call: rotate when the counter has reached the bound, else keep the state |
| KeyRotation.IsQuotaError | backend/services/groq_service.py:47 | an error message counts as a quota error iff its lower-cased text contains "quota" or "rate limit" |
| KeyRotation.Attempts | backend/services/groq_service.py:30-55 | the loop from attempt `a`: the outcome, the final index and counter, and the key of every provider call; its properties are the `Attempts…` lemmas below |
| KeyRotation.Request | backend/services/groq_service.py:26-57 | `_make_request` as a whole: `Attempts` from attempt 0 over `len(api_keys)` attempts |
| KeyRotation.RotateWraps | backend/services/groq_service.py:20-21 | rotating from the last key wraps to key 0; from any other key it moves to the next one, with the counter at 0 |
| KeyRotation.AttemptsIndexInRange | backend/services/groq_service.py:28-55 | from any attempt, the key index stays below the pool size, and every provider call uses an in-range key |
| KeyRotation.AttemptsCallCount | backend/services/groq_service.py:28-55 | from attempt `a`, the loop calls the provider at least once and at most `n - a` times |
| KeyRotation.AttemptsOutcome | backend/services/groq_service.py:28-55 | the loop raises iff every remaining call fails, and then re-raises the last message; otherwise it returns the content of the first success, and all earlier calls failed |
| KeyRotation.RequestBounded | backend/services/groq_service.py:28-55 | `_make_request` makes between 1 and `len(api_keys)` provider calls, all with in-range keys, and leaves the index in range |
| KeyRotation.RequestRaisesIffAllFail | backend/services/groq_service.py:28-55 | the request raises iff all `n` calls fail; it then made exactly `n` calls and re-raises the last error's message |
| KeyRotation.RequestReturnsFirstSuccess | backend/services/groq_service.py:36-43 | a returned content is that of the first successful call, every earlier call failed, and no call follows it |
| KeyRotation.AttemptsCountWithinBound | backend/services/groq_service.py:33-43 | with a bound of at least 1, the counter never ends above the bound, and it is at least 1 after a success |
| KeyRotation.RequestCountWithinBound | backend/services/groq_service.py:33-43 | the same for a whole request, whatever the counter was before |
| KeyRotation.RequestFirstCall | backend/services/groq_service.py:33-43 | the first call rotates first iff the counter has reached the bound; a first-call success keeps that key, adds exactly 1 to the counter and returns the content |
| KeyRotation.AttemptsOtherErrorsKeepKey | backend/services/groq_service.py:45-52 | when every call fails without "quota" or "rate limit" and the counter is below the bound, all calls use one key and the index and counter are unchanged |
| KeyRotation.AttemptsQuotaErrorsRotate | backend/services/groq_service.py:45-55 | when every call fails with a quota error, consecutive calls use consecutive keys modulo `n`, and the last attempt rotates too, leaving the counter at 0 |
| KeyRotation.RequestQuotaErrorsTryEveryKey | backend/services/groq_service.py:45-55 | when every key reports a quota error, one request tries every key, re-raises the last error, and ends back on its first key with the counter at 0 |
| GroqService.GroqApiService.constructor | backend/services/groq_service.py:11-16 | the service starts on key 0 with a zero counter, the configured bound 20 and a client for the first key; a non-empty pool is required |
| GroqService.GroqApiService.RotateApiKey | backend/services/groq_service.py:18-23 | the new index and counter are those of `Rotate`, and the client is rebuilt on the new key |
| GroqService.GroqApiService.MakeRequest | backend/services/groq_service.py:26-57 | the loop's outcome, the new index and counter, and the keys used per call are exactly those of `KeyRotation.Request` |
| GroqService.GroqApiService.GenerateEducationalContent | backend/services/groq_service.py:59-180 | never raises: the content request is sent, the state advances as `Request` says, and the result is the parsed model document, or the fallback template for any failure |
| GroqService.GroqApiService.RequestAndParse | backend/services/groq_service.py:166-180 | for a built request: the state advances as `Request` says, and the result is `Synthesize` of its outcome with the fallback template |
| GroqService.GroqApiService.ContentOrFallback | backend/services/groq_service.py:176-180 | the parsed model document when there is one, else the fallback template for the topic and style |
| GroqService.GroqApiService.BuildContentRequest | backend/services/groq_service.py:69-174 | two messages, the system prompt then the user line "Create educational content for: " and the topic; model "llama3-8b-8192", temperature 0.7, 4000 tokens; the system prompt contains the topic, the level and the style |
| GroqService.GroqApiService.GetFallbackContent | backend/services/groq_service.py:213-281 | five objectives, each naming the topic; three quiz items with four options and an in-range answer, the first naming the topic; three flashcards; a script naming the topic, the style and the style's emphasis |
| GroqService.GroqApiService.ModelDocument | backend/services/groq_service.py:176-180 | a document is produced only from a returned text that parses; a `None` content counts as a failure |
| GroqService.ContentPrompt | backend/services/groq_service.py:69-164 | the system prompt: task, style focus, JSON schema and closing line; `ContentPromptNames` states what it contains |
| GroqService.RequestWith | backend/services/groq_service.py:167-174 | the messages and settings built around a system prompt; `RequestWithShape` states their shape |
| GroqService.ContentRequest | backend/services/groq_service.py:167-174 | the request sent for a topic, level and style; `ContentRequestShape` states its shape |
| GroqService.HeaderNamesTopic | backend/services/groq_service.py:69-71 | the prompt's opening names the topic |
| GroqService.FooterNamesLevelAndStyle | backend/services/groq_service.py:163-164 | the prompt's closing line names the level and the style |
| GroqService.ContentPromptNames | backend/services/groq_service.py:69-164 | the system prompt contains the topic, the level and the style |
| GroqService.RequestWithShape | backend/services/groq_service.py:167-174 | a system prompt naming the three gives two messages, system then user with the topic line, on the default model, 0.7 and 4000 tokens |
| GroqService.ContentRequestShape | backend/services/groq_service.py:69-174 | the content request has that shape |
| GroqService.Accepted | backend/services/groq_service.py:176-178 | the document a reply yields: only a returned text that `Parse` accepts |
| GroqService.Synthesize | backend/services/groq_service.py:166-180 | the result of generation once the request has run: the accepted document, else the fallback |
| GroqService.SynthesizeFallsBack | backend/services/groq_service.py:166-180 | the model's document is used iff the request returned a text that parses; otherwise the result is the fallback template |
| GroqService.UnclosedReplyFallsBack | backend/services/groq_service.py:198-211 | a reply whose first `{` is never closed is handed to `loads` as "", so when that fails the parse fails and the result is the fallback template |
| GroqService.FallsBackWhenAllFail | backend/services/groq_service.py:166-180 | when every provider call fails, the request raises and generation returns the fallback template; generation is stated through `Synthesize`, so this covers the content request |
| ContentParsing.RemoveFence | backend/services/groq_service.py:188-189 | removing a code fence never makes the text longer |
| ContentParsing.RemoveFenceAbsent | backend/services/groq_service.py:188-189 | text without the fence is left exactly as it is |
| ContentParsing.RemoveFenceKeeps | backend/services/groq_service.py:188-189 | a prefix without the fence's first character is kept as it is, and removal goes on after it |
| ContentParsing.ColonOnLine | backend/services/groq_service.py:190 | the colon a `.*?:` match ends on: the first `:` before any newline |
| ContentParsing.RemoveHereIs | backend/services/groq_service.py:190 | removing "Here is…:" never makes the text longer |
| ContentParsing.RemoveHereIsAbsent | backend/services/groq_service.py:190 | text without a "here is" in any case is left exactly as it is |
| ContentParsing.Clean | backend/services/groq_service.py:187-191 | the four cleaning steps, in order; `FencedReply` and `HereIsReply` show what they do to typical replies |
| ContentParsing.FencedReply | backend/services/groq_service.py:187-211 | a fenced reply ```` ```json ```` object ```` ``` ```` cleans to the object, which is the candidate |
| ContentParsing.HereIsReply | backend/services/groq_service.py:187-211 | a reply "Here is …:" followed by an object cleans to the object, which is the candidate |
| ContentParsing.MatchEnd | backend/services/groq_service.py:199-208 | the end of the brace scan lies after its start and within the text |
| ContentParsing.Candidate | backend/services/groq_service.py:194-210 | the text handed to `json.loads`; `CandidateNoneIff`, `CandidateUnclosed` and `CandidateBalanced` state its cases |
| ContentParsing.Parse | backend/services/groq_service.py:182-211 | the parse of a reply; `ParseEducationalContent` states it |
| ContentParsing.UnclosedCandidate | backend/services/groq_service.py:198-210 | when the braces opened at the first `{` never close, the candidate is the empty text |
| ContentParsing.CandidateWhole | backend/services/groq_service.py:194-210 | a balanced object with no shorter balanced prefix is its own candidate |
| ContentParsing.MatchEndFirstZero | backend/services/groq_service.py:199-208 | the brace scan ends at the first later index where the depth returns to 0, or finds none when the depth stays positive to the end |
| ContentParsing.CandidateNoneIff | backend/services/groq_service.py:194-196 | there is no candidate, which is the ValueError, exactly when the cleaned text has no `{` |
| ContentParsing.CandidateUnclosed | backend/services/groq_service.py:198-210 | an empty candidate means the braces opened at the first `{` never close |
| ContentParsing.CandidateBalanced | backend/services/groq_service.py:194-210 | a non-empty candidate starts at the first `{` and ends with `}`; its braces balance, and no shorter non-empty prefix of it balances |
| ContentParsing.ExtractJsonObject | backend/services/groq_service.py:194-210 | the scanning loop returns exactly the candidate, including the empty text for an unclosed object and the error for a missing `{` |
| ContentParsing.ParseEducationalContent | backend/services/groq_service.py:182-211 | returns the cleaned candidate parsed by `loads`, without schema validation; a parsed result implies the cleaned text has a `{` |
| ContentParsing.MatchEndSkip | backend/services/groq_service.py:201-208 | characters other than braces leave the scan's result unchanged |
| ContentParsing.CandidateExample | backend/services/groq_service.py:194-210 | on a reply with text and a further brace after the object, the candidate is exactly the first complete object |
| FallbackContent.FallbackObjectives | backend/services/groq_service.py:218-224 | there are five learning objectives |
| FallbackContent.ObjectivesMentionTopic | backend/services/groq_service.py:218-224 | every objective mentions the topic |
| FallbackContent.FallbackQuiz | backend/services/groq_service.py:239-261 | there are three quiz items, each with four options and an answer index among them |
| FallbackContent.QuizMentionsTopic | backend/services/groq_service.py:239-261 | the quiz has three well-formed items, and the first question names the topic |
| FallbackContent.FallbackFlashcards | backend/services/groq_service.py:262-279 | there are three flashcards |
| FallbackContent.ScriptMentionsStyle | backend/services/groq_service.py:225-238 | the narration script names the learning style verbatim |
| FallbackContent.ScriptMentionsTopicAndEmphasis | backend/services/groq_service.py:228-229 | the narration script names the topic and the style's emphasis |
| FallbackContent.Fallback | backend/services/groq_service.py:213-281 | the template for a topic and style, with the style's table entry; `FallbackShape` states what it holds |
| FallbackContent.FallbackShape | backend/services/groq_service.py:213-281 | five objectives each naming the topic, three well-formed quiz items with the first naming the topic, three flashcards, and a script naming the topic, style and emphasis, whatever the table entry |
| FallbackContent.FallbackIgnoresLevel | backend/services/groq_service.py:213-281 | the learner level has no influence on the fallback payload |
| FallbackContent.FallbackUnknownStyle | backend/services/groq_service.py:215 | a style missing from the table is filled with the visual entry, and its own name is kept in the text |
| FallbackContent.FallbackScriptDependsOnStyle | backend/services/groq_service.py:225-238 | visual and auditory learners get different scripts for the same topic |
| FallbackContent.FallbackScriptsDiffer | backend/services/groq_service.py:225-238 | any two styles with different first letters get different fallback scripts |
| LearningStyles.ConfigForIgnoresCase | backend/services/groq_service.py:215 | the style lookup depends only on the lower-cased name |
| ConversationStore.Sweep | backend/services/chatbot_service.py:16-26 | the store without the expired sessions; `SweepExact` states which |
| ConversationStore.SweepExact | backend/services/chatbot_service.py:16-26 | the sweep removes exactly the sessions older than two hours since creation, and leaves every other record as it was |
| ConversationStore.SweepLater | backend/services/chatbot_service.py:16-26 | age counts from creation, so an earlier sweep does not change what a later sweep keeps |
| ConversationStore.GetOrCreate | backend/services/chatbot_service.py:28-40 | after get-or-create the session is present |
| ConversationStore.GetOrCreateExisting | backend/services/chatbot_service.py:28-40 | a present, unexpired session is returned unchanged, and the rest of the store is swept |
| ConversationStore.GetOrCreateFresh | backend/services/chatbot_service.py:28-40 | an absent or expired session is created with no messages, context or preferences; every other surviving session is kept |
| ConversationStore.EvictedAfterWindow | backend/services/chatbot_service.py:14-40 | a session created at `t` is gone after `t` plus two hours, whatever it was used for, and touching it then starts an empty conversation |
| ConversationStore.Window | backend/services/chatbot_service.py:72 | the last ten messages; `WindowIsSuffix` states it |
| ConversationStore.WindowIsSuffix | backend/services/chatbot_service.py:72-77 | the window is the last `min(10, n)` stored messages, oldest first |
| ConversationStore.TurnRequest | backend/services/chatbot_service.py:66-85 | the request of one turn; `TurnRequestShape` states its shape |
| ConversationStore.TurnRequestShape | backend/services/chatbot_service.py:66-85 | the outbound list has 2 to 11 entries: the system prompt, then the window, ending with the newest message |
| ConversationStore.BeginTurn | backend/services/chatbot_service.py:52-63 | after the first half of a turn the session is present |
| ConversationStore.BeginTurnMergesContext | backend/services/chatbot_service.py:55-56 | the context merge overwrites exactly the keys the argument supplies and keeps the rest |
| ConversationStore.FinishTurn | backend/services/chatbot_service.py:80-124 | the second half of a turn, after the request; `ChatTurnMessages` states it |
| ConversationStore.RespondTurn | backend/services/chatbot_service.py:65-124 | the part of a turn from the system prompt on: no request without a prompt, else one request and `FinishTurn`; the session stays present |
| ConversationStore.ChatTurn | backend/services/chatbot_service.py:42-124 | one whole `chat` call on the store; `ChatTurnMessages`, `ChatTurnAllFail` and `ChatTurnEmptyReply` state it |
| ConversationStore.ChatTurnMessages | backend/services/chatbot_service.py:52-124 | a turn appends the user message, then for a returned reply the assistant message (the text, or the keyword fallback for None or ""): two messages. After an error only the user message is added and the reply is the error reply; other sessions are those of the sweep |
| ConversationStore.ChatTurnAllFail | backend/services/chatbot_service.py:80-124 | when every provider call fails, the turn does not raise: it answers with the error flag, and only the user message was added |
| ConversationStore.ChatTurnEmptyReply | backend/services/chatbot_service.py:87-113 | when the reply is None or empty, the keyword fallback is the reply and is stored as the assistant message |
| ConversationStore.History | backend/services/chatbot_service.py:250-253 | the stored messages of a session, none for an absent one |
| ConversationStore.Clear | backend/services/chatbot_service.py:255-260 | the store without the session, and whether it was there; `ClearTwice` states it |
| ConversationStore.ClearTwice | backend/services/chatbot_service.py:250-260 | clear reports whether the session was present and removes only it; a second clear reports false, and the history is then empty |
| ConversationStore.UpdateLearningContext | backend/services/chatbot_service.py:262-281 | after the update the session is present |
| ConversationStore.UpdatedContext | backend/services/chatbot_service.py:273-281 | the context after the update; `UpdatedContextKeys` states it |
| ConversationStore.UpdatedContextKeys | backend/services/chatbot_service.py:273-281 | topic, style, level and update time are set; the objectives are set iff a non-empty list is given; every other key is kept |
| ConversationStore.ActiveSessions | backend/services/chatbot_service.py:283-286 | the ids left after a sweep |
| ConversationStore.TotalMessages | backend/services/chatbot_service.py:293 | the number of messages over all sessions; the `TotalMessages…` lemmas state its properties |
| ConversationStore.Stats | backend/services/chatbot_service.py:288-299 | the session count, the message total and the mean, 0 for no sessions |
| ConversationStore.TotalMessagesRemove | backend/services/chatbot_service.py:293 | the message total is the same whichever session is counted first |
| ConversationStore.TotalMessagesBounds | backend/services/chatbot_service.py:293 | each session's messages count towards the total |
| ConversationStore.TotalMessagesAppend | backend/services/chatbot_service.py:293 | one message added to one session raises the total by one |
| Chatbot.ChatbotService.constructor | backend/services/chatbot_service.py:10-14 | the service starts with no conversations and a two-hour memory |
| Chatbot.ChatbotService.CleanupOldConversations | backend/services/chatbot_service.py:16-26 | the collect loop and the delete loop leave exactly `Sweep` of the old store |
| Chatbot.ChatbotService.GetOrCreateConversation | backend/services/chatbot_service.py:28-40 | the store becomes `GetOrCreate` of the old one, and the returned record is the stored one |
| Chatbot.ChatbotService.BuildOutbound | backend/services/chatbot_service.py:69-77 | the appending loop builds the system message followed by the window |
| Chatbot.ChatbotService.Chat | backend/services/chatbot_service.py:42-124 | the new store, the reply and the client's new key state are exactly those of `ChatTurn` |
| Chatbot.ChatbotService.Respond | backend/services/chatbot_service.py:65-124 | for a session whose user message is stored: the new store, the reply and the client's key state are those of `RespondTurn` |
| Chatbot.ChatbotService.SummarizeTopic | backend/services/chatbot_service.py:195-223 | a chat turn carrying the summary prompt and no context |
| Chatbot.ChatbotService.GetStudyTips | backend/services/chatbot_service.py:225-248 | a chat turn carrying the study-tips prompt and no context |
| Chatbot.ChatbotService.GetConversationHistory | backend/services/chatbot_service.py:250-253 | returns the stored messages, or none for an absent id, without sweeping |
| Chatbot.ChatbotService.ClearConversation | backend/services/chatbot_service.py:255-260 | the store and the flag are those of `Clear`, without sweeping |
| Chatbot.ChatbotService.UpdateLearningContextOf | backend/services/chatbot_service.py:262-281 | the store becomes `UpdateLearningContext` of the old one |
| Chatbot.ChatbotService.GetActiveSessions | backend/services/chatbot_service.py:283-286 | sweeps, and returns the ids that survive |
| Chatbot.ChatbotService.SumMessages | backend/services/chatbot_service.py:293 | the summing loop returns the total message count |
| Chatbot.ChatbotService.GetSessionStats | backend/services/chatbot_service.py:288-299 | sweeps, then reports the session count, the message total and the mean, which is 0 with no sessions |
| ChatPrompts.FirstThree | backend/services/chatbot_service.py:163 | `s[:3]` has `min(3, len(s))` elements and is a prefix of `s` |
| ChatPrompts.ItemTexts | backend/services/chatbot_service.py:163 | the items' strings exactly when every item is a string, in order |
| ChatPrompts.JoinFirstThreeRaisesIff | backend/services/chatbot_service.py:163 | `', '.join(v[:3])` raises exactly when the value cannot be sliced or one of the first three list items is not a string |
| ChatPrompts.LaterItemsNotJoined | backend/services/chatbot_service.py:163 | `["a", "b", "c", 5]` joins to `a, b, c`: a non-string after the third item is never looked at |
| ChatPrompts.BuildSystemPrompt | backend/services/chatbot_service.py:126-172 | the system prompt, or None where the objectives line raises; the lemmas below state its parts |
| ChatPrompts.ContextBlockIffNonEmpty | backend/services/chatbot_service.py:151-165 | an empty context leaves the base prompt alone; a non-empty one follows it with the context header |
| ChatPrompts.ContinuityNoteIffLong | backend/services/chatbot_service.py:168-170 | the continuity note is appended iff the conversation has more than six messages |
| ChatPrompts.PromptStartsWithBase | backend/services/chatbot_service.py:129-172 | every system prompt starts with the assistant description |
| ChatPrompts.PromptUsesFirstThreeObjectives | backend/services/chatbot_service.py:162-163 | the prompt depends only on the first three recent objectives |
| ChatPrompts.PromptMentionsTopic | backend/services/chatbot_service.py:156-157 | a topic in the context appears verbatim in the prompt |
| ChatPrompts.PromptRaisesIff | backend/services/chatbot_service.py:151-172 | building the prompt raises exactly when the context holds objectives whose join raises |
| ChatPrompts.FallbackResponse | backend/services/chatbot_service.py:174-193 | the keyword fallback reply; `FallbackResponsePriority` states how it is chosen |
| ChatPrompts.FallbackResponsePriority | backend/services/chatbot_service.py:174-193 | each reply is chosen iff its keyword group is the first present in the lower-cased message, in the order explain, process, summary, help; otherwise the generic reply |
| ChatPrompts.RepliesDistinct | backend/services/chatbot_service.py:180-193 | the five fallback replies are pairwise different |
| ChatPrompts.FallbackResponseIgnoresCase | backend/services/chatbot_service.py:177 | a message and its lower-cased form get the same reply |
| ChatPrompts.SummarizePrompt | backend/services/chatbot_service.py:203-221 | the summary prompt; `SummarizePromptContents` states what it holds |
| ChatPrompts.SummarizePromptContents | backend/services/chatbot_service.py:203-221 | the summary prompt names the topic and carries the level's instruction; unknown levels get the medium one |
| ChatPrompts.StudyTipsPrompt | backend/services/chatbot_service.py:233-246 | the study-tips prompt; `StudyTipsPromptContents` states what it holds |
| ChatPrompts.StudyTipsPromptContents | backend/services/chatbot_service.py:233-246 | the study-tips prompt names the topic; a non-empty style adds the note naming it, and nothing else changes |
| VideoScript.MarkerClose | backend/services/video_service.py:346 | a marker match starts with `[SCENE: `, and its title is non-empty and ends at the first `]` |
| VideoScript.SceneMatches | backend/services/video_service.py:346 | the title-and-body matches of the scene pattern, in order; `SceneTitlesAgree` relates them to `TitleMatches` |
| VideoScript.TitleMatches | backend/services/video_service.py:136 | the titles of the `[SCENE: …]` pattern, in order |
| VideoScript.TitleMatchesSkip | backend/services/video_service.py:136 | no title match starts inside a run of text without `[` |
| VideoScript.SceneTitlesAgree | backend/services/video_service.py:346 | the title-and-body search finds the same titles, in the same order, as the title-only pattern of line 136 |
| VideoScript.RemoveMarkers | backend/services/video_service.py:209 | the text without its `[SCENE: …]` markers; the lemmas below state what goes and what stays |
| VideoScript.RemoveMarkersPlain | backend/services/video_service.py:209 | text without `[` has no marker, and marker removal leaves it unchanged |
| VideoScript.PlainPrefix | backend/services/video_service.py:209 | text without `[` in front of other text is kept as it is, and no title is found in it |
| VideoScript.MarkerRemoved | backend/services/video_service.py:209 | a marker with a non-empty title free of `]` is removed, and its title is found |
| VideoScript.RemoveMarkerAfterPlain | backend/services/video_service.py:209 | text before a marker is kept, and the marker is removed |
| VideoScript.Truncate | backend/services/video_service.py:351-357 | a preview is the text when it has at most 200 characters, else its first 200 and "...", so at most 203 |
| VideoScript.MarkerScenes | backend/services/video_service.py:349-352 | one "title: preview" line per match, in order |
| VideoScript.SectionScenes | backend/services/video_service.py:355-358 | one "Section i: preview" line per paragraph, numbered from 1, for at most six |
| VideoScript.NonEmptyStripped | backend/services/video_service.py:355 | the kept paragraphs are non-empty and no more than the parts |
| VideoScript.PadShape | backend/services/video_service.py:361-362 | padding keeps the scenes and adds "Key concept k" lines, numbered by position, up to three |
| VideoScript.ExtractScenes | backend/services/video_service.py:339-364 | the scene list of a script; `ExtractScenesShape` states its shape |
| VideoScript.ExtractScenesShape | backend/services/video_service.py:339-364 | there are at least three scenes: one per marker in order when there are markers, else one per paragraph up to six; the rest are padding lines naming the topic |
| VideoScript.CollectMarkerScenes | backend/services/video_service.py:349-352 | the appending loop builds the marker scenes |
| VideoScript.CollectSections | backend/services/video_service.py:355-358 | the appending loop builds the section scenes |
| VideoScript.PadScenes | backend/services/video_service.py:361-362 | the padding loop ends with the padded list, which has at least three scenes |
| VideoScript.ExtractScenesFromScript | backend/services/video_service.py:339-364 | the method returns exactly `ExtractScenes`, which has at least three scenes |
| VideoScript.NoMarkerNoTitles | backend/services/video_service.py:134-136 | a script without `[SCENE:` has no title match |
| VideoScript.PromptScenes | backend/services/video_service.py:133-140 | the scenes the OpenSora prompt names; `PromptScenesShape` states them |
| VideoScript.OpenSoraPrompt | backend/services/video_service.py:143-161 | the OpenSora prompt; `OpenSoraPromptContents` states what it holds |
| VideoScript.PromptScenesShape | backend/services/video_service.py:133-140 | the prompt uses 1 to 4 scenes: the first titles in script order, or the four topic defaults when there is none |
| VideoScript.OpenSoraPromptContents | backend/services/video_service.py:143-161 | the prompt contains the topic and the style's instruction; a style outside the four names gets the visual instruction |
| VideoScript.CollapsedSpaces | backend/services/video_service.py:214 | after collapsing whitespace runs, the only whitespace is single spaces |
| VideoScript.CollapsedLast | backend/services/video_service.py:210-214 | collapsing keeps a last character that is outside the class |
| VideoScript.CleanScript | backend/services/video_service.py:209-214 | the text given to speech synthesis; `CleanScriptNormalised` and `CleanScriptExcludes` state its properties |
| VideoScript.CleanScriptNormalised | backend/services/video_service.py:209-214 | the text to be spoken has only single spaces as whitespace, never two in a row, and none at either end |
| VideoScript.CollapseRunsExcludes | backend/services/video_service.py:210-214 | collapsing runs brings in no character but a space |
| VideoScript.StripExcludes | backend/services/video_service.py:210 | stripping brings in no character |
| VideoScript.CleanScriptExcludes | backend/services/video_service.py:209-214 | cleaning brings in no character but spaces |
| VideoScript.ExcludesOpenBracket | backend/services/video_service.py:209-214 | text without `[` has no `[SCENE:` |
| VideoScript.TwoSceneScript | backend/services/video_service.py:209-214 | for a two-scene script, both markers go and the narration stays; both titles are found in order, and the cleaned text has no `[SCENE:` |

## Left out

- Network, the Groq SDK and client construction: the provider is an oracle, and the client is represented by the key it was built with.
- `asyncio.sleep(1)` after a non-quota error is a step that does nothing; timing and the async runtime are not modelled. The model is sequential; the singletons are not shared between concurrent requests.
- Logging calls are not modelled.
- `json.loads` is a parameter `loads`; the model checks only the extraction of the text handed to it.
- The schema of the parsed document is not checked, as in the source: the document type is a type parameter.
- `datetime.utcnow()` is the parameter `now` in whole seconds. Every read within one operation sees the same `now`.
- ConversationStore.IsoFormat: the calendar rendering of `isoformat()` is not modelled; timestamps are the decimal seconds.
- `str.lower`, `re.IGNORECASE` and the keyword checks lower-case ASCII letters only; Unicode case folding is not modelled.
- Context values are strings, lists, or values that cannot be sliced, kept with their `str()` rendering. A list item is a string or another value kept with its `repr()`. Quote escaping inside a rendered list is not modelled. Tuples and other sliceable values are not modelled: a tuple would render with parentheses.
- Chatbot.ChatbotService.GetActiveSessions: returns a set; the dict order of `list(self.conversations.keys())` is not modelled.
- Chatbot.ChatbotService.GetSessionStats: the average is a `real`, not a floating-point number.
- The optional arguments of `chat` (`context`) and `update_learning_context` (`learning_objectives`) are an empty map and an empty list when absent; both are falsy in Python, so the source treats them like None.
- `get_study_tips` without a style is the empty style, which Python treats like None.
- `user_preferences` is kept as an empty map; no operation writes it.
- `chat` uses the module's `groq_service` singleton; the model passes that object to `Chat` explicitly.
- The `.replace('. ', '. ')` step of the speech cleaning replaces a string with itself and is not written out.
- The rest of backend/services/video_service.py: OpenSora setup and inference, gTTS, PIL drawing, moviepy and file cleanup. These are subprocesses, foreign libraries or file I/O.
- backend/server.py (HTTP routes, MongoDB, background tasks) and the `Settings` loading of backend/config.py are not part of this model. The configured API keys are deliberately not copied.
- backend/models.py is mirrored only by the payload datatypes of the fallback template.
