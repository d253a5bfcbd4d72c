/**
 * `ChatbotService` (backend/services/chatbot_service.py:9-299): the
 * conversation map changed in place, with each method proved to follow the
 * functions of module ConversationStore. `chat` drives the same
 * `GroqApiService` object as content generation.
 */
module Chatbot {
  import opened Wrappers
  import opened KeyRotation
  import opened ChatPrompts
  import opened ConversationStore
  import GroqService

  class ChatbotService {
    var conversations: Store
    const memoryDuration: nat := MemoryDuration

    /** `__init__`: no conversations, a two-hour memory. */
    constructor()
      ensures conversations == map[]
    {
      conversations := map[];
    }

    /**
     * `_cleanup_old_conversations`: one pass collects the expired ids, a second deletes them.
     * The result is `Sweep`.
     */
    method CleanupOldConversations(now: nat)
      modifies this
      ensures conversations == Sweep(old(conversations), now)
    {
      var expired: set<string> := {};
      var pending := conversations.Keys;
      while pending != {}
        invariant conversations == old(conversations)
        invariant pending <= conversations.Keys
        invariant forall id :: id in expired <==> id in conversations && id !in pending && Expired(conversations[id], now)
        decreases |pending|
      {
        var id :| id in pending;
        if now - conversations[id].createdAt > memoryDuration {
          expired := expired + {id};
        }
        pending := pending - {id};
      }
      var doomed := expired;
      while doomed != {}
        invariant doomed <= expired
        invariant forall id :: id in conversations <==> id in old(conversations) && (id !in expired || id in doomed)
        invariant forall id :: id in conversations ==> conversations[id] == old(conversations)[id]
        decreases |doomed|
      {
        var id :| id in doomed;
        conversations := conversations - {id};
        doomed := doomed - {id};
      }
      assert conversations.Keys == Sweep(old(conversations), now).Keys;
    }

    /** `_get_or_create_conversation`: sweep, insert a fresh record if absent, return the record. */
    method GetOrCreateConversation(id: string, now: nat) returns (c: Conversation)
      modifies this
      ensures conversations == GetOrCreate(old(conversations), id, now)
      ensures c == conversations[id]
    {
      CleanupOldConversations(now);
      if id !in conversations {
        conversations := conversations[id := NewConversation(now)];
      }
      c := conversations[id];
    }

    /**
     * Lines 69-77: the system message, then one entry per recent stored message,
     * appended in order.
     */
    static method BuildOutbound(prompt: string, messages: seq<StoredMessage>) returns (out: seq<ChatMessage>)
      ensures out == [ChatMessage(System, prompt)] + Window(messages)
    {
      out := [ChatMessage(System, prompt)];
      var recent := if |messages| <= WindowSize then messages else messages[|messages| - WindowSize..];
      var i := 0;
      while i < |recent|
        invariant 0 <= i <= |recent|
        invariant recent == Recent(messages)
        invariant out == [ChatMessage(System, prompt)] + Window(messages)[..i]
      {
        out := out + [ChatMessage(recent[i].role, recent[i].content)];
        i := i + 1;
      }
      assert Window(messages)[..i] == Window(messages);
    }

    /**
     * `chat`: the turn of `ChatTurn`, with `groq` the completion client and `provider` its
     * oracle. `patch` is the `context` argument (None is the empty map). Never raises.
     */
    method Chat(id: string, message: string, patch: Context, now: nat, groq: GroqService.GroqApiService, provider: Provider)
      returns (reply: ChatReply)
      requires groq.Valid()
      modifies this, groq
      ensures groq.Valid()
      ensures (TurnResult(conversations, reply), groq.State())
        == ChatTurn(old(conversations), id, message, patch, now, old(groq.State()), |groq.apiKeys|, groq.maxRequestsPerKey, provider)
    {
      var c := GetOrCreateConversation(id, now);
      if |patch| > 0 {
        c := c.(context := c.context + patch);
      } else {
        assert c.context + patch == c.context;
      }
      c := c.(messages := c.messages + [StoredMessage(User, message, IsoFormat(now))]);
      conversations := conversations[id := c];
      assert conversations == BeginTurn(old(conversations), id, message, patch, now);
      reply := Respond(id, message, now, groq, provider);
    }

    /** Lines 65-124 for a session whose user message is stored: prompt, request, reply. */
    method Respond(id: string, message: string, now: nat, groq: GroqService.GroqApiService, provider: Provider)
      returns (reply: ChatReply)
      requires groq.Valid() && id in conversations
      modifies this, groq
      ensures groq.Valid()
      ensures (TurnResult(conversations, reply), groq.State())
        == RespondTurn(old(conversations), id, message, now, old(groq.State()), |groq.apiKeys|, groq.maxRequestsPerKey, provider)
    {
      var c := conversations[id];
      var prompt := BuildSystemPrompt(c.context, |c.messages|);
      if prompt.None? {
        reply := ChatReply(ErrorReply, id, IsoFormat(now), true);
        return;
      }
      var outbound := BuildOutbound(prompt.value, c.messages);
      var request := CompletionRequest(outbound, ChatModel, 0.7, ChatMaxTokens);
      var outcome, _ := groq.MakeRequest(request, provider);
      match outcome
      case Raised(_) =>
        reply := ChatReply(ErrorReply, id, IsoFormat(now), true);
      case Returned(content) =>
        var text := if content.Some? && content.value != "" then content.value else FallbackResponse(message);
        conversations := conversations[id := c.(messages := c.messages + [StoredMessage(Assistant, text, IsoFormat(now))])];
        reply := ChatReply(text, id, IsoFormat(now), false);
    }

    /** `summarize_topic`: a chat turn carrying the summary prompt. */
    method SummarizeTopic(id: string, topic: string, detail: string, now: nat, groq: GroqService.GroqApiService, provider: Provider)
      returns (reply: ChatReply)
      requires groq.Valid()
      modifies this, groq
      ensures groq.Valid()
      ensures (TurnResult(conversations, reply), groq.State())
        == ChatTurn(old(conversations), id, SummarizePrompt(topic, detail), map[], now, old(groq.State()), |groq.apiKeys|, groq.maxRequestsPerKey, provider)
    {
      reply := Chat(id, SummarizePrompt(topic, detail), map[], now, groq, provider);
    }

    /** `get_study_tips`: a chat turn carrying the study-tips prompt (no style is ""). */
    method GetStudyTips(id: string, topic: string, style: string, now: nat, groq: GroqService.GroqApiService, provider: Provider)
      returns (reply: ChatReply)
      requires groq.Valid()
      modifies this, groq
      ensures groq.Valid()
      ensures (TurnResult(conversations, reply), groq.State())
        == ChatTurn(old(conversations), id, StudyTipsPrompt(topic, style), map[], now, old(groq.State()), |groq.apiKeys|, groq.maxRequestsPerKey, provider)
    {
      reply := Chat(id, StudyTipsPrompt(topic, style), map[], now, groq, provider);
    }

    /** `get_conversation_history`: the session's messages, [] when absent; no sweep. */
    method GetConversationHistory(id: string) returns (history: seq<StoredMessage>)
      ensures history == History(conversations, id)
      ensures id !in conversations ==> history == []
    {
      if id in conversations {
        history := conversations[id].messages;
      } else {
        history := [];
      }
    }

    /** `clear_conversation`: removes the session when present and says whether it was; no sweep. */
    method ClearConversation(id: string) returns (removed: bool)
      modifies this
      ensures (conversations, removed) == Clear(old(conversations), id)
    {
      if id in conversations {
        conversations := conversations - {id};
        return true;
      }
      return false;
    }

    /** `update_learning_context`: get or create the session, then merge the learning keys. */
    method UpdateLearningContextOf(id: string, topic: string, style: string, level: string, objectives: seq<string>, now: nat)
      modifies this
      ensures conversations == UpdateLearningContext(old(conversations), id, topic, style, level, objectives, now)
    {
      var c := GetOrCreateConversation(id, now);
      var ctx := c.context + map[
        "current_topic" := Text(topic),
        "learning_style" := Text(style),
        "learner_level" := Text(level),
        "updated_at" := Text(IsoFormat(now))];
      if |objectives| > 0 {
        ctx := ctx["recent_objectives" := ListValue(StrItems(objectives))];
      }
      conversations := conversations[id := c.(context := ctx)];
    }

    /** `get_active_sessions`: sweep, then the remaining ids. */
    method GetActiveSessions(now: nat) returns (ids: set<string>)
      modifies this
      ensures conversations == Sweep(old(conversations), now)
      ensures ids == ActiveSessions(old(conversations), now)
    {
      CleanupOldConversations(now);
      ids := conversations.Keys;
    }

    /** `sum(len(conv['messages']) for conv in conversations.values())`, one session at a time. */
    static method SumMessages(store: Store) returns (total: nat)
      ensures total == TotalMessages(store)
    {
      total := 0;
      var rest := store;
      while rest != map[]
        invariant total + TotalMessages(rest) == TotalMessages(store)
        decreases |rest|
      {
        var id :| id in rest;
        TotalMessagesRemove(rest, id);
        total := total + |rest[id].messages|;
        assert (rest - {id}).Keys == rest.Keys - {id};
        rest := rest - {id};
      }
    }

    /** `get_session_stats`: sweep, then count sessions and sum their messages. */
    method GetSessionStats(now: nat) returns (stats: SessionStats)
      modifies this
      ensures conversations == Sweep(old(conversations), now)
      ensures stats == Stats(old(conversations), now)
    {
      CleanupOldConversations(now);
      var sessions := |conversations|;
      var total := SumMessages(conversations);
      var average := if sessions > 0 then total as real / sessions as real else 0.0;
      stats := SessionStats(sessions, total, average);
    }
  }
}
