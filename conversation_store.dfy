/**
 * The conversation store of `ChatbotService`
 * (backend/services/chatbot_service.py:9-299) as functions on the map from
 * session id to conversation record. The class in module Chatbot changes the
 * same map in place and is proved to follow these functions.
 *
 * Wall-clock time is the parameter `now`, in whole seconds; every
 * `datetime.utcnow()` read within one operation sees the same `now`.
 */
module ConversationStore {
  import opened Wrappers
  import opened Strings
  import opened KeyRotation
  import opened ChatPrompts

  /** `memory_duration`: two hours, in seconds. */
  const MemoryDuration: nat := 2 * 60 * 60

  /** The number of stored messages sent with each request (`messages[-10:]`). */
  const WindowSize: nat := 10

  datatype StoredMessage = StoredMessage(role: Role, content: string, timestamp: string)

  /** The record `{created_at, messages, context, user_preferences}` of one session. */
  datatype Conversation = Conversation(
    createdAt: nat,
    messages: seq<StoredMessage>,
    context: Context,
    userPreferences: Context)

  type Store = map<string, Conversation>

  /** What `chat` returns: the reply text, the session id, a timestamp, and the `error` flag. */
  datatype ChatReply = ChatReply(response: string, sessionId: string, timestamp: string, error: bool)

  /** The store and the reply after one chat turn. */
  datatype TurnResult = TurnResult(store: Store, reply: ChatReply)

  /** `datetime.isoformat()` of the clock reading; the calendar rendering is not modelled. */
  function IsoFormat(now: nat): (r: string)
    ensures |r| > 0
  {
    NatToString(now)
  }

  /** `current_time - data['created_at'] > memory_duration`: the age counts from creation. */
  predicate Expired(c: Conversation, now: nat) {
    now - c.createdAt > MemoryDuration
  }

  /** `_cleanup_old_conversations`: the store without its expired sessions. */
  function Sweep(store: Store, now: nat): Store {
    map id | id in store && !Expired(store[id], now) :: store[id]
  }

  /** A fresh record: created now, no messages, empty context and preferences. */
  function NewConversation(now: nat): Conversation {
    Conversation(now, [], map[], map[])
  }

  /** `_get_or_create_conversation`: sweep, then insert a fresh record for an absent id. */
  function GetOrCreate(store: Store, id: string, now: nat): (r: Store)
    ensures id in r
  {
    var swept := Sweep(store, now);
    if id in swept then swept else swept[id := NewConversation(now)]
  }

  /** The sweep removes exactly the expired sessions and leaves every other record as it was. */
  lemma SweepExact(store: Store, now: nat)
    ensures forall id :: id in Sweep(store, now) <==> id in store && !Expired(store[id], now)
    ensures forall id :: id in Sweep(store, now) ==> Sweep(store, now)[id] == store[id]
  {
  }

  /**
   * Age is measured from creation, so sweeping earlier changes nothing about a later
   * sweep: what survives a later sweep is the same either way.
   */
  lemma SweepLater(store: Store, t1: nat, t2: nat)
    requires t1 <= t2
    ensures Sweep(Sweep(store, t1), t2) == Sweep(store, t2)
  {
    var a, b := Sweep(Sweep(store, t1), t2), Sweep(store, t2);
    forall id | id in b
      ensures id in a
    {
      assert !Expired(store[id], t1);
    }
    assert a.Keys == b.Keys;
  }

  /** `_get_or_create_conversation` returns an existing, unexpired record unchanged and sweeps the rest. */
  lemma GetOrCreateExisting(store: Store, id: string, now: nat)
    requires id in store && !Expired(store[id], now)
    ensures GetOrCreate(store, id, now) == Sweep(store, now)
    ensures GetOrCreate(store, id, now)[id] == store[id]
  {
  }

  /** An absent or expired session is created fresh; every other surviving session is kept. */
  lemma GetOrCreateFresh(store: Store, id: string, now: nat)
    requires id !in store || Expired(store[id], now)
    ensures GetOrCreate(store, id, now)[id] == NewConversation(now)
    ensures GetOrCreate(store, id, now).Keys == Sweep(store, now).Keys + {id}
    ensures forall other :: other in Sweep(store, now) ==> GetOrCreate(store, id, now)[other] == store[other]
  {
    assert id !in Sweep(store, now);
  }

  /**
   * A session created at `t` is gone once more than two hours have passed, whatever it was
   * used for since, and touching it then starts an empty conversation.
   */
  lemma EvictedAfterWindow(store: Store, id: string, t: nat, now: nat)
    requires id in store && store[id].createdAt == t && now > t + MemoryDuration
    ensures id !in Sweep(store, now)
    ensures GetOrCreate(store, id, now)[id].messages == []
    ensures GetOrCreate(store, id, now)[id].createdAt == now
  {
    GetOrCreateFresh(store, id, now);
  }

  /** The stored messages sent with a request: the last ten, or all when there are fewer. */
  function Recent(messages: seq<StoredMessage>): seq<StoredMessage> {
    if |messages| <= WindowSize then messages else messages[|messages| - WindowSize..]
  }

  /** `{'role': msg['role'], 'content': msg['content']}` for each recent message, oldest first. */
  function Window(messages: seq<StoredMessage>): seq<ChatMessage> {
    var recent := Recent(messages);
    seq(|recent|, i requires 0 <= i < |recent| => ChatMessage(recent[i].role, recent[i].content))
  }

  /**
   * The window holds the last `min(10, |messages|)` messages in their stored order:
   * entry `i` is message `|messages| - |window| + i`.
   */
  lemma WindowIsSuffix(messages: seq<StoredMessage>)
    ensures |Window(messages)| == Min(WindowSize, |messages|)
    ensures forall i :: 0 <= i < |Window(messages)| ==>
      var m := messages[|messages| - |Window(messages)| + i];
      Window(messages)[i] == ChatMessage(m.role, m.content)
  {
  }

  /** The model and settings of the request `chat` sends (lines 80-85). */
  const ChatModel: string := "llama3-8b-8192"
  const ChatMaxTokens: nat := 1500

  /**
   * The request `chat` sends for a conversation: the system prompt and the window;
   * None when building the prompt raises.
   */
  function TurnRequest(c: Conversation): Option<CompletionRequest> {
    match BuildSystemPrompt(c.context, |c.messages|)
    case None => None
    case Some(prompt) => Some(CompletionRequest([ChatMessage(System, prompt)] + Window(c.messages), ChatModel, 0.7, ChatMaxTokens))
  }

  /**
   * The outbound list has at most eleven entries: the system prompt first, then the last
   * stored messages oldest first, ending with the newest one.
   */
  lemma TurnRequestShape(c: Conversation)
    requires |c.messages| > 0 && TurnRequest(c).Some?
    ensures var out := TurnRequest(c).value.messages;
      && 2 <= |out| <= WindowSize + 1
      && out[0] == ChatMessage(System, BuildSystemPrompt(c.context, |c.messages|).value)
      && out[1..] == Window(c.messages)
      && var last := c.messages[|c.messages| - 1];
         out[|out| - 1] == ChatMessage(last.role, last.content)
  {
    WindowIsSuffix(c.messages);
    var out := TurnRequest(c).value.messages;
    assert out == [ChatMessage(System, BuildSystemPrompt(c.context, |c.messages|).value)] + Window(c.messages);
  }

  /**
   * The part of `chat` before the request: get or create the session, merge the context
   * patch (the `context` argument, empty when None), append the user message.
   */
  function BeginTurn(store: Store, id: string, message: string, patch: Context, now: nat): (r: Store)
    ensures id in r
  {
    var s := GetOrCreate(store, id, now);
    var c := s[id];
    s[id := c.(context := c.context + patch, messages := c.messages + [StoredMessage(User, message, IsoFormat(now))])]
  }

  const ErrorReply: string :=
    "I apologize, but I'm " + "having technical " + "difficulties. Please try " + "asking your question " + "again."

  /**
   * The part of `chat` after the request. `outcome` is None when the prompt could not be built
   * (no request was sent). A returned truthy text is the reply; a None or empty one is replaced
   * by the keyword fallback; either is appended as the assistant message. Anything raised takes
   * the error path and appends nothing more.
   */
  function FinishTurn(begun: Store, id: string, message: string, outcome: Option<RequestOutcome>, now: nat): (r: TurnResult)
    requires id in begun
    ensures id in r.store
  {
    match outcome
    case Some(Returned(content)) =>
      var text := if content.Some? && content.value != "" then content.value else FallbackResponse(message);
      var c := begun[id];
      TurnResult(
        begun[id := c.(messages := c.messages + [StoredMessage(Assistant, text, IsoFormat(now))])],
        ChatReply(text, id, IsoFormat(now), false))
    case _ =>
      TurnResult(begun, ChatReply(ErrorReply, id, IsoFormat(now), true))
  }

  /**
   * `chat` as a whole, with the completion client's pool `pool` of `keys` keys and bound `max`:
   * the turn's result and the client's new pool. Without a prompt no request is sent.
   */
  function ChatTurn(store: Store, id: string, message: string, patch: Context, now: nat,
                    pool: Pool, keys: nat, max: nat, provider: Provider): (r: (TurnResult, Pool))
    requires keys > 0
    ensures id in r.0.store
  {
    RespondTurn(BeginTurn(store, id, message, patch, now), id, message, now, pool, keys, max, provider)
  }

  /** The part of `chat` from the system prompt on: build the request, send it, finish the turn. */
  function RespondTurn(begun: Store, id: string, message: string, now: nat,
                       pool: Pool, keys: nat, max: nat, provider: Provider): (r: (TurnResult, Pool))
    requires keys > 0 && id in begun
    ensures id in r.0.store
  {
    match TurnRequest(begun[id])
    case None => (FinishTurn(begun, id, message, None, now), pool)
    case Some(request) =>
      var t := Request(pool, keys, max, request, provider);
      (FinishTurn(begun, id, message, Some(t.outcome), now), t.pool)
  }

  /** Whether a request outcome lets `chat` reply normally. */
  predicate Answered(outcome: Option<RequestOutcome>) {
    outcome.Some? && outcome.value.Returned?
  }

  /**
   * A chat turn appends the user message after the earlier ones. When the request returns,
   * the assistant message follows (the text, or the keyword fallback for None or ""), two
   * messages in all; when anything raised, only the user message was added and the reply is
   * the error reply. Other sessions are those of the sweep.
   */
  lemma {:induction false} ChatTurnMessages(store: Store, id: string, message: string, patch: Context, now: nat, outcome: Option<RequestOutcome>)
    ensures var before := GetOrCreate(store, id, now)[id].messages;
      var res := FinishTurn(BeginTurn(store, id, message, patch, now), id, message, outcome, now);
      var after := res.store[id].messages;
      && |after| == |before| + (if Answered(outcome) then 2 else 1)
      && after[..|before|] == before
      && after[|before|] == StoredMessage(User, message, IsoFormat(now))
      && res.reply.sessionId == id
      && res.reply.error == !Answered(outcome)
      && (Answered(outcome) ==>
            && after[|before| + 1] == StoredMessage(Assistant, res.reply.response, IsoFormat(now))
            && var content := outcome.value.content;
               res.reply.response == if content.Some? && content.value != "" then content.value else FallbackResponse(message))
      && (!Answered(outcome) ==> res.reply.response == ErrorReply)
      && res.store.Keys == GetOrCreate(store, id, now).Keys
      && forall other :: other in res.store && other != id ==> res.store[other] == GetOrCreate(store, id, now)[other]
  {
    var s := GetOrCreate(store, id, now);
    var before := s[id].messages;
    var user := StoredMessage(User, message, IsoFormat(now));
    var begun := BeginTurn(store, id, message, patch, now);
    assert begun[id].messages == before + [user];
    var res := FinishTurn(begun, id, message, outcome, now);
    if Answered(outcome) {
      var assistant := StoredMessage(Assistant, res.reply.response, IsoFormat(now));
      assert res.store[id].messages == before + [user] + [assistant];
      assert (before + [user] + [assistant])[..|before|] == before;
    } else {
      assert (before + [user])[..|before|] == before;
    }
  }

  /** The context merge overwrites exactly the keys the patch supplies. */
  lemma BeginTurnMergesContext(store: Store, id: string, message: string, patch: Context, now: nat)
    ensures var old_ := GetOrCreate(store, id, now)[id].context;
      var new_ := BeginTurn(store, id, message, patch, now)[id].context;
      && new_.Keys == old_.Keys + patch.Keys
      && (forall k :: k in patch ==> new_[k] == patch[k])
      && (forall k :: k in old_ && k !in patch ==> new_[k] == old_[k])
  {
  }

  /** `get_conversation_history`: the stored messages, or none for an absent id; no sweep. */
  function History(store: Store, id: string): seq<StoredMessage> {
    if id in store then store[id].messages else []
  }

  /** `clear_conversation`: removes the session when present and says whether it was. */
  function Clear(store: Store, id: string): (Store, bool) {
    if id in store then (store - {id}, true) else (store, false)
  }

  /** Clearing reports presence, removes only that session, and a second clear reports false. */
  lemma ClearTwice(store: Store, id: string)
    ensures Clear(store, id).1 <==> id in store
    ensures Clear(store, id).0.Keys == store.Keys - {id}
    ensures forall other :: other in Clear(store, id).0 ==> Clear(store, id).0[other] == store[other]
    ensures Clear(Clear(store, id).0, id) == (Clear(store, id).0, false)
    ensures History(Clear(store, id).0, id) == []
  {
  }

  /**
   * The context after `update_learning_context`: topic, style, level and update time
   * overwritten; the objectives set only for a non-empty list (None is the empty list here).
   */
  function UpdatedContext(ctx: Context, topic: string, style: string, level: string, objectives: seq<string>, now: nat): Context {
    var updated := ctx + map[
      "current_topic" := Text(topic),
      "learning_style" := Text(style),
      "learner_level" := Text(level),
      "updated_at" := Text(IsoFormat(now))];
    if |objectives| > 0 then updated["recent_objectives" := ListValue(StrItems(objectives))] else updated
  }

  /** `update_learning_context`: get or create the session, then update its context. */
  function UpdateLearningContext(store: Store, id: string, topic: string, style: string, level: string, objectives: seq<string>, now: nat): (r: Store)
    ensures id in r
  {
    var s := GetOrCreate(store, id, now);
    s[id := s[id].(context := UpdatedContext(s[id].context, topic, style, level, objectives, now))]
  }

  /**
   * The update sets the three learning keys and the update time, sets the objectives
   * exactly when a non-empty list is given, and keeps every other key.
   */
  lemma UpdatedContextKeys(ctx: Context, topic: string, style: string, level: string, objectives: seq<string>, now: nat)
    ensures var r := UpdatedContext(ctx, topic, style, level, objectives, now);
      && r["current_topic"] == Text(topic)
      && r["learning_style"] == Text(style)
      && r["learner_level"] == Text(level)
      && "updated_at" in r
      && (|objectives| > 0 ==> r["recent_objectives"] == ListValue(StrItems(objectives)))
      && (|objectives| == 0 ==> ("recent_objectives" in r <==> "recent_objectives" in ctx))
      && (|objectives| == 0 && "recent_objectives" in ctx ==> r["recent_objectives"] == ctx["recent_objectives"])
      && forall k :: k in ctx && k !in UpdateKeys ==> k in r && r[k] == ctx[k]
  {
  }

  /** The keys `update_learning_context` may write. */
  const UpdateKeys: set<string> := {"current_topic", "learning_style", "learner_level", "updated_at", "recent_objectives"}

  /** Sessions left after a sweep: what `get_active_sessions` lists, in no particular order. */
  function ActiveSessions(store: Store, now: nat): set<string> {
    Sweep(store, now).Keys
  }

  /** Sum of the message counts of all sessions. */
  ghost function TotalMessages(store: Store): nat
    decreases |store|
  {
    if store == map[] then 0
    else
      var id :| id in store;
      assert |store - {id}| < |store| by { assert (store - {id}).Keys == store.Keys - {id}; }
      |store[id].messages| + TotalMessages(store - {id})
  }

  /** The total is the same whichever session is counted first. */
  lemma {:induction false} TotalMessagesRemove(store: Store, id: string)
    requires id in store
    ensures TotalMessages(store) == |store[id].messages| + TotalMessages(store - {id})
    decreases |store|
  {
    var x :| x in store && TotalMessages(store) == |store[x].messages| + TotalMessages(store - {x});
    if x != id {
      assert (store - {x}).Keys == store.Keys - {x};
      assert (store - {id}).Keys == store.Keys - {id};
      TotalMessagesRemove(store - {x}, id);
      TotalMessagesRemove(store - {id}, x);
      assert store - {x} - {id} == store - {id} - {x};
    }
  }

  /** What `get_session_stats` reports: sessions, messages, and the mean (0 with no sessions). */
  datatype SessionStats = SessionStats(activeSessions: nat, totalMessages: nat, averageMessagesPerSession: real)

  ghost function Stats(store: Store, now: nat): SessionStats {
    var swept := Sweep(store, now);
    var total := TotalMessages(swept);
    SessionStats(|swept|, total, if |swept| > 0 then total as real / |swept| as real else 0.0)
  }

  /** Each session's messages count towards the total. */
  lemma {:induction false} TotalMessagesBounds(store: Store, id: string)
    requires id in store
    ensures |store[id].messages| <= TotalMessages(store)
  {
    TotalMessagesRemove(store, id);
  }

  /** One message added to one session raises the total by one. */
  lemma TotalMessagesAppend(store: Store, id: string, m: StoredMessage)
    requires id in store
    ensures TotalMessages(store[id := store[id].(messages := store[id].messages + [m])]) == TotalMessages(store) + 1
  {
    var s' := store[id := store[id].(messages := store[id].messages + [m])];
    TotalMessagesRemove(store, id);
    TotalMessagesRemove(s', id);
    assert s' - {id} == store - {id};
  }

  /**
   * When every provider call fails, a chat turn never raises: it answers with the error reply,
   * and the session keeps the user message and nothing else new.
   */
  lemma ChatTurnAllFail(store: Store, id: string, message: string, patch: Context, now: nat,
                        pool: Pool, keys: nat, max: nat, provider: Provider)
    requires keys > 0
    requires forall r: CompletionRequest, i: nat :: provider(r, i).Failed?
    ensures var (res, _) := ChatTurn(store, id, message, patch, now, pool, keys, max, provider);
      && res.reply == ChatReply(ErrorReply, id, IsoFormat(now), true)
      && res.store[id].messages == GetOrCreate(store, id, now)[id].messages + [StoredMessage(User, message, IsoFormat(now))]
  {
    var begun := BeginTurn(store, id, message, patch, now);
    match TurnRequest(begun[id])
    case None =>
    case Some(request) =>
      RequestRaisesIffAllFail(pool, keys, max, request, provider);
  }

  /**
   * When the first provider call returns no text or an empty one, the keyword fallback is the
   * reply and is stored as the assistant message.
   */
  lemma ChatTurnEmptyReply(store: Store, id: string, message: string, patch: Context, now: nat,
                           pool: Pool, keys: nat, max: nat, provider: Provider)
    requires keys > 0 && pool.index < keys
    requires forall r: CompletionRequest :: provider(r, 0) == Completed(None) || provider(r, 0) == Completed(Some(""))
    requires TurnRequest(BeginTurn(store, id, message, patch, now)[id]).Some?
    ensures var (res, _) := ChatTurn(store, id, message, patch, now, pool, keys, max, provider);
      && res.reply == ChatReply(FallbackResponse(message), id, IsoFormat(now), false)
      && var ms := res.store[id].messages;
         |ms| >= 2 && ms[|ms| - 1] == StoredMessage(Assistant, FallbackResponse(message), IsoFormat(now))
  {
    var begun := BeginTurn(store, id, message, patch, now);
    var request := TurnRequest(begun[id]).value;
    RequestFirstCall(pool, keys, max, request, provider);
    assert provider(request, 0) == Completed(None) || provider(request, 0) == Completed(Some(""));
    assert Request(pool, keys, max, request, provider).outcome.Returned?;
    ChatTurnMessages(store, id, message, patch, now, Some(Request(pool, keys, max, request, provider).outcome));
  }
}
