/**
 * `TelegramService`: the bot's entry point. It registers the handlers
 * (cancel, expense, automated expense, catch-all greeting, in that
 * order), drops updates that carry no text message, and dispatches with
 * its own `for` loop: the first accepting handler's `handle` runs and the
 * loop stops. What `handle` returns is discarded; what it throws goes to
 * `handleError`, which writes the module-level `chatStatus` map, not the
 * instance field of the same name.
 */
module TelegramService {
  import opened Wrappers
  import opened MessageHandlerInterface
  import opened ChatState
  import opened Handlers

  /** The registration order of the constructor. */
  const Registered: seq<Handler> := [Cancel, Gasto, AutomatedExpense, Default]

  /** The message of a Telegram update, as far as dispatch reads it; `text` is absent for stickers, photos and the like. */
  datatype IncomingMessage = IncomingMessage(
    messageId: int,
    chatId: int,
    fromId: Option<int>,
    text: Option<string>,
    replyTo: Option<RepliedMessage>)

  /** A `message` update: `message` is absent when the update carries none. */
  datatype Update = Update(message: Option<IncomingMessage>)

  /** The `bot.on("message")` filter: a text message becomes a `TextMessageContext`; anything else is dropped. */
  function TextContext(u: Update, botId: int): (r: Option<TextMessageContext>)
    ensures r.None? <==> u.message.None? || u.message.value.text.None?
    ensures r.Some? ==>
      var m, c := u.message.value, r.value.message;
      && c.messageId == m.messageId && c.chatId == m.chatId && c.fromId == m.fromId
      && c.text == m.text.value && c.replyTo == m.replyTo && r.value.botId == botId
  {
    match u.message
    case None => None
    case Some(m) =>
      match m.text
      case None => None
      case Some(text) => Some(TextMessageContext(TextMessage(m.messageId, m.chatId, m.fromId, text, m.replyTo), botId))
  }

  /**
   * `handle` as the constructor wires the handlers. The automated-expense
   * handler is built with the postgres service in its first (RPC)
   * parameter, so its own postgres field is undefined and `handle` throws
   * a TypeError on the first lookup.
   */
  function WiredOutcome(h: Handler, ctx: TextMessageContext, env: Env): (o: Outcome)
    requires HandlePre(h, ctx)
    ensures !h.AutomatedExpense? ==> o == HandleOutcome(h, ctx, env)
    ensures h.AutomatedExpense? ==> o == Threw(SystemError(TypeError))
  {
    if h.AutomatedExpense? then Threw(SystemError(TypeError)) else HandleOutcome(h, ctx, env)
  }

  /** What one run of `handleMessage` does: the handler run, the messages sent, the new map. */
  datatype LegacyEffects = LegacyEffects(selected: Option<Handler>, sent: seq<Outbound>, state: map<int, ActiveChatInfo>)

  /** `handleMessage` from the map `m`: only errors produce a message; a returned answer is dropped. */
  function LegacyDispatch(handlers: seq<Handler>, ctx: TextMessageContext, env: Env, m: map<int, ActiveChatInfo>): LegacyEffects
  {
    var k := FirstMatch(handlers, ctx, m);
    if k < 0 then LegacyEffects(None, [], m)
    else
      var h := handlers[k];
      var handled := HandleState(h, ctx, m);
      match WiredOutcome(h, ctx, env)
      case Threw(e) => LegacyEffects(Some(h), [ErrorReply(ctx, e)], AfterError(ctx, e, handled))
      case Returned(_) => LegacyEffects(Some(h), [], handled)
  }

  class TelegramService {
    const handlers: seq<Handler>
    /** The module-level `chatStatus` the dispatch passes to the handlers and clears on error. */
    const chatStatus: ChatStatusMap
    /** The instance field `this.chatStatus`: created empty, and nothing writes it. */
    const instanceChatStatus: ChatStatusMap
    /** Every message sent so far, in order. */
    var outbox: seq<Outbound>
    /** Every handler whose `handle` was called, in order. */
    var invoked: seq<Handler>

    /** The two maps are distinct objects. */
    predicate Valid()
      reads this
    {
      instanceChatStatus != chatStatus
    }

    constructor (moduleChatStatus: ChatStatusMap)
      ensures Valid()
      ensures handlers == Registered && chatStatus == moduleChatStatus
      ensures fresh(instanceChatStatus) && instanceChatStatus.entries == map[]
      ensures outbox == [] && invoked == []
    {
      handlers := Registered;
      chatStatus := moduleChatStatus;
      instanceChatStatus := new ChatStatusMap();
      outbox := [];
      invoked := [];
    }

    /** The `bot.on("message")` callback: filter, then dispatch. */
    method OnMessage(u: Update, botId: int, env: Env)
      requires Valid()
      modifies this, chatStatus
      ensures TextContext(u, botId).None? ==>
        outbox == old(outbox) && invoked == old(invoked) && chatStatus.entries == old(chatStatus.entries)
      ensures TextContext(u, botId).Some? ==>
        var d := LegacyDispatch(handlers, TextContext(u, botId).value, env, old(chatStatus.entries));
        && outbox == old(outbox) + d.sent
        && chatStatus.entries == d.state
      ensures instanceChatStatus.entries == old(instanceChatStatus.entries)
    {
      var ctx := TextContext(u, botId);
      if ctx.None? {
        return;
      }
      HandleMessage(ctx.value, env);
    }

    /**
     * `handleMessage`: the `for` loop over the handlers, stopping at the
     * first that accepts.
     */
    method HandleMessage(ctx: TextMessageContext, env: Env)
      requires Valid()
      modifies this, chatStatus
      ensures var d := LegacyDispatch(handlers, ctx, env, old(chatStatus.entries));
        && outbox == old(outbox) + d.sent
        && invoked == old(invoked) + (if d.selected.Some? then [d.selected.value] else [])
        && chatStatus.entries == d.state
      ensures instanceChatStatus.entries == old(instanceChatStatus.entries)
    {
      var i := 0;
      while i < |handlers|
        invariant 0 <= i <= |handlers|
        invariant forall j | 0 <= j < i :: !ShouldHandle(handlers[j], ctx, chatStatus.entries)
        invariant chatStatus.entries == old(chatStatus.entries)
        invariant outbox == old(outbox) && invoked == old(invoked)
      {
        var handler := handlers[i];
        if ShouldHandle(handler, ctx, chatStatus.entries) {
          assert FirstMatch(handlers, ctx, chatStatus.entries) == i;
          invoked := invoked + [handler];
          var outcome;
          if handler.AutomatedExpense? {
            outcome := Threw(SystemError(TypeError));
          } else {
            outcome := Handle(handler, ctx, env, chatStatus);
          }
          if outcome.Threw? {
            HandleError(ctx, outcome.error);
          }
          break;
        }
        i := i + 1;
      }
    }

    /** `handleError`: one message to the chat; any error but a user error also drops the chat's module-level entry. */
    method HandleError(ctx: TextMessageContext, e: Error)
      modifies this, chatStatus
      ensures outbox == old(outbox) + [ErrorReply(ctx, e)]
      ensures chatStatus.entries == AfterError(ctx, e, old(chatStatus.entries))
      ensures invoked == old(invoked)
    {
      outbox := outbox + [ErrorReply(ctx, e)];
      if !e.UserError? {
        chatStatus.Delete(ctx.message.chatId);
      }
    }
  }

  /** With the registered handlers some handler always runs, and the greeting only when no other accepts. */
  lemma RegisteredAlwaysSelects(ctx: TextMessageContext, m: map<int, ActiveChatInfo>)
    ensures 0 <= FirstMatch(Registered, ctx, m) < |Registered|
    ensures Registered[FirstMatch(Registered, ctx, m)] == Default <==>
      forall j | 0 <= j < 3 :: !ShouldHandle(Registered[j], ctx, m)
  {
    DefaultCatchesAll(Registered, ctx, m, 3);
  }

  /** The cancel keyword wins over every other handler. */
  lemma CancelFirst(ctx: TextMessageContext, m: map<int, ActiveChatInfo>)
    requires ShouldHandle(Cancel, ctx, m)
    ensures FirstMatch(Registered, ctx, m) == 0
  {
  }

  /** A returned answer is discarded: nothing is sent, and the map is what `handle` left. */
  lemma AnswersDiscarded(handlers: seq<Handler>, ctx: TextMessageContext, env: Env, m: map<int, ActiveChatInfo>)
    requires var k := FirstMatch(handlers, ctx, m);
      k >= 0 && WiredOutcome(handlers[k], ctx, env).Returned?
    ensures var d := LegacyDispatch(handlers, ctx, env, m);
      d.sent == [] && d.state == HandleState(handlers[FirstMatch(handlers, ctx, m)], ctx, m)
  {
  }

  /** A thrown error is never rethrown: it becomes exactly one message to the chat, the error's text or the apology. */
  lemma ErrorsBecomeOneReply(handlers: seq<Handler>, ctx: TextMessageContext, env: Env, m: map<int, ActiveChatInfo>)
    requires var k := FirstMatch(handlers, ctx, m);
      k >= 0 && WiredOutcome(handlers[k], ctx, env).Threw?
    ensures var e, d := WiredOutcome(handlers[FirstMatch(handlers, ctx, m)], ctx, env).error, LegacyDispatch(handlers, ctx, env, m);
      && (e.UserError? ==> d.sent == [DirectSend(ctx.message.chatId, e.message)] && d.state == m)
      && (e.SystemError? ==> d.sent == [DirectSend(ctx.message.chatId, Apology)])
      && (e.SystemError? ==> ctx.message.chatId !in d.state)
      && (e.SystemError? ==> forall id | id in m && id != ctx.message.chatId :: id in d.state && d.state[id] == m[id])
  {
    var k := FirstMatch(handlers, ctx, m);
    assert !handlers[k].Cancel?;
  }

  /**
   * As wired, a reply to a payment notification always ends in the
   * apology and the loss of the chat's entry, whatever the reply says.
   */
  lemma AutomatedRepliesAlwaysFail(ctx: TextMessageContext, env: Env, m: map<int, ActiveChatInfo>)
    requires FirstMatch(Registered, ctx, m) == 2
    ensures var d := LegacyDispatch(Registered, ctx, env, m);
      && d.selected == Some(AutomatedExpense)
      && d.sent == [DirectSend(ctx.message.chatId, Apology)]
      && d.state == m - {ctx.message.chatId}
  {
  }

  /** Across a dispatch the module-level map's keys never grow and surviving entries keep their values. */
  lemma LegacyKeysNeverGrow(handlers: seq<Handler>, ctx: TextMessageContext, env: Env, m: map<int, ActiveChatInfo>)
    ensures var d := LegacyDispatch(handlers, ctx, env, m);
      d.state.Keys <= m.Keys && forall id | id in d.state :: d.state[id] == m[id]
  {
  }
}
