/**
 * `MessageHandlerService`: picks the first handler that accepts a text
 * message, sends what it answers (text and options) through the
 * Telegram service, then runs the answer's post-send hook; whatever
 * `handle` or the send throws goes to `handleError`.
 *
 * Whether the outbound send succeeds and whether the hook throws are
 * decided outside this code; they are parameters here.
 */
module MessageHandlerService {
  import opened Wrappers
  import opened MessageHandlerInterface
  import opened ChatState
  import opened Handlers

  /** One run of a post-send hook, and whether it completed without throwing. */
  datatype HookRun = HookRun(hook: PostHook, succeeded: bool)

  /** Everything one dispatch does: the handler whose `handle` ran, the messages sent, the hooks run, the new map. */
  datatype Effects = Effects(
    selected: Option<Handler>,
    sent: seq<Outbound>,
    hooks: seq<HookRun>,
    state: map<int, ActiveChatInfo>)

  /** The message and options a response is sent with: a plain string gets `{}`, as does an advanced one without options. */
  function Delivery(response: Response): (Body, ResponseOptions)
  {
    match response
    case Plain(text) => (Text(text), NoOptions)
    case Advanced(message, options, _) => (message, options.GetOr(NoOptions))
  }

  /** The hook runs an answer schedules once it is sent: only an advanced response's hook, when it has one. */
  function Hooks(response: Response, hookSucceeds: bool): seq<HookRun>
  {
    if response.Advanced? && response.postMessageHandle.Some? then [HookRun(response.postMessageHandle.value, hookSucceeds)]
    else []
  }

  /** The error a failing outbound send throws. */
  const SendFailure := SystemError(TransportFailure)

  /** `handleMessage` from the map `m`, as one value. */
  function Dispatch(handlers: seq<Handler>, ctx: TextMessageContext, env: Env, sendSucceeds: bool, hookSucceeds: bool, m: map<int, ActiveChatInfo>): Effects
  {
    var k := FirstMatch(handlers, ctx, m);
    if k < 0 then Effects(None, [], [], m)
    else
      var h := handlers[k];
      var handled := HandleState(h, ctx, m);
      match HandleOutcome(h, ctx, env)
      case Threw(e) => Effects(Some(h), [ErrorReply(ctx, e)], [], AfterError(ctx, e, handled))
      case Returned(response) =>
        if !sendSucceeds then Effects(Some(h), [ErrorReply(ctx, SendFailure)], [], AfterError(ctx, SendFailure, handled))
        else
          var (body, options) := Delivery(response);
          Effects(Some(h), [ServiceSend(ctx.message.chatId, body, options)], Hooks(response, hookSucceeds), handled)
  }

  class MessageHandlerService {
    const handlers: seq<Handler>
    /** The module-level map shared with the handlers. */
    const chatStatus: ChatStatusMap
    /** Every message sent so far, in order. */
    var outbox: seq<Outbound>
    /** Every handler whose `handle` was called, in order. */
    var invoked: seq<Handler>
    /** Every post-send hook run, in order. */
    var hookRuns: seq<HookRun>

    constructor (handlers: seq<Handler>, chatStatus: ChatStatusMap)
      ensures this.handlers == handlers && this.chatStatus == chatStatus
      ensures outbox == [] && invoked == [] && hookRuns == []
    {
      this.handlers := handlers;
      this.chatStatus := chatStatus;
      outbox := [];
      invoked := [];
      hookRuns := [];
    }

    /** `handleMessage`: one dispatch, with the effects `Dispatch` describes. */
    method HandleMessage(ctx: TextMessageContext, env: Env, sendSucceeds: bool, hookSucceeds: bool)
      modifies this, chatStatus
      ensures var d := Dispatch(handlers, ctx, env, sendSucceeds, hookSucceeds, old(chatStatus.entries));
        && outbox == old(outbox) + d.sent
        && hookRuns == old(hookRuns) + d.hooks
        && invoked == old(invoked) + (if d.selected.Some? then [d.selected.value] else [])
        && chatStatus.entries == d.state
    {
      var k := FirstMatch(handlers, ctx, chatStatus.entries);
      if k < 0 {
        return;
      }
      var handler := handlers[k];
      invoked := invoked + [handler];
      var outcome := Handle(handler, ctx, env, chatStatus);
      match outcome
      case Threw(e) =>
        HandleError(ctx, e);
      case Returned(response) =>
        var chatId := ctx.message.chatId;
        var isAdvancedResponse := response.Advanced?;
        var message := if isAdvancedResponse then response.message else Text(response.text);
        var options := if isAdvancedResponse then response.options.GetOr(NoOptions) else NoOptions;
        if !sendSucceeds {
          HandleError(ctx, SendFailure);
          return;
        }
        outbox := outbox + [ServiceSend(chatId, message, options)];
        if isAdvancedResponse {
          RunPostMessageHandler(response, hookSucceeds);
        }
    }

    /** `runPostMessageHandler`: runs the hook if there is one; a throwing hook is only logged. */
    method RunPostMessageHandler(response: Response, hookSucceeds: bool)
      requires response.Advanced?
      modifies this
      ensures hookRuns == old(hookRuns) + Hooks(response, hookSucceeds)
      ensures outbox == old(outbox) && invoked == old(invoked)
    {
      if response.postMessageHandle.Some? {
        hookRuns := hookRuns + [HookRun(response.postMessageHandle.value, hookSucceeds)];
      }
    }

    /** `handleError`: one message to the chat; any error but a user error also drops the chat's entry. */
    method HandleError(ctx: TextMessageContext, e: Error)
      modifies this, chatStatus
      ensures outbox == old(outbox) + [ErrorReply(ctx, e)]
      ensures chatStatus.entries == AfterError(ctx, e, old(chatStatus.entries))
      ensures hookRuns == old(hookRuns) && invoked == old(invoked)
    {
      outbox := outbox + [ErrorReply(ctx, e)];
      if !e.UserError? {
        chatStatus.Delete(ctx.message.chatId);
      }
    }
  }

  /**
   * The handler whose `handle` runs is the first in list order that
   * accepts the message; there is one exactly when some handler accepts.
   */
  lemma SelectsFirstMatch(handlers: seq<Handler>, ctx: TextMessageContext, env: Env, sendSucceeds: bool, hookSucceeds: bool, m: map<int, ActiveChatInfo>)
    ensures var d := Dispatch(handlers, ctx, env, sendSucceeds, hookSucceeds, m);
      d.selected.Some? <==> exists i | 0 <= i < |handlers| :: ShouldHandle(handlers[i], ctx, m)
    ensures var d := Dispatch(handlers, ctx, env, sendSucceeds, hookSucceeds, m);
      d.selected.Some? ==> exists k | 0 <= k < |handlers| ::
        && handlers[k] == d.selected.value && ShouldHandle(handlers[k], ctx, m)
        && forall j | 0 <= j < k :: !ShouldHandle(handlers[j], ctx, m)
  {
    var k := FirstMatch(handlers, ctx, m);
    if k >= 0 {
      assert handlers[k] == Dispatch(handlers, ctx, env, sendSucceeds, hookSucceeds, m).selected.value;
    }
  }

  /** No accepting handler: nothing is sent, no hook runs, the map is unchanged. */
  lemma NoMatchNoEffect(handlers: seq<Handler>, ctx: TextMessageContext, env: Env, sendSucceeds: bool, hookSucceeds: bool, m: map<int, ActiveChatInfo>)
    requires forall i | 0 <= i < |handlers| :: !ShouldHandle(handlers[i], ctx, m)
    ensures Dispatch(handlers, ctx, env, sendSucceeds, hookSucceeds, m) == Effects(None, [], [], m)
  {
  }

  /**
   * A sent answer goes to the message's chat: a plain string as-is with
   * `{}`, an advanced response's message with its options or `{}`.
   */
  lemma AnswerDelivery(handlers: seq<Handler>, ctx: TextMessageContext, env: Env, hookSucceeds: bool, m: map<int, ActiveChatInfo>)
    requires var k := FirstMatch(handlers, ctx, m);
      k >= 0 && HandleOutcome(handlers[k], ctx, env).Returned?
    ensures var response := HandleOutcome(handlers[FirstMatch(handlers, ctx, m)], ctx, env).response;
      var d := Dispatch(handlers, ctx, env, true, hookSucceeds, m);
      && (response.Plain? ==> d.sent == [ServiceSend(ctx.message.chatId, Text(response.text), NoOptions)])
      && (response.Advanced? && response.options.Some? ==> d.sent == [ServiceSend(ctx.message.chatId, response.message, response.options.value)])
      && (response.Advanced? && response.options.None? ==> d.sent == [ServiceSend(ctx.message.chatId, response.message, NoOptions)])
  {
  }

  /**
   * A hook runs only for an advanced response with a hook, only after its
   * send succeeded, and it is that response's hook.
   */
  lemma HookOnlyAfterSend(handlers: seq<Handler>, ctx: TextMessageContext, env: Env, sendSucceeds: bool, hookSucceeds: bool, m: map<int, ActiveChatInfo>)
    ensures var d := Dispatch(handlers, ctx, env, sendSucceeds, hookSucceeds, m);
      d.hooks != [] ==>
        var k := FirstMatch(handlers, ctx, m);
        && k >= 0 && sendSucceeds
        && HandleOutcome(handlers[k], ctx, env).Returned?
        && var response := HandleOutcome(handlers[k], ctx, env).response;
        && response.Advanced? && response.postMessageHandle.Some?
        && d.hooks == [HookRun(response.postMessageHandle.value, hookSucceeds)]
        && d.sent == [ServiceSend(ctx.message.chatId, response.message, response.options.GetOr(NoOptions))]
  {
  }

  /** A throwing hook is swallowed: the same messages go out and the map ends the same. */
  lemma HookFailureSwallowed(handlers: seq<Handler>, ctx: TextMessageContext, env: Env, sendSucceeds: bool, m: map<int, ActiveChatInfo>)
    ensures var ok, failed := Dispatch(handlers, ctx, env, sendSucceeds, true, m), Dispatch(handlers, ctx, env, sendSucceeds, false, m);
      ok.sent == failed.sent && ok.state == failed.state && ok.selected == failed.selected
  {
  }

  /** A user error from `handle` sends exactly its text to the chat and leaves the map as `handle` left it. */
  lemma UserErrorReply(handlers: seq<Handler>, ctx: TextMessageContext, env: Env, sendSucceeds: bool, hookSucceeds: bool, m: map<int, ActiveChatInfo>, text: string)
    requires var k := FirstMatch(handlers, ctx, m);
      k >= 0 && HandleOutcome(handlers[k], ctx, env) == Threw(UserError(text))
    ensures var d := Dispatch(handlers, ctx, env, sendSucceeds, hookSucceeds, m);
      && d.sent == [DirectSend(ctx.message.chatId, text)]
      && d.hooks == []
      && d.state == HandleState(handlers[FirstMatch(handlers, ctx, m)], ctx, m)
  {
  }

  /**
   * Any other error, from `handle` or from the send, sends the apology and
   * removes the sender's chat entry, keeping every other entry.
   */
  lemma SystemErrorReply(handlers: seq<Handler>, ctx: TextMessageContext, env: Env, sendSucceeds: bool, hookSucceeds: bool, m: map<int, ActiveChatInfo>)
    requires var k := FirstMatch(handlers, ctx, m);
      && k >= 0
      && var o := HandleOutcome(handlers[k], ctx, env);
      (o.Threw? && o.error.SystemError?) || (o.Returned? && !sendSucceeds)
    ensures var d := Dispatch(handlers, ctx, env, sendSucceeds, hookSucceeds, m);
      && d.sent == [DirectSend(ctx.message.chatId, Apology)]
      && d.hooks == []
      && ctx.message.chatId !in d.state
      && forall id | id in m && id != ctx.message.chatId :: id in d.state && d.state[id] == m[id]
  {
  }

  /** Across a dispatch the map's keys never grow and surviving entries keep their values. */
  lemma KeysNeverGrow(handlers: seq<Handler>, ctx: TextMessageContext, env: Env, sendSucceeds: bool, hookSucceeds: bool, m: map<int, ActiveChatInfo>)
    ensures var d := Dispatch(handlers, ctx, env, sendSucceeds, hookSucceeds, m);
      d.state.Keys <= m.Keys && forall id | id in d.state :: d.state[id] == m[id]
  {
  }

  /** At most one message goes out per dispatch, always to the message's own chat. */
  lemma AtMostOneMessage(handlers: seq<Handler>, ctx: TextMessageContext, env: Env, sendSucceeds: bool, hookSucceeds: bool, m: map<int, ActiveChatInfo>)
    ensures var d := Dispatch(handlers, ctx, env, sendSucceeds, hookSucceeds, m);
      && |d.sent| <= 1
      && (|d.sent| == 1 <==> d.selected.Some?)
      && forall i | 0 <= i < |d.sent| :: d.sent[i].chatId == ctx.message.chatId
  {
  }
}
