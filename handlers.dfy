/**
 * The closed set of `MessageHandler` implementations, seen the way a
 * dispatcher sees them: `shouldHandle`, what `handle` resolves to or
 * throws, and what it does to the chat-state map. Also the error policy
 * both dispatchers share.
 */
module Handlers {
  import opened Wrappers
  import opened JsString
  import opened MessageHandlerInterface
  import opened ChatState
  import CancelHandler
  import GastoHandler
  import AutomatedExpenseHandler
  import DefaultHandler

  datatype Handler = Cancel | Gasto | AutomatedExpense | Default

  /** What `handle` needs of the message: the expense grammar reads five to seven lines. */
  predicate HandlePre(h: Handler, ctx: TextMessageContext)
  {
    h.Gasto? ==> |SplitLines(ctx.message.text)| >= 5
  }

  /** `handler.shouldHandle(ctx, chatInfo)`; a handler is only asked to handle what it accepted. */
  predicate ShouldHandle(h: Handler, ctx: TextMessageContext, chatInfo: map<int, ActiveChatInfo>): (r: bool)
    ensures r ==> HandlePre(h, ctx)
  {
    match h
    case Cancel => CancelHandler.ShouldHandle(ctx, chatInfo)
    case Gasto => GastoHandler.ShouldHandle(ctx, chatInfo)
    case AutomatedExpense => AutomatedExpenseHandler.ShouldHandle(ctx, chatInfo)
    case Default => DefaultHandler.ShouldHandle(ctx, chatInfo)
  }

  /** What `handle` resolves to or throws. */
  function HandleOutcome(h: Handler, ctx: TextMessageContext, env: Env): Outcome
    requires HandlePre(h, ctx)
  {
    match h
    case Cancel => Returned(Plain(CancelHandler.Confirmation))
    case Gasto => GastoHandler.Handle(ctx, env)
    case AutomatedExpense => AutomatedExpenseHandler.Handle(ctx, env)
    case Default => Returned(DefaultHandler.Handle(ctx))
  }

  /** The chat-state map after `handle`: only the cancel handler writes it, deleting the sender's chat. */
  function HandleState(h: Handler, ctx: TextMessageContext, m: map<int, ActiveChatInfo>): (m': map<int, ActiveChatInfo>)
    ensures m'.Keys <= m.Keys
    ensures forall id | id in m' :: m'[id] == m[id]
    ensures h.Cancel? ==> ctx.message.chatId !in m'
    ensures forall id | id in m && id != ctx.message.chatId :: id in m'
    ensures !h.Cancel? ==> m' == m
  {
    if h.Cancel? then m - {ctx.message.chatId} else m
  }

  /** `handler.handle(ctx, chatStatus)` on the shared map. */
  method Handle(h: Handler, ctx: TextMessageContext, env: Env, chatInfo: ChatStatusMap) returns (o: Outcome)
    requires HandlePre(h, ctx)
    modifies chatInfo
    ensures o == HandleOutcome(h, ctx, env)
    ensures chatInfo.entries == HandleState(h, ctx, old(chatInfo.entries))
  {
    match h
    case Cancel =>
      var response := CancelHandler.Handle(ctx, chatInfo);
      o := Returned(response);
    case Gasto =>
      o := GastoHandler.Handle(ctx, env);
    case AutomatedExpense =>
      o := AutomatedExpenseHandler.Handle(ctx, env);
    case Default =>
      o := Returned(DefaultHandler.Handle(ctx));
  }

  /**
   * `handlers.find(h => h.shouldHandle(ctx, chatStatus))`, as an index:
   * the first handler in list order that accepts, or -1.
   */
  function FirstMatch(handlers: seq<Handler>, ctx: TextMessageContext, m: map<int, ActiveChatInfo>): (k: int)
    ensures -1 <= k < |handlers|
    ensures k >= 0 ==> ShouldHandle(handlers[k], ctx, m)
    ensures k >= 0 ==> forall j | 0 <= j < k :: !ShouldHandle(handlers[j], ctx, m)
    ensures k == -1 <==> forall j | 0 <= j < |handlers| :: !ShouldHandle(handlers[j], ctx, m)
  {
    if handlers == [] then -1
    else if ShouldHandle(handlers[0], ctx, m) then 0
    else
      var k := FirstMatch(handlers[1..], ctx, m);
      assert forall j | 1 <= j < |handlers| :: handlers[j] == handlers[1..][j - 1];
      if k == -1 then -1 else k + 1
  }

  /** A list that contains the catch-all always selects some handler, never one after it. */
  lemma DefaultCatchesAll(handlers: seq<Handler>, ctx: TextMessageContext, m: map<int, ActiveChatInfo>, d: nat)
    requires d < |handlers| && handlers[d] == Default
    ensures 0 <= FirstMatch(handlers, ctx, m) <= d
  {
    assert ShouldHandle(handlers[d], ctx, m);
  }

  /** The catch-all greets, cannot throw and leaves the map alone. */
  lemma DefaultGreets(ctx: TextMessageContext, env: Env, m: map<int, ActiveChatInfo>)
    ensures ShouldHandle(Default, ctx, m)
    ensures HandleOutcome(Default, ctx, env) == Returned(Plain("Hola!"))
    ensures HandleState(Default, ctx, m) == m
  {
  }

  /** Cancelling twice is cancelling once: same reply, same map. */
  lemma CancelIdempotent(ctx: TextMessageContext, env: Env, m: map<int, ActiveChatInfo>)
    ensures HandleState(Cancel, ctx, HandleState(Cancel, ctx, m)) == HandleState(Cancel, ctx, m)
    ensures HandleOutcome(Cancel, ctx, env) == Returned(Plain("Cancelado exitosamente"))
  {
  }

  /** A message sent to the chat: through the service (body and options), or straight through the context. */
  datatype Outbound =
    | ServiceSend(chatId: int, body: Body, options: ResponseOptions)
    | DirectSend(chatId: int, text: string)

  const Apology := "Ocurrio un error. Por favor vuelve a intentar"

  /** `handleError`'s one message: a user error's own text, or the apology. */
  function ErrorReply(ctx: TextMessageContext, e: Error): (out: Outbound)
    ensures out.DirectSend? && out.chatId == ctx.message.chatId
    ensures e.UserError? ==> out.text == e.message
    ensures e.SystemError? ==> out.text == Apology
  {
    DirectSend(ctx.message.chatId, if e.UserError? then e.message else Apology)
  }

  /** `handleError`'s effect on the map: a user error keeps it, any other error drops that chat. */
  function AfterError(ctx: TextMessageContext, e: Error, m: map<int, ActiveChatInfo>): (m': map<int, ActiveChatInfo>)
    ensures e.UserError? ==> m' == m
    ensures e.SystemError? ==> ctx.message.chatId !in m'
    ensures forall id | id in m && id != ctx.message.chatId :: id in m' && m'[id] == m[id]
    ensures m'.Keys <= m.Keys
  {
    if e.UserError? then m else m - {ctx.message.chatId}
  }
}
