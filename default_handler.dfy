/** `DefaultHandler`: the catch-all greeting. */
module DefaultHandler {
  import opened MessageHandlerInterface
  import opened ChatState

  const Greeting := "Hola!"

  /** Accepts every message, whatever the chat state. */
  predicate ShouldHandle(ctx: TextMessageContext, chatInfo: map<int, ActiveChatInfo>): (r: bool)
    ensures r
  {
    true
  }

  /** Greets; reads no state and cannot throw. */
  function Handle(ctx: TextMessageContext): Response
  {
    Plain(Greeting)
  }
}
