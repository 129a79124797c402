/** `repliedMessageSenderIsBot` of src/ctxHelpers.ts. */
module CtxHelpers {
  import opened Wrappers
  import opened MessageHandlerInterface

  /**
   * True when the message replies to an object that has a `message`
   * property and whose `from.id` is the bot's id.
   */
  predicate RepliedMessageSenderIsBot(ctx: TextMessageContext): (r: bool)
    ensures r ==> ctx.message.replyTo.Some? && ctx.message.replyTo.value.fromId == Some(ctx.botId)
    ensures ctx.message.replyTo.None? ==> !r
    ensures ctx.message.replyTo.Some? && !ctx.message.replyTo.value.hasMessageKey ==> !r
    ensures ctx.message.replyTo.Some? && ctx.message.replyTo.value.hasMessageKey ==>
      (r <==> ctx.message.replyTo.value.fromId == Some(ctx.botId))
  {
    match ctx.message.replyTo
    case None => false
    case Some(reply) => reply.hasMessageKey && reply.fromId == Some(ctx.botId)
  }
}
