/** `CancelHandler`: the keyword that abandons the chat's flow. */
module CancelHandler {
  import opened JsString
  import opened MessageHandlerInterface
  import opened ChatState

  const Keyword := "cancelar"
  const Confirmation := "Cancelado exitosamente"

  /**
   * The text, lower-cased, is the keyword: any casing matches, anything
   * around it (white space included) does not.
   */
  predicate ShouldHandle(ctx: TextMessageContext, chatInfo: map<int, ActiveChatInfo>): (r: bool)
    ensures r ==> |ctx.message.text| == |Keyword|
    ensures r <==> (
      && |ctx.message.text| == |Keyword|
      && forall i | 0 <= i < |Keyword| :: LowerChar(ctx.message.text[i]) == Keyword[i])
  {
    ToLower(ctx.message.text) == Keyword
  }

  /** Removes the sending chat's entry and confirms with a plain string. */
  method Handle(ctx: TextMessageContext, chatInfo: ChatStatusMap) returns (r: Response)
    modifies chatInfo
    ensures chatInfo.entries == old(chatInfo.entries) - {ctx.message.chatId}
    ensures ctx.message.chatId !in chatInfo.entries
    ensures forall id | id in old(chatInfo.entries) && id != ctx.message.chatId ::
      id in chatInfo.entries && chatInfo.entries[id] == old(chatInfo.entries)[id]
    ensures ctx.message.chatId !in old(chatInfo.entries) ==> chatInfo.entries == old(chatInfo.entries)
    ensures r == Plain(Confirmation)
  {
    chatInfo.Delete(ctx.message.chatId);
    r := Plain(Confirmation);
  }

  /** Upper and mixed case match; a leading space or a trailing newline does not. */
  lemma KeywordCasings(chatInfo: map<int, ActiveChatInfo>, m: TextMessage, botId: int)
    ensures ShouldHandle(TextMessageContext(m.(text := "CANCELAR"), botId), chatInfo)
    ensures ShouldHandle(TextMessageContext(m.(text := "Cancelar"), botId), chatInfo)
    ensures !ShouldHandle(TextMessageContext(m.(text := " cancelar"), botId), chatInfo)
    ensures !ShouldHandle(TextMessageContext(m.(text := "cancelar\n"), botId), chatInfo)
  {
  }
}
