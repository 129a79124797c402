/** The per-chat state map shared by the dispatcher and the handlers. */
module ChatState {

  datatype ChatStatus = Spending

  /** `ActiveChatInfo`: a chat in the middle of a multi-message flow. */
  datatype ActiveChatInfo = ActiveChatInfo(status: ChatStatus, createdAt: int, lastMessageAt: int)

  /** The module-level `Map<ChatId, ActiveChatInfo>`; a chat absent from it is idle. */
  class ChatStatusMap {
    var entries: map<int, ActiveChatInfo>

    constructor ()
      ensures entries == map[]
    {
      entries := map[];
    }

    /** `Map.delete`: removes the chat's entry, if any; every other entry stays. */
    method Delete(chatId: int)
      modifies this
      ensures entries == old(entries) - {chatId}
      ensures chatId !in entries
      ensures forall id | id in old(entries) && id != chatId :: id in entries && entries[id] == old(entries)[id]
    {
      entries := entries - {chatId};
    }
  }
}
