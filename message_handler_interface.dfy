/**
 * The shapes the handlers and dispatchers exchange: the text-message
 * context, the two kinds of handler response with their options and
 * post-send hook, the error classes, and the external collaborators a
 * handler calls (user and notification lookups, `parseDate`, the
 * expense RPC).
 */
module MessageHandlerInterface {
  import opened Wrappers
  import opened JsNumber
  import opened Dates

  /**
   * The message a text message replies to. `hasMessageKey` records
   * whether that object carries a property named `message`; message
   * objects delivered by Telegram do not.
   */
  datatype RepliedMessage = RepliedMessage(
    messageId: int,
    fromId: Option<int>,
    text: Option<string>,
    hasMessageKey: bool)

  /** An inbound text message. */
  datatype TextMessage = TextMessage(
    messageId: int,
    chatId: int,
    fromId: Option<int>,
    text: string,
    replyTo: Option<RepliedMessage>)

  /** `TextMessageContext`: the message and the bot's own user id. */
  datatype TextMessageContext = TextMessageContext(message: TextMessage, botId: int)

  /** Why a non-user error was thrown. */
  datatype Fault =
    | TypeError            // a property read or method call on `undefined`
    | UserNotFound         // no user for the sender's Telegram id
    | NotificationNotFound // no notification for (user, replied message id)
    | RpcRejected          // the expense RPC rejected the request
    | TransportFailure     // the outbound send failed

  /** A thrown error: a `UserError` carries text meant for the user. */
  datatype Error = UserError(message: string) | SystemError(fault: Fault)

  /** `NewExpenseRequest`: what a handler submits to the expense RPC. */
  datatype Expense = Expense(
    name: string,
    paymentMethod: string,
    amount: Number,
    currency: string,
    category: string,
    subcategory: Option<string>,
    date: string)

  /** A notification row, the anchor of an automated-expense reply. */
  datatype Notification = Notification(
    userId: string,
    telegramMessageId: int,
    app: string,
    vendor: string,
    paymentMethod: string,
    amount: Number,
    timestamp: DateValue)

  /**
   * The collaborators: `getUserFromTelegramUserId` and `getNotification`
   * as partial maps, `parseDate`, and whether the expense RPC accepts a
   * request.
   */
  datatype Env = Env(
    users: map<int, string>,
    notifications: map<(string, int), Notification>,
    parseDate: string -> DateValue,
    addExpense: Expense -> bool)

  /** `ResponseOptions`; `{}` is NoOptions. */
  datatype ResponseOptions = ResponseOptions(isMarkdown: Option<bool>, replyToMessage: Option<int>)

  const NoOptions := ResponseOptions(None, None)

  /** A message body: plain text, or the field-by-field summary of an expense under a title. */
  datatype Body = Text(text: string) | ExpenseSummary(title: string, expense: Expense)

  /** The post-send hooks a handler can attach: only `deleteNotification` occurs. */
  datatype PostHook = DeleteNotification(userId: string, telegramMessageId: int)

  /** A handler's response: a plain string, or an `AdvancedResponse`. */
  datatype Response =
    | Plain(text: string)
    | Advanced(message: Body, options: Option<ResponseOptions>, postMessageHandle: Option<PostHook>)

  /** What `handle` does: resolve to a response, or throw. */
  datatype Outcome = Returned(response: Response) | Threw(error: Error)
}
