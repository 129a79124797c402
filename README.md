# Expense bot message dispatch, modelled in Dafny

This project models the message-handling core of a Telegram bot that records personal
expenses. A text message is offered to a list of handlers in order. The first handler
whose `shouldHandle` accepts it runs `handle`. Its answer is sent back to the chat; a
thrown error is turned into a reply, and a non-user error also clears the chat's entry
in the shared chat-state map.

The handlers are:

- **Cancel**: the keyword `cancelar` in any casing drops the chat's state.
- **Gasto**: a five-to-seven-line message is parsed as an expense (name, payment
  method, optional currency, amount, category, optional subcategory, date) and
  submitted to the expense RPC.
- **AutomatedExpense**: a reply to a bot notification about a detected payment gives
  a category, an optional subcategory and `Key: value` overrides. The notification's
  fields fill in the rest, and the notification is deleted after the answer is sent.
- **Default**: greets with `Hola!`.

Two dispatchers exist:

- `MessageHandlerService` sends answers, runs post-send hooks and handles errors.
- The older loop inside `TelegramService` discards answers and only replies on errors.
  This is the one the bot's `message` callback actually calls.

## How it is modelled

- **Values and functions.** The line grammars, `shouldHandle`, `repliedMessageSenderIsBot`,
  `escapeMessage`, and the JavaScript built-ins they rely on are datatypes and functions.
  The built-ins are `split`, `join`, `trim`, `toLowerCase`, `toUpperCase`, `startsWith`,
  `Number()` string coercion and `Date` validity.
- **Imperative Dafny.** Whatever the source does by mutation is imperative:
  - the chat-state map is a class (`ChatState.ChatStatusMap`) whose `Delete` the cancel
    handler and both error paths call;
  - `countCharacter` and `getOverrideFields` are loops proved against specification
    functions;
  - both dispatchers are classes whose methods are proved equal to a specification
    function of one dispatch (`MessageHandlerService.Dispatch`,
    `TelegramService.LegacyDispatch`).
- **External services as values.** They become fields of `MessageHandlerInterface.Env`:
  - user and notification lookups are partial maps;
  - `parseDate` is a function parameter;
  - the expense RPC is a predicate saying whether it accepts a request.
- **Transport outcomes as parameters.** Whether an outbound send succeeds and whether a
  post-send hook throws are method parameters.
- **Numbers.** `Number()` yields exact decimals (`JsNumber.Number`).

Behaviour of the source, as written, that the model keeps:

- An empty line counts as numeric in the expense grammar, because `Number("")` is 0.
- The automated handler's date error prints the date value, which is `undefined` or
  `Invalid Date`, never the user's text.
- A notification row carries no timestamp. Without a non-empty `Fecha` override, an
  automated reply therefore fails with the `undefined` date error.
- `TelegramService` builds the automated handler with one argument where it takes two.
  Its postgres field is then undefined, so every automated reply through that wiring
  ends in the generic apology.
- `TelegramService.handleMessage` and `handleError` use the module-level `chatStatus`.
  The instance field of the same name is never written.
- `repliedMessageSenderIsBot` looks for a `message` property on the replied message.
  The model keeps that property as a flag (`RepliedMessage.hasMessageKey`).

## Model

| member | source | states |
|---|---|---|
| Utils.CountCharacter | src/utils.ts:3-13 | the loop's count is the number of occurrences of the character, and at most the length |
| Utils.OccurrencesArePositions | src/utils.ts:3-13 | the occurrence count equals the number of positions holding the character |
| Utils.OccurrencesBound | src/utils.ts:4-12 | the count is at most the length, and 0 for the empty string |
| Utils.OccurrencesConcat | src/utils.ts:6-10 | counting over a concatenation adds the counts of both halves |
| Utils.OccurrencesZeroIff | src/utils.ts:3-13 | the count is 0 exactly when the character does not occur |
| Utils.EscapeLength | src/utils.ts:31-33 | escaping adds exactly one character per dash |
| Utils.EscapeKeepsDashes | src/utils.ts:31-33 | escaping keeps the number of dashes |
| Utils.EscapeFixedPoint | src/utils.ts:31-33 | a string without dashes is left unchanged |
| Utils.EscapedDashesArePreceded | src/utils.ts:31-33 | every dash of the escaped text follows a backslash |
| Utils.UnescapeEscape | src/utils.ts:31-33 | dropping the inserted backslashes gives back the original, so nothing else changed |
| JsString.SplitCount | src/telegram/handlers/gastoHandler.ts:64-68 | splitting on a character gives one more piece than there are occurrences, which ties the newline count to the line count |
| JsString.SplitPiecesFree | src/telegram/handlers/automatedExpenseHandler.ts:193 | no piece of a split contains the separator |
| JsString.JoinSplit | src/telegram/handlers/automatedExpenseHandler.ts:193 | joining the pieces of a split with the separator gives back the string |
| JsString.SplitJoin | src/telegram/handlers/automatedExpenseHandler.ts:193 | splitting a join of separator-free pieces gives back the pieces |
| JsString.SplitFirstPiece | src/telegram/handlers/automatedExpenseHandler.ts:193 | the first piece is the text up to the first separator, or the whole text when there is none |
| JsString.SplitAfterFirst | src/telegram/handlers/automatedExpenseHandler.ts:193 | a separator-free text, a separator and a rest split into that text followed by the pieces of the rest |
| JsString.Trim | src/telegram/handlers/automatedExpenseHandler.ts:195 | the trimmed text neither starts nor ends with white space |
| JsString.TrimSlice | src/telegram/handlers/automatedExpenseHandler.ts:195 | the trimmed text is a contiguous slice of the input, and only white space lies outside it |
| JsString.TrimIdempotent | src/telegram/handlers/automatedExpenseHandler.ts:195 | trimming twice is trimming once |
| JsString.NatToDecimalValue | src/utils.ts:20-29 | the decimal numeral of a number reads back as that number |
| JsNumber.BlankIsZero | src/telegram/handlers/gastoHandler.ts:87 | an empty or blank line coerces to 0, so it counts as an amount |
| JsNumber.TrimmedCoercion | src/telegram/handlers/gastoHandler.ts:87 | coercion ignores surrounding white space |
| JsNumber.DecimalNumeral | src/telegram/handlers/gastoHandler.ts:87-95 | a digit string coerces to the integer it denotes |
| JsNumber.NumeralRoundTrip | src/telegram/handlers/gastoHandler.ts:95 | coercing the decimal numeral of n gives n |
| JsNumber.WordIsNaN | src/telegram/handlers/gastoHandler.ts:87 | a word such as a shop or payment-method name is NaN, so it is not taken as the amount |
| Dates.Pad2 | src/utils.ts:20-29 | the two-digit rendering is digits denoting the number |
| Dates.FormatDateRoundTrip | src/utils.ts:20-29 | the DD-MM-YYYY text reads back as the same calendar day |
| Dates.FormatDateShape | src/utils.ts:20-29 | the formatted date has dashes at positions 2 and 5 |
| CtxHelpers.RepliedMessageSenderIsBot | src/ctxHelpers.ts:3-12 | false without a reply or without the `message` key; otherwise true exactly when the replied sender is the bot, and false when the sender is missing |
| ChatState.ChatStatusMap.Delete | src/telegram/messageHandlerService.ts:90 | the chat's entry is gone and every other entry is unchanged |
| CancelHandler.ShouldHandle | src/telegram/handlers/cancelHandler.ts:8-13 | accepts exactly the texts that lower-case, character by character, to `cancelar` |
| CancelHandler.Handle | src/telegram/handlers/cancelHandler.ts:15-22 | removes only the sender's chat entry (nothing changes when it is absent) and returns the plain confirmation |
| CancelHandler.KeywordCasings | src/telegram/handlers/cancelHandler.ts:12 | upper and mixed case match; a leading space or a trailing newline does not |
| DefaultHandler.ShouldHandle | src/telegram/handlers/defaultHandler.ts:8-13 | accepts every message in every state |
| GastoHandler.ShouldHandle | src/telegram/handlers/gastoHandler.ts:57-69 | accepts exactly the non-replies of five to seven lines |
| GastoHandler.FindAmountIndex | src/telegram/handlers/gastoHandler.ts:87 | the index is the first numeric line, or -1 when no line is numeric |
| GastoHandler.ParseLines | src/telegram/handlers/gastoHandler.ts:80-121 | parses exactly when the first numeric line is line 2 or 3 and the last line is a valid date; whenever the first numeric line is anywhere else (or there is none) the result is the amount error, so a numeric name or payment method is one; with the amount in place the date error echoes the token; the fields, currency, category and subcategory come from the lines the grammar names |
| GastoHandler.Handle | src/telegram/handlers/gastoHandler.ts:71-141 | returns exactly when the lines parse and the RPC accepts the expense, and the answer is its markdown summary replying to the message with no hook; a parse failure throws the parser's own user error before any RPC call; a rejected RPC is a non-user error |
| GastoHandlerExamples.AmountAt | src/telegram/handlers/gastoHandler.ts:87 | the amount index is the first numeric line |
| GastoHandlerExamples.ParsedAt | src/telegram/handlers/gastoHandler.ts:84-121 | with the amount on line 2 or 3 and a valid date, every field of the request is the one the grammar names |
| GastoHandlerExamples.DocumentedWithCurrency | src/telegram/handlers/gastoHandler.ts:17-23 | the six-line example with a currency parses to Paddle, Efectivo, ARS, 6250, Deporte, no subcategory |
| GastoHandlerExamples.DocumentedWithoutCurrency | src/telegram/handlers/gastoHandler.ts:25-29 | the five-line example parses with the default currency and no subcategory |
| GastoHandlerExamples.DocumentedWithCurrencyAndSubcategory | src/telegram/handlers/gastoHandler.ts:33-39 | the seven-line example yields the subcategory Paddle |
| GastoHandlerExamples.DocumentedWithSubcategory | src/telegram/handlers/gastoHandler.ts:41-46 | the six-line example without a currency yields the subcategory Paddle |
| GastoHandlerExamples.DocumentedTextWithCurrency | src/telegram/handlers/gastoHandler.ts:17-23 | the six-line example, typed as one text, splits into six lines and parses to Paddle, Efectivo, ARS, 6250, Deporte, no subcategory |
| GastoHandlerExamples.DocumentedTextWithoutCurrency | src/telegram/handlers/gastoHandler.ts:25-29 | the five-line example, typed as one text, parses with the default currency and no subcategory |
| GastoHandlerExamples.DocumentedTextWithCurrencyAndSubcategory | src/telegram/handlers/gastoHandler.ts:33-39 | the seven-line example, typed as one text, yields the subcategory Paddle |
| GastoHandlerExamples.DocumentedTextWithSubcategory | src/telegram/handlers/gastoHandler.ts:41-46 | the six-line example without a currency, typed as one text, yields the subcategory Paddle |
| AutomatedExpenseHandler.ShouldHandle | src/telegram/handlers/automatedExpenseHandler.ts:53-76 | false unless the message replies to a message with text; then true exactly when the replied sender is not the bot and the replied text starts with the notification preamble |
| AutomatedExpenseHandler.ParseOverrideLine | src/telegram/handlers/automatedExpenseHandler.ts:193-197 | a line without a colon has no value; otherwise the key is the text before the first colon, and the value is the trimmed text between the first colon and the next colon (or the end of the line) |
| AutomatedExpenseExamples.KeyValueLine | src/telegram/handlers/automatedExpenseHandler.ts:193-195 | a colon-free key, a colon and a colon-free value give that key and the trimmed value |
| AutomatedExpenseHandler.Overrides | src/telegram/handlers/automatedExpenseHandler.ts:185-201 | a failing scan is always a TypeError |
| AutomatedExpenseHandler.OverridesStep | src/telegram/handlers/automatedExpenseHandler.ts:193-197 | one more line with a colon sets its key to its trimmed value and keeps the rest of the record |
| AutomatedExpenseHandler.GetOverrideFields | src/telegram/handlers/automatedExpenseHandler.ts:185-201 | the loop builds exactly the record of the lines from the first override index on, or throws the TypeError of the first line without a colon |
| AutomatedExpenseHandler.OverridesLastWins | src/telegram/handlers/automatedExpenseHandler.ts:193-197 | a key is in the record exactly when some line sets it, with the value of the last such line |
| AutomatedExpenseHandler.OverridesFailIff | src/telegram/handlers/automatedExpenseHandler.ts:193-195 | the scan throws exactly when some scanned line has no colon |
| AutomatedExpenseHandler.OrElse | src/telegram/handlers/automatedExpenseHandler.ts:158-161 | a present, non-empty override wins; an absent or empty one falls back |
| AutomatedExpenseHandler.AmountOrElse | src/telegram/handlers/automatedExpenseHandler.ts:162 | the coerced `Monto` wins unless it is 0, NaN or missing, in which case the notification's amount is used |
| AutomatedExpenseHandler.GetFormattedDate | src/telegram/handlers/automatedExpenseHandler.ts:169-183 | a non-empty override is parsed, otherwise the timestamp is used; success exactly for a valid date, formatted; the error shows `undefined` or `Invalid Date` |
| AutomatedExpenseHandler.FirstOverrideIdx | src/telegram/handlers/automatedExpenseHandler.ts:145-148 | scanning starts at 3 exactly when line 1 is not the empty string (also when it is missing), and at 2 otherwise |
| AutomatedExpenseHandler.ProcessParts | src/telegram/handlers/automatedExpenseHandler.ts:140-167 | a failing scan is a TypeError; otherwise success follows the date, and a failure is the date formatter's own user error; the category is line 0, the subcategory line 1 (missing for a one-line reply), and the other fields are overrides with their fallbacks |
| AutomatedExpenseHandler.Lookup | src/telegram/handlers/automatedExpenseHandler.ts:153 | a record lookup is defined exactly for present keys |
| AutomatedExpenseHandler.FindNotification | src/telegram/handlers/automatedExpenseHandler.ts:84-108 | succeeds exactly when the message replies to something, has a sender, the sender is a known user and a row exists for (that user id, the replied message id), and then yields that row; every failure is a non-user error, and a missing user fails before the row lookup |
| AutomatedExpenseHandler.Handle | src/telegram/handlers/automatedExpenseHandler.ts:78-138 | returns exactly when the notification is found, the reply processes and the RPC accepts the request, and the answer is the markdown summary replying to the user's message, with a hook that deletes exactly that notification; a throw is the lookup's own error, or the processing's own error, or the non-user error of a rejected RPC |
| AutomatedExpenseHandler.SubcategorySkipsLine2 | src/telegram/handlers/automatedExpenseHandler.ts:145-150 | with a subcategory, changing line 2 changes nothing |
| AutomatedExpenseHandler.EmptyLine1ScansLine2 | src/telegram/handlers/automatedExpenseHandler.ts:145-148 | an empty line 1 gives the empty subcategory and scanning from line 2 |
| AutomatedExpenseHandler.NoOverridesUsesNotification | src/telegram/handlers/automatedExpenseHandler.ts:157-165 | without overrides and with a valid timestamp, the request is the notification's vendor, method, amount, ARS and date |
| AutomatedExpenseHandler.UndefinedTimestampFails | src/telegram/handlers/automatedExpenseHandler.ts:152-179 | with an undefined timestamp and no non-empty `Fecha`, the reply fails with the `undefined` date error |
| AutomatedExpenseHandler.FechaOverrideWins | src/telegram/handlers/automatedExpenseHandler.ts:173-176 | a valid `Fecha` override gives the request's date |
| AutomatedExpenseExamples.CategoryOnly | src/telegram/handlers/automatedExpenseHandler.ts:30 | a bare category has no subcategory, and the notification supplies the rest |
| AutomatedExpenseExamples.CategoryAndSubcategory | src/telegram/handlers/automatedExpenseHandler.ts:32-33 | category and subcategory are both taken |
| AutomatedExpenseExamples.OverrideLine | src/telegram/handlers/automatedExpenseHandler.ts:40 | `Modified field: somefield` sets that key to `somefield` |
| AutomatedExpenseExamples.CategorySubcategoryOverride | src/telegram/handlers/automatedExpenseHandler.ts:37-41 | the documented four-line reply scans from line 3 and records the one override |
| Handlers.ShouldHandle | src/telegram/handlers/messageHandler.interface.ts:22-25 | accepting implies `HandlePre`: the expense handler is asked to handle only texts of at least five lines |
| Handlers.HandleState | src/telegram/handlers/cancelHandler.ts:19 | only the cancel handler touches the map, deleting the sender's chat; keys never grow and other entries stay |
| Handlers.Handle | src/telegram/handlers/messageHandler.interface.ts:26-29 | running a handler on the shared map yields its outcome and leaves the map as its specification says |
| Handlers.FirstMatch | src/telegram/messageHandlerService.ts:33 | the index is the first handler that accepts, and -1 exactly when none does |
| Handlers.DefaultCatchesAll | src/telegram/handlers/defaultHandler.ts:8-13 | a list holding the catch-all always selects it or an earlier handler |
| Handlers.DefaultGreets | src/telegram/handlers/defaultHandler.ts:15-20 | the catch-all returns `Hola!`, cannot throw and leaves the map alone |
| Handlers.CancelIdempotent | src/telegram/handlers/cancelHandler.ts:19-21 | cancelling twice leaves the same map as once, with the same reply |
| Handlers.ErrorReply | src/telegram/messageHandlerService.ts:80-89 | the error reply goes to the message's chat and carries a user error's text, or the apology |
| Handlers.AfterError | src/telegram/messageHandlerService.ts:80-90 | a user error keeps the map; any other error drops only that chat |
| MessageHandlerService.MessageHandlerService.HandleMessage | src/telegram/messageHandlerService.ts:32-61 | one dispatch sends, runs hooks, invokes handlers and changes the map exactly as `Dispatch` says |
| MessageHandlerService.MessageHandlerService.RunPostMessageHandler | src/telegram/messageHandlerService.ts:63-78 | runs the response's hook, if any; a throwing hook sends nothing |
| MessageHandlerService.MessageHandlerService.HandleError | src/telegram/messageHandlerService.ts:80-97 | one reply to the chat; a non-user error also deletes that chat's entry |
| MessageHandlerService.SelectsFirstMatch | src/telegram/messageHandlerService.ts:33-44 | the handler that runs is the first that accepts, and one runs exactly when some handler accepts |
| MessageHandlerService.NoMatchNoEffect | src/telegram/messageHandlerService.ts:33-37 | without an accepting handler nothing is sent, no hook runs and the map is unchanged |
| MessageHandlerService.AnswerDelivery | src/telegram/messageHandlerService.ts:48-53 | a plain answer is sent as-is with `{}`; an advanced answer's message goes with its options, or `{}` |
| MessageHandlerService.HookOnlyAfterSend | src/telegram/messageHandlerService.ts:53-57 | a hook runs only for an advanced answer with a hook, after a successful send |
| MessageHandlerService.HookFailureSwallowed | src/telegram/messageHandlerService.ts:63-77 | a throwing hook changes neither the messages sent nor the map |
| MessageHandlerService.UserErrorReply | src/telegram/messageHandlerService.ts:58-84 | a user error sends exactly its text to the chat and leaves the map as `handle` left it |
| MessageHandlerService.SystemErrorReply | src/telegram/messageHandlerService.ts:86-90 | any other error, from `handle` or the send, sends the apology and removes only that chat's entry |
| MessageHandlerService.KeysNeverGrow | src/telegram/messageHandlerService.ts:90 | across a dispatch the map's keys never grow and surviving entries keep their values |
| MessageHandlerService.AtMostOneMessage | src/telegram/messageHandlerService.ts:53-89 | a dispatch sends at most one message, to the message's own chat, and one exactly when a handler ran |
| TelegramService.TextContext | src/telegram/telegramService.ts:50-53 | updates without a text message are dropped; text messages are passed on unchanged |
| TelegramService.WiredOutcome | src/telegram/telegramService.ts:43-48 | as wired, the automated handler always throws a TypeError; the others behave as specified |
| TelegramService.TelegramService.constructor | src/telegram/telegramService.ts:34-48 | handlers are registered as Cancel, Gasto, AutomatedExpense, Default; the instance map is a fresh, empty map distinct from the module-level one |
| TelegramService.TelegramService.OnMessage | src/telegram/telegramService.ts:50-66 | a non-text update changes nothing; a text message is dispatched as `LegacyDispatch` says; the instance map is untouched |
| TelegramService.TelegramService.HandleMessage | src/telegram/telegramService.ts:75-91 | the loop runs only the first accepting handler and changes the outbox and the module-level map exactly as `LegacyDispatch` says, never the instance map |
| TelegramService.TelegramService.HandleError | src/telegram/telegramService.ts:93-110 | one reply to the chat; a non-user error also deletes that chat's module-level entry |
| TelegramService.RegisteredAlwaysSelects | src/telegram/telegramService.ts:43-48 | with the registered handlers some handler always runs, and the greeting only when none of the first three accepts |
| TelegramService.CancelFirst | src/telegram/telegramService.ts:43-44 | the cancel keyword wins over every other handler |
| TelegramService.AnswersDiscarded | src/telegram/telegramService.ts:83 | a returned answer is dropped: nothing is sent |
| TelegramService.ErrorsBecomeOneReply | src/telegram/telegramService.ts:78-103 | a thrown error becomes exactly one reply; a user error keeps the map, and any other error drops only that chat |
| TelegramService.AutomatedRepliesAlwaysFail | src/telegram/telegramService.ts:46 | as wired, an automated reply always ends in the apology and loses the chat's entry |
| TelegramService.LegacyKeysNeverGrow | src/telegram/telegramService.ts:103 | across a dispatch the map's keys never grow and surviving entries keep their values |

## Findings

| source | as written | input that shows it | evidently intended | confidence | as-written member | corrected member |
|---|---|---|---|---|---|---|
| src/telegram/telegramService.ts:46 | the automated handler is built with one argument, and the postgres service lands in its RPC parameter | any reply to a payment notification | pass the RPC service and the postgres service | high, not executed | TelegramService.AutomatedRepliesAlwaysFail | AutomatedExpenseHandler.Handle |
| src/telegram/telegramService.ts:66,83 | the `message` callback calls the loop dispatcher, which discards every answer | `Hola` (the greeting is computed and never sent) | dispatch through `MessageHandlerService`, which sends the answer | medium, not executed | TelegramService.AnswersDiscarded | MessageHandlerService.AnswerDelivery |
| src/postgres/postgresService.ts:5-12,50 | the notification row has no timestamp, so `notification.timestamp` is undefined | a reply `Comida` to a stored notification | the row carries the payment's date | high, not executed | AutomatedExpenseHandler.UndefinedTimestampFails | AutomatedExpenseHandler.NoOverridesUsesNotification |

## Left out

- JsNumber.ToNumber: values are exact decimals, with no IEEE-754 rounding, no overflow to Infinity and no `-0` distinct from 0. Numeric separators make the text NaN, as they do for `Number()`.
- JsString.ToLower: only ASCII letters change case. Full Unicode case mapping is not modelled; the only keyword compared, `cancelar`, is ASCII.
- JsString.ToUpper: only ASCII letters change case, for the same reason.
- Dates.FormatDate: dates are calendar days. The Buenos Aires time zone and `Intl` formatting are not modelled, and a Date is seen only through its day.
- `parseDate` is not part of this model. It is a parameter of type `string -> DateValue`.
- The text of the two success summaries (template literals interpolating JavaScript values) is kept as a structured `ExpenseSummary(title, expense)`, not rendered.
- Sends through `ctx.telegram.sendMessage` on the error paths are taken to succeed. A throwing error-path send would reject `handleMessage`.
- The post-send hook's effect on the notification table is recorded as a `HookRun`. It is not applied to the `Env` maps.
- Logging, correlation ids and `randomUUID` have no behavioural content and are omitted.
- The async interleaving of several messages from the same chat is not modelled: each dispatch is one atomic step.
- `ActiveChatInfo.data` and the status values are omitted: no shown handler creates or reads entries.
- `TelegramService.sendMessage` and `launch` are transport. `escapeMarkdownMessage` is imported but not defined in `src/utils.ts`, and `MessageHandlerService` calls `sendMessage` with three arguments where it declares two. The model treats the send as succeeding or failing.
- AutomatedExpenseHandler.ParseOverrideLine: object keys are plain strings. Keys such as `__proto__` that a JavaScript object literal treats specially are not modelled.
- AutomatedExpenseHandler.GetOverrideFields: the `parts[i] === undefined` break is omitted. It cannot fire while `i < parts.length`.
- AutomatedExpenseHandler.FindNotification: the notification's amount is a `Number`. A driver that returns it as a string is not modelled.
- GastoHandler.Handle: it requires five or more lines. This is what `shouldHandle` guarantees before any call. The behaviour on shorter texts, where `undefined` would flow into the request, is not modelled.
- `src/kafka/kafkaService.ts`, `src/postgres/postgresService.ts`, `src/grpcService.ts`, `src/index.ts`, `src/config.ts` and `src/environment.d.ts` are services and bootstrap. Only their lookups and the RPC verdict appear, in `Env`.
- `src/exceptions.ts` declares `UserError` without `export`, yet `messageHandlerService.ts`, `telegramService.ts` and both expense handlers import it. The model takes every `new UserError` and `instanceof UserError` to mean that one class, as the code evidently intends. Module resolution of the missing export is not modelled.
- `src/handlers/defaultHandler.ts` is a stale duplicate of the catch-all with broken imports and is not part of this model.
