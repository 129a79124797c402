/**
 * `AutomatedExpenseHandler`: a user replies to a bot notification about a
 * detected payment. Line 0 of the reply is the category; line 1, when not
 * empty, the subcategory; the lines after that (from line 3 with a
 * subcategory, from line 2 without) are `Key: value` overrides of the
 * notification's fields.
 */
module AutomatedExpenseHandler {
  import opened Wrappers
  import opened Utils
  import opened JsString
  import opened JsNumber
  import opened Dates
  import opened MessageHandlerInterface
  import opened ChatState
  import opened CtxHelpers

  const Preamble := "Detectamos el siguiente gasto en la aplicacion"
  const SuccessTitle := "Se guardo exitosamente el siguiente gasto:"
  const DefaultCurrency := "ARS"

  /**
   * A reply to a text message that the bot did not send (as far as
   * `repliedMessageSenderIsBot` can tell) and that begins with the
   * notification preamble.
   */
  predicate ShouldHandle(ctx: TextMessageContext, chatInfo: map<int, ActiveChatInfo>): (r: bool)
    ensures ctx.message.replyTo.None? ==> !r
    ensures ctx.message.replyTo.Some? && ctx.message.replyTo.value.text.None? ==> !r
    ensures r ==> !RepliedMessageSenderIsBot(ctx)
    ensures r ==> StartsWith(ctx.message.replyTo.value.text.value, Preamble)
    ensures ctx.message.replyTo.Some? && ctx.message.replyTo.value.text.Some? ==>
      (r <==> !RepliedMessageSenderIsBot(ctx) && StartsWith(ctx.message.replyTo.value.text.value, Preamble))
  {
    match ctx.message.replyTo
    case None => false
    case Some(reply) =>
      match reply.text
      case None => false
      case Some(text) => !RepliedMessageSenderIsBot(ctx) && StartsWith(text, Preamble)
  }

  /**
   * One override line, destructured as `[fieldName, fieldValueFull] =
   * line.split(":")`: the key is the text before the first colon, the
   * value the trimmed text between the first and second colon. Without a
   * colon there is no value to trim: None.
   */
  function ParseOverrideLine(line: string): (r: Option<(string, string)>)
    ensures r.None? <==> ':' !in line
    ensures r.Some? ==> ':' !in r.value.0 && |r.value.0| < |line| && line[..|r.value.0|] == r.value.0 && line[|r.value.0|] == ':'
    ensures r.Some? ==> ':' !in r.value.1
    ensures r.Some? ==>
      var rest := line[|r.value.0| + 1..];
      forall j | 0 <= j <= |rest| && ':' !in rest[..j] && (j == |rest| || rest[j] == ':') :: r.value.1 == Trim(rest[..j])
  {
    var pieces := Split(line, ':');
    SplitCount(line, ':');
    OccurrencesZeroIff(line, ':');
    SplitPiecesFree(line, ':');
    if |pieces| < 2 then None
    else
      JoinSplit(line, ':');
      assert line == pieces[0] + [':'] + Join(pieces[1..], ':');
      var rest := line[|pieces[0]| + 1..];
      assert line == pieces[0] + [':'] + rest;
      SplitAfterFirst(pieces[0], rest, ':');
      SplitFirstPiece(rest, ':');
      TrimSlice(pieces[1]);
      assert forall c | c in Trim(pieces[1]) :: c in pieces[1];
      Some((pieces[0], Trim(pieces[1])))
  }

  /**
   * The override record the lines build, in order, later keys
   * overwriting earlier ones; a line without a colon throws a TypeError.
   */
  function Overrides(lines: seq<string>): (r: Result<map<string, string>, Error>)
    ensures r.Err? ==> r.error == SystemError(TypeError)
  {
    if lines == [] then Ok(map[])
    else
      match Overrides(lines[..|lines| - 1])
      case Err(e) => Err(e)
      case Ok(fields) =>
        match ParseOverrideLine(lines[|lines| - 1])
        case None => Err(SystemError(TypeError))
        case Some(field) => Ok(fields[field.0 := field.1])
  }

  /** The lines the override scan visits: from `first` to the end. */
  function OverrideRegion(parts: seq<string>, first: nat): (region: seq<string>)
    ensures first <= |parts| ==> |region| == |parts| - first && forall i | 0 <= i < |region| :: region[i] == parts[first + i]
    ensures first > |parts| ==> region == []
  {
    if first <= |parts| then parts[first..] else []
  }

  /** `getOverrideFields`: the `for` loop that fills the override record. */
  method GetOverrideFields(firstOverrideIdx: nat, parts: seq<string>) returns (r: Result<map<string, string>, Error>)
    ensures r == Overrides(OverrideRegion(parts, firstOverrideIdx))
  {
    ghost var region := OverrideRegion(parts, firstOverrideIdx);
    var overrideFields: map<string, string> := map[];
    var i := firstOverrideIdx;
    while i < |parts|
      invariant firstOverrideIdx <= i && i - firstOverrideIdx <= |region|
      invariant firstOverrideIdx <= |parts| ==> i <= |parts|
      invariant Overrides(region[..i - firstOverrideIdx]) == Ok(overrideFields)
      decreases |parts| - i
    {
      var pieces := Split(parts[i], ':');
      assert region[i - firstOverrideIdx] == parts[i];
      if |pieces| < 2 {
        SplitCount(parts[i], ':');
        OccurrencesZeroIff(parts[i], ':');
        OverridesFailIff(region);
        return Err(SystemError(TypeError));
      }
      OverridesStep(region[..i - firstOverrideIdx], parts[i], overrideFields);
      assert region[..i + 1 - firstOverrideIdx] == region[..i - firstOverrideIdx] + [parts[i]];
      overrideFields := overrideFields[pieces[0] := Trim(pieces[1])];
      i := i + 1;
    }
    assert region[..i - firstOverrideIdx] == region;
    return Ok(overrideFields);
  }

  /** One more line with a colon adds its key and trimmed value to the record. */
  lemma OverridesStep(lines: seq<string>, line: string, fields: map<string, string>)
    requires Overrides(lines) == Ok(fields) && |Split(line, ':')| >= 2
    ensures Overrides(lines + [line]) == Ok(fields[Split(line, ':')[0] := Trim(Split(line, ':')[1])])
  {
    assert (lines + [line])[..|lines|] == lines;
    SplitCount(line, ':');
    OccurrencesZeroIff(line, ':');
  }

  /** Reference reading of the record: the value of the last line that sets `key`. */
  function LastValue(lines: seq<string>, key: string): Option<string>
  {
    if lines == [] then None
    else
      match ParseOverrideLine(lines[|lines| - 1])
      case Some(field) => if field.0 == key then Some(field.1) else LastValue(lines[..|lines| - 1], key)
      case None => LastValue(lines[..|lines| - 1], key)
  }

  /** The record holds exactly the keys some line sets, each with its last value. */
  lemma {:induction false} OverridesLastWins(lines: seq<string>, key: string)
    requires Overrides(lines).Ok?
    ensures key in Overrides(lines).value <==> LastValue(lines, key).Some?
    ensures key in Overrides(lines).value ==> Overrides(lines).value[key] == LastValue(lines, key).value
  {
    if lines != [] {
      OverridesLastWins(lines[..|lines| - 1], key);
    }
  }

  /** The scan throws exactly when some visited line has no colon. */
  lemma {:induction false} OverridesFailIff(lines: seq<string>)
    ensures Overrides(lines).Err? <==> exists i | 0 <= i < |lines| :: ':' !in lines[i]
  {
    if lines != [] {
      var init := lines[..|lines| - 1];
      OverridesFailIff(init);
      assert forall i | 0 <= i < |init| :: init[i] == lines[i];
      if ':' !in lines[|lines| - 1] {
        assert ':' !in lines[|lines| - 1];
      } else if Overrides(init).Err? {
        var i :| 0 <= i < |init| && ':' !in init[i];
        assert ':' !in lines[i];
      } else {
        forall i | 0 <= i < |lines| ensures ':' in lines[i] {
          if i < |init| {
            assert lines[i] == init[i];
          }
        }
      }
    }
  }

  /** `overrideFields[key] || fallback`: an absent or empty override falls back. */
  function OrElse(fields: map<string, string>, key: string, fallback: string): (r: string)
    ensures key in fields && fields[key] != "" ==> r == fields[key]
    ensures key !in fields || fields[key] == "" ==> r == fallback
  {
    if key in fields && fields[key] != "" then fields[key] else fallback
  }

  /** `Number(overrideFields["Monto"]) || amount`: NaN (also for a missing key) and 0 fall back. */
  function AmountOrElse(fields: map<string, string>, fallback: Number): (r: Number)
    ensures "Monto" in fields && Truthy(ToNumber(fields["Monto"])) ==> r == ToNumber(fields["Monto"])
    ensures "Monto" !in fields || !Truthy(ToNumber(fields["Monto"])) ==> r == fallback
    ensures Truthy(r) || r == fallback
  {
    var coerced := if "Monto" in fields then ToNumber(fields["Monto"]) else NaN;
    if Truthy(coerced) then coerced else fallback
  }

  /** The user-facing error for a date value, quoted as a template string prints it. */
  function DateError(shown: string): string
  {
    "La fecha '" + shown + "' no es una fecha valida"
  }

  /**
   * `getFormattedDate`: a non-empty `Fecha` override is parsed, anything
   * else uses the notification's timestamp. A value that is not a valid
   * date is a user error whose text shows the value as printed by a
   * template string (`undefined` or `Invalid Date`), not the user's text.
   */
  function GetFormattedDate(overridedDate: Option<string>, timestamp: DateValue, parseDate: string -> DateValue): (r: Result<string, Error>)
    ensures var date := if overridedDate.Some? && overridedDate.value != "" then parseDate(overridedDate.value) else timestamp;
      && (r.Ok? <==> IsValidDate(date))
      && (r.Ok? ==> r.value == FormatDate(date.date))
    ensures r.Err? ==>
      r.error == UserError(DateError("undefined")) || r.error == UserError(DateError("Invalid Date"))
  {
    var date := if overridedDate.Some? && overridedDate.value != "" then parseDate(overridedDate.value) else timestamp;
    if !IsValidDate(date) then Err(UserError(DateError(InvalidDateText(date))))
    else Ok(FormatDate(date.date))
  }

  /** `parts[1] !== ""`: true also when there is no line 1 at all. */
  predicate HasSubcategory(parts: seq<string>)
  {
    |parts| < 2 || parts[1] != ""
  }

  /** Where the override scan starts: after the subcategory line, or after the empty line 1. */
  function FirstOverrideIdx(parts: seq<string>): (k: nat)
    ensures k == 2 || k == 3
    ensures k == 3 <==> HasSubcategory(parts)
  {
    if HasSubcategory(parts) then 3 else 2
  }

  /** `processMessageText` over the lines of the reply. */
  function ProcessParts(parts: seq<string>, notification: Notification, parseDate: string -> DateValue): (r: Result<Expense, Error>)
    requires |parts| >= 1
    ensures var scan := Overrides(OverrideRegion(parts, FirstOverrideIdx(parts)));
      && (scan.Err? ==> r == Err(SystemError(TypeError)))
      && (scan.Ok? ==> (r.Ok? <==> GetFormattedDate(Lookup(scan.value, "Fecha"), notification.timestamp, parseDate).Ok?))
    ensures var scan := Overrides(OverrideRegion(parts, FirstOverrideIdx(parts)));
      scan.Ok? && r.Err? ==> r.error == GetFormattedDate(Lookup(scan.value, "Fecha"), notification.timestamp, parseDate).error
    ensures r.Ok? ==>
      var scan, e := Overrides(OverrideRegion(parts, FirstOverrideIdx(parts))), r.value;
      && scan.Ok?
      && e.category == parts[0]
      && e.subcategory == (if |parts| < 2 then None else Some(parts[1]))
      && e.name == OrElse(scan.value, "Nombre", notification.vendor)
      && e.paymentMethod == OrElse(scan.value, "Metodo de pago", notification.paymentMethod)
      && e.currency == OrElse(scan.value, "Moneda", DefaultCurrency)
      && e.amount == AmountOrElse(scan.value, notification.amount)
      && e.date == GetFormattedDate(Lookup(scan.value, "Fecha"), notification.timestamp, parseDate).value
  {
    var category := parts[0];
    var hasSubcategory := HasSubcategory(parts);
    var subcategory := if hasSubcategory then (if |parts| < 2 then None else Some(parts[1])) else Some("");
    var firstOverrideIdx := FirstOverrideIdx(parts);
    match Overrides(OverrideRegion(parts, firstOverrideIdx))
    case Err(e) => Err(e)
    case Ok(overrideFields) =>
      match GetFormattedDate(Lookup(overrideFields, "Fecha"), notification.timestamp, parseDate)
      case Err(e) => Err(e)
      case Ok(formattedDate) =>
        Ok(Expense(
          OrElse(overrideFields, "Nombre", notification.vendor),
          OrElse(overrideFields, "Metodo de pago", notification.paymentMethod),
          AmountOrElse(overrideFields, notification.amount),
          OrElse(overrideFields, "Moneda", DefaultCurrency),
          category,
          subcategory,
          formattedDate))
  }

  /** `overrideFields[key]`: the value, or undefined. */
  function Lookup(fields: map<string, string>, key: string): (r: Option<string>)
    ensures r.Some? <==> key in fields
    ensures r.Some? ==> r.value == fields[key]
  {
    if key in fields then Some(fields[key]) else None
  }

  /** `processMessageText`: the reply text split into lines. */
  function ProcessMessageText(msgText: string, notification: Notification, parseDate: string -> DateValue): Result<Expense, Error>
  {
    ProcessParts(SplitLines(msgText), notification, parseDate)
  }

  /**
   * The notification a reply is anchored to: the sender's user id, then
   * the row for (user id, replied message id). A missing sender or reply
   * is a TypeError; a missing user or row a plain error.
   */
  function FindNotification(ctx: TextMessageContext, env: Env): (r: Result<Notification, Error>)
    ensures r.Ok? ==>
      && ctx.message.replyTo.Some? && ctx.message.fromId.Some?
      && ctx.message.fromId.value in env.users
      && (env.users[ctx.message.fromId.value], ctx.message.replyTo.value.messageId) in env.notifications
      && r.value == env.notifications[(env.users[ctx.message.fromId.value], ctx.message.replyTo.value.messageId)]
    ensures r.Ok? <==>
      && ctx.message.replyTo.Some? && ctx.message.fromId.Some?
      && ctx.message.fromId.value in env.users
      && (env.users[ctx.message.fromId.value], ctx.message.replyTo.value.messageId) in env.notifications
    ensures r.Err? ==> r.error.SystemError?
    ensures ctx.message.replyTo.None? || ctx.message.fromId.None? ==> r == Err(SystemError(TypeError))
    ensures ctx.message.replyTo.Some? && ctx.message.fromId.Some? && ctx.message.fromId.value !in env.users ==> r == Err(SystemError(UserNotFound))
  {
    match ctx.message.replyTo
    case None => Err(SystemError(TypeError))
    case Some(reply) =>
      match ctx.message.fromId
      case None => Err(SystemError(TypeError))
      case Some(telegramUserId) =>
        if telegramUserId !in env.users then Err(SystemError(UserNotFound))
        else
          var userId := env.users[telegramUserId];
          if (userId, reply.messageId) !in env.notifications then Err(SystemError(NotificationNotFound))
          else Ok(env.notifications[(userId, reply.messageId)])
  }

  /** The request `addExpense` receives, or None when `handle` throws before the call. */
  function Submission(ctx: TextMessageContext, env: Env): Option<Expense>
  {
    match FindNotification(ctx, env)
    case Err(_) => None
    case Ok(notification) => ProcessMessageText(ctx.message.text, notification, env.parseDate).ToOption()
  }

  /**
   * `handle`: look up the notification, build and submit the expense, and
   * answer with a markdown summary that replies to the user's message and
   * deletes exactly that notification once sent.
   */
  function Handle(ctx: TextMessageContext, env: Env): (o: Outcome)
    ensures o.Returned? ==>
      && FindNotification(ctx, env).Ok?
      && Submission(ctx, env).Some?
      && env.addExpense(Submission(ctx, env).value)
      && var n := FindNotification(ctx, env).value;
      o.response == Advanced(
        ExpenseSummary(SuccessTitle, Submission(ctx, env).value),
        Some(ResponseOptions(Some(true), Some(ctx.message.messageId))),
        Some(DeleteNotification(n.userId, n.telegramMessageId)))
    ensures o.Returned? <==> Submission(ctx, env).Some? && env.addExpense(Submission(ctx, env).value)
    ensures o.Threw? ==>
      || (FindNotification(ctx, env).Err? && o.error == FindNotification(ctx, env).error)
      || (&& FindNotification(ctx, env).Ok?
          && ProcessMessageText(ctx.message.text, FindNotification(ctx, env).value, env.parseDate).Err?
          && o.error == ProcessMessageText(ctx.message.text, FindNotification(ctx, env).value, env.parseDate).error)
      || (Submission(ctx, env).Some? && !env.addExpense(Submission(ctx, env).value) && o.error == SystemError(RpcRejected))
  {
    match FindNotification(ctx, env)
    case Err(e) => Threw(e)
    case Ok(notification) =>
      match ProcessMessageText(ctx.message.text, notification, env.parseDate)
      case Err(e) => Threw(e)
      case Ok(newExpense) =>
        if !env.addExpense(newExpense) then Threw(SystemError(RpcRejected))
        else Returned(Advanced(
          ExpenseSummary(SuccessTitle, newExpense),
          Some(ResponseOptions(Some(true), Some(ctx.message.messageId))),
          Some(DeleteNotification(notification.userId, notification.telegramMessageId))))
  }

  /**
   * With a subcategory the scan starts at line 3, so line 2 is never read:
   * replacing it changes nothing, even when it looks like an override.
   */
  lemma SubcategorySkipsLine2(parts: seq<string>, line2: string, notification: Notification, parseDate: string -> DateValue)
    requires |parts| >= 3 && parts[1] != ""
    ensures ProcessParts(parts[2 := line2], notification, parseDate) == ProcessParts(parts, notification, parseDate)
  {
    var changed := parts[2 := line2];
    assert changed[3..] == parts[3..];
    assert HasSubcategory(changed) && HasSubcategory(parts);
  }

  /** Without a subcategory (an empty line 1) the scan starts at line 2 and the subcategory is empty. */
  lemma EmptyLine1ScansLine2(parts: seq<string>, notification: Notification, parseDate: string -> DateValue)
    requires |parts| >= 2 && parts[1] == ""
    ensures FirstOverrideIdx(parts) == 2
    ensures ProcessParts(parts, notification, parseDate).Ok? ==> ProcessParts(parts, notification, parseDate).value.subcategory == Some("")
  {
  }

  /**
   * Without overrides the expense is the notification's own data: vendor,
   * payment method, amount, the default currency and the timestamp.
   */
  lemma NoOverridesUsesNotification(parts: seq<string>, notification: Notification, parseDate: string -> DateValue)
    requires 1 <= |parts| <= FirstOverrideIdx(parts)
    requires IsValidDate(notification.timestamp)
    ensures ProcessParts(parts, notification, parseDate).Ok?
    ensures var e := ProcessParts(parts, notification, parseDate).value;
      && e.name == notification.vendor && e.paymentMethod == notification.paymentMethod
      && e.amount == notification.amount && e.currency == DefaultCurrency
      && e.date == FormatDate(notification.timestamp.date)
  {
    assert OverrideRegion(parts, FirstOverrideIdx(parts)) == [];
  }

  /**
   * A notification row carries no timestamp (`undefined`): unless the reply
   * sets a non-empty `Fecha`, the reply fails with the `undefined` date error.
   */
  lemma UndefinedTimestampFails(parts: seq<string>, notification: Notification, parseDate: string -> DateValue)
    requires |parts| >= 1 && notification.timestamp == Undefined
    requires var scan := Overrides(OverrideRegion(parts, FirstOverrideIdx(parts)));
      scan.Ok? && ("Fecha" !in scan.value || scan.value["Fecha"] == "")
    ensures ProcessParts(parts, notification, parseDate) == Err(UserError(DateError("undefined")))
  {
  }

  /** A `Fecha` override that parses to a valid date replaces the timestamp, valid or not. */
  lemma FechaOverrideWins(parts: seq<string>, notification: Notification, parseDate: string -> DateValue)
    requires |parts| >= 1
    requires var scan := Overrides(OverrideRegion(parts, FirstOverrideIdx(parts)));
      && scan.Ok? && "Fecha" in scan.value && scan.value["Fecha"] != ""
      && IsValidDate(parseDate(scan.value["Fecha"]))
    ensures ProcessParts(parts, notification, parseDate).Ok?
    ensures var scan := Overrides(OverrideRegion(parts, FirstOverrideIdx(parts)));
      ProcessParts(parts, notification, parseDate).value.date == FormatDate(parseDate(scan.value["Fecha"]).date)
  {
  }
}
