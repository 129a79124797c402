/**
 * `GastoHandler`: a non-reply message of five to seven lines is an
 * expense. Line 0 is the name and line 1 the payment method; the first
 * numeric line is the amount and must be line 2 or 3 (line 2 is then the
 * currency); the line after the amount is the category; the last line is
 * the date; when exactly one line sits between category and date it is
 * the subcategory.
 */
module GastoHandler {
  import opened Wrappers
  import opened Utils
  import opened JsString
  import opened JsNumber
  import opened Dates
  import opened MessageHandlerInterface
  import opened ChatState

  const AmountError := "Error al leer el monto de tu mensaje. Recuerda escribirlo en el formato correcto"
  const SuccessTitle := "Se registro exitosamente el siguiente gasto"

  /** The user-facing error for a date token that does not parse. */
  function DateError(token: string): string
  {
    "La fecha " + token + " no es una fecha valida"
  }

  /** Not a reply, and 4, 5 or 6 newline characters: five to seven lines. */
  predicate ShouldHandle(ctx: TextMessageContext, chatInfo: map<int, ActiveChatInfo>): (r: bool)
    ensures r <==> ctx.message.replyTo.None? && 5 <= |SplitLines(ctx.message.text)| <= 7
  {
    SplitCount(ctx.message.text, '\n');
    if ctx.message.replyTo.Some? then false
    else
      var newLines := Occurrences(ctx.message.text, '\n');
      newLines == 4 || newLines == 5 || newLines == 6
  }

  /** `!Number.isNaN(Number(line))`; note that an empty line counts as numeric. */
  predicate IsNumeric(line: string)
  {
    !IsNaN(ToNumber(line))
  }

  /** `lines.findIndex(...)`: the first numeric line, or -1 when there is none. */
  function FindAmountIndex(lines: seq<string>): (idx: int)
    ensures -1 <= idx < |lines|
    ensures idx == -1 ==> forall i | 0 <= i < |lines| :: !IsNumeric(lines[i])
    ensures idx >= 0 ==> IsNumeric(lines[idx]) && forall i | 0 <= i < idx :: !IsNumeric(lines[i])
  {
    if lines == [] then -1
    else if IsNumeric(lines[0]) then 0
    else
      var k := FindAmountIndex(lines[1..]);
      assert forall i | 1 <= i < |lines| :: lines[i] == lines[1..][i - 1];
      if k == -1 then -1 else k + 1
  }

  /** `getSubcategory`: the line before the date when it is the third line after the amount. */
  function GetSubcategory(lines: seq<string>, amountIdx: nat, dateIdx: nat): Option<string>
    requires 1 <= dateIdx < |lines|
  {
    if amountIdx + 3 == dateIdx then Some(lines[dateIdx - 1]) else None
  }

  /**
   * The line grammar of `handleSingleMessage`, up to the RPC call. Every
   * failure is a `UserError`: the amount check comes first, then the date.
   */
  function ParseLines(lines: seq<string>, parseDate: string -> DateValue): (r: Result<Expense, Error>)
    requires |lines| >= 5
    ensures r.Err? ==> r.error.UserError?
    ensures FindAmountIndex(lines) !in {2, 3} ==> r == Err(UserError(AmountError))
    ensures IsNumeric(lines[0]) || IsNumeric(lines[1]) ==> r == Err(UserError(AmountError))
    ensures r.Ok? <==> FindAmountIndex(lines) in {2, 3} && IsValidDate(parseDate(lines[|lines| - 1]))
    ensures r.Err? && FindAmountIndex(lines) in {2, 3} ==> r.error == UserError(DateError(lines[|lines| - 1]))
    ensures r.Ok? ==>
      var idx, e := FindAmountIndex(lines), r.value;
      && e.name == lines[0] && e.paymentMethod == lines[1]
      && e.amount == ToNumber(lines[idx]) && !IsNaN(e.amount)
      && e.currency == (if idx == 3 then ToUpper(lines[2]) else "ARS")
      && e.category == lines[idx + 1]
      && e.date == FormatDate(parseDate(lines[|lines| - 1]).date)
    ensures r.Ok? ==>
      (r.value.subcategory.Some? <==> (|lines| == 6 && FindAmountIndex(lines) == 2) || (|lines| == 7 && FindAmountIndex(lines) == 3))
    ensures r.Ok? && r.value.subcategory.Some? ==> r.value.subcategory.value == lines[|lines| - 2]
  {
    var name := lines[0];
    var paymentMethod := lines[1];
    var amountIdx := FindAmountIndex(lines);
    if amountIdx != 2 && amountIdx != 3 then Err(UserError(AmountError))
    else
      var amount := ToNumber(lines[amountIdx]);
      var currency := if amountIdx == 3 then ToUpper(lines[2]) else "ARS";
      var category := lines[amountIdx + 1];
      var dateIdx := |lines| - 1;
      var dateStr := lines[dateIdx];
      var date := parseDate(dateStr);
      if !IsValidDate(date) then Err(UserError(DateError(dateStr)))
      else
        var subcategory := GetSubcategory(lines, amountIdx, dateIdx);
        Ok(Expense(name, paymentMethod, amount, currency, category, subcategory, FormatDate(date.date)))
  }

  /** The request `addExpense` receives, or None when parsing throws before the call. */
  function Submission(ctx: TextMessageContext, env: Env): Option<Expense>
    requires |SplitLines(ctx.message.text)| >= 5
  {
    ParseLines(SplitLines(ctx.message.text), env.parseDate).ToOption()
  }

  /**
   * `handle`: parse, submit, and answer with a markdown summary that
   * replies to the expense message and has no post-send hook. A rejected
   * RPC is not a user error.
   */
  function Handle(ctx: TextMessageContext, env: Env): (o: Outcome)
    requires |SplitLines(ctx.message.text)| >= 5
    ensures o.Returned? ==>
      && Submission(ctx, env).Some?
      && env.addExpense(Submission(ctx, env).value)
      && o.response == Advanced(
        ExpenseSummary(SuccessTitle, Submission(ctx, env).value),
        Some(ResponseOptions(Some(true), Some(ctx.message.messageId))),
        None)
    ensures o.Returned? <==> Submission(ctx, env).Some? && env.addExpense(Submission(ctx, env).value)
    ensures o.Threw? && Submission(ctx, env).None? ==> o.error == ParseLines(SplitLines(ctx.message.text), env.parseDate).error
    ensures o.Threw? ==>
      || (Submission(ctx, env).None? && o.error.UserError?)
      || (Submission(ctx, env).Some? && !env.addExpense(Submission(ctx, env).value) && o.error == SystemError(RpcRejected))
  {
    match ParseLines(SplitLines(ctx.message.text), env.parseDate)
    case Err(e) => Threw(e)
    case Ok(expense) =>
      if !env.addExpense(expense) then Threw(SystemError(RpcRejected))
      else Returned(Advanced(
        ExpenseSummary(SuccessTitle, expense),
        Some(ResponseOptions(Some(true), Some(ctx.message.messageId))),
        None))
  }
}
