/**
 * The four messages in the documentation comment of the Gasto handler,
 * checked against the line grammar.
 */
module GastoHandlerExamples {
  import opened Wrappers
  import opened JsString
  import opened JsNumber
  import opened Dates
  import opened GastoHandler

  /** The amount index is pinned down by which lines are numeric. */
  lemma AmountAt(lines: seq<string>, k: nat)
    requires k < |lines| && IsNumeric(lines[k])
    requires forall i | 0 <= i < k :: !IsNumeric(lines[i])
    ensures FindAmountIndex(lines) == k
  {
  }

  /** With the amount on line 2 or 3 and a valid date on the last line, the lines parse. */
  lemma ParsedAt(lines: seq<string>, parseDate: string -> DateValue, k: nat)
    requires |lines| >= 5 && (k == 2 || k == 3)
    requires IsNumeric(lines[k])
    requires forall i | 0 <= i < k :: !IsNumeric(lines[i])
    requires IsValidDate(parseDate(lines[|lines| - 1]))
    ensures var r := ParseLines(lines, parseDate);
      && r.Ok?
      && r.value.name == lines[0] && r.value.paymentMethod == lines[1]
      && r.value.amount == ToNumber(lines[k])
      && r.value.currency == (if k == 3 then ToUpper(lines[2]) else "ARS")
      && r.value.category == lines[k + 1]
      && r.value.subcategory == (if k + 3 == |lines| - 1 then Some(lines[|lines| - 2]) else None)
  {
    AmountAt(lines, k);
  }

  /** The words of the documented messages are not amounts. */
  lemma DocumentedWord(w: string)
    requires w == "Paddle" || w == "Efectivo" || w == "ARS"
    ensures !IsNumeric(w)
  {
    TrimUntouched(w);
    WordIsNaN(w);
  }

  /** The amount line of the documented messages reads as 6250. */
  lemma DocumentedAmount(w: string)
    requires w == "6250"
    ensures ToNumber(w) == Integer(6250)
  {
    assert NatToDecimal(6250) == w;
    NumeralRoundTrip(6250);
  }

  /** The documented currency is already upper case. */
  lemma DocumentedCurrency(w: string)
    requires w == "ARS"
    ensures ToUpper(w) == w
  {
    assert forall i | 0 <= i < |w| :: UpperChar(w[i]) == w[i];
  }

  /** The first four lines of the documented messages with a currency: the amount is on line 3. */
  lemma CurrencyPrefix(lines: seq<string>)
    requires |lines| >= 4 && lines[0] == "Paddle" && lines[1] == "Efectivo" && lines[2] == "ARS" && lines[3] == "6250"
    ensures IsNumeric(lines[3]) && forall i | 0 <= i < 3 :: !IsNumeric(lines[i])
    ensures ToNumber(lines[3]) == Integer(6250) && ToUpper(lines[2]) == "ARS"
  {
    forall i | 0 <= i < 3 ensures !IsNumeric(lines[i]) {
      DocumentedWord(lines[i]);
    }
    DocumentedAmount(lines[3]);
    DocumentedCurrency(lines[2]);
  }

  /** The first three lines of the documented messages without a currency: the amount is on line 2. */
  lemma PlainPrefix(lines: seq<string>)
    requires |lines| >= 3 && lines[0] == "Paddle" && lines[1] == "Efectivo" && lines[2] == "6250"
    ensures IsNumeric(lines[2]) && forall i | 0 <= i < 2 :: !IsNumeric(lines[i])
    ensures ToNumber(lines[2]) == Integer(6250)
  {
    forall i | 0 <= i < 2 ensures !IsNumeric(lines[i]) {
      DocumentedWord(lines[i]);
    }
    DocumentedAmount(lines[2]);
  }

  /** Documented message with currency and no subcategory (six lines). */
  lemma DocumentedWithCurrency(lines: seq<string>, parseDate: string -> DateValue)
    requires |lines| == 6 && lines[0] == "Paddle" && lines[1] == "Efectivo" && lines[2] == "ARS"
    requires lines[3] == "6250" && lines[4] == "Deporte" && lines[5] == "Hoy"
    requires IsValidDate(parseDate("Hoy"))
    ensures var r := ParseLines(lines, parseDate);
      && r.Ok? && r.value.name == "Paddle" && r.value.paymentMethod == "Efectivo"
      && r.value.amount == Integer(6250) && r.value.currency == "ARS"
      && r.value.category == "Deporte" && r.value.subcategory.None?
  {
    CurrencyPrefix(lines);
    ParsedAt(lines, parseDate, 3);
  }

  /** Documented message without currency and no subcategory (five lines). */
  lemma DocumentedWithoutCurrency(lines: seq<string>, parseDate: string -> DateValue)
    requires |lines| == 5 && lines[0] == "Paddle" && lines[1] == "Efectivo"
    requires lines[2] == "6250" && lines[3] == "Deporte" && lines[4] == "Hoy"
    requires IsValidDate(parseDate("Hoy"))
    ensures var r := ParseLines(lines, parseDate);
      && r.Ok? && r.value.name == "Paddle" && r.value.paymentMethod == "Efectivo"
      && r.value.amount == Integer(6250) && r.value.currency == "ARS"
      && r.value.category == "Deporte" && r.value.subcategory.None?
  {
    PlainPrefix(lines);
    ParsedAt(lines, parseDate, 2);
  }

  /** Documented message with currency and subcategory (seven lines). */
  lemma DocumentedWithCurrencyAndSubcategory(lines: seq<string>, parseDate: string -> DateValue)
    requires |lines| == 7 && lines[0] == "Paddle" && lines[1] == "Efectivo" && lines[2] == "ARS"
    requires lines[3] == "6250" && lines[4] == "Deporte" && lines[5] == "Paddle" && lines[6] == "Hoy"
    requires IsValidDate(parseDate("Hoy"))
    ensures var r := ParseLines(lines, parseDate);
      && r.Ok? && r.value.name == "Paddle" && r.value.paymentMethod == "Efectivo"
      && r.value.amount == Integer(6250) && r.value.currency == "ARS"
      && r.value.category == "Deporte" && r.value.subcategory == Some("Paddle")
  {
    CurrencyPrefix(lines);
    ParsedAt(lines, parseDate, 3);
  }

  /** Documented message without currency and with subcategory (six lines). */
  lemma DocumentedWithSubcategory(lines: seq<string>, parseDate: string -> DateValue)
    requires |lines| == 6 && lines[0] == "Paddle" && lines[1] == "Efectivo"
    requires lines[2] == "6250" && lines[3] == "Deporte" && lines[4] == "Paddle" && lines[5] == "Hoy"
    requires IsValidDate(parseDate("Hoy"))
    ensures var r := ParseLines(lines, parseDate);
      && r.Ok? && r.value.name == "Paddle" && r.value.paymentMethod == "Efectivo"
      && r.value.amount == Integer(6250) && r.value.currency == "ARS"
      && r.value.category == "Deporte" && r.value.subcategory == Some("Paddle")
  {
    PlainPrefix(lines);
    ParsedAt(lines, parseDate, 2);
  }

  /** Newline-free lines, joined by newlines, split back into those lines. */
  lemma LinesOfText(lines: seq<string>)
    requires |lines| >= 1
    requires forall i | 0 <= i < |lines| :: '\n' !in lines[i]
    ensures SplitLines(Join(lines, '\n')) == lines
  {
    SplitJoin(lines, '\n');
  }

  /** The six-line message with a currency, typed as one text with a line per field. */
  lemma DocumentedTextWithCurrency(text: string, parseDate: string -> DateValue)
    requires text == Join(["Paddle", "Efectivo", "ARS", "6250", "Deporte", "Hoy"], '\n')
    requires IsValidDate(parseDate("Hoy"))
    ensures |SplitLines(text)| == 6
    ensures var r := ParseLines(SplitLines(text), parseDate);
      && r.Ok? && r.value.name == "Paddle" && r.value.paymentMethod == "Efectivo"
      && r.value.amount == Integer(6250) && r.value.currency == "ARS"
      && r.value.category == "Deporte" && r.value.subcategory.None?
  {
    LinesOfText(["Paddle", "Efectivo", "ARS", "6250", "Deporte", "Hoy"]);
    DocumentedWithCurrency(SplitLines(text), parseDate);
  }

  /** The five-line message without a currency, typed as one text with a line per field. */
  lemma DocumentedTextWithoutCurrency(text: string, parseDate: string -> DateValue)
    requires text == Join(["Paddle", "Efectivo", "6250", "Deporte", "Hoy"], '\n')
    requires IsValidDate(parseDate("Hoy"))
    ensures |SplitLines(text)| == 5
    ensures var r := ParseLines(SplitLines(text), parseDate);
      && r.Ok? && r.value.name == "Paddle" && r.value.paymentMethod == "Efectivo"
      && r.value.amount == Integer(6250) && r.value.currency == "ARS"
      && r.value.category == "Deporte" && r.value.subcategory.None?
  {
    LinesOfText(["Paddle", "Efectivo", "6250", "Deporte", "Hoy"]);
    DocumentedWithoutCurrency(SplitLines(text), parseDate);
  }

  /** The seven-line message with a currency and a subcategory, typed as one text with a line per field. */
  lemma DocumentedTextWithCurrencyAndSubcategory(text: string, parseDate: string -> DateValue)
    requires text == Join(["Paddle", "Efectivo", "ARS", "6250", "Deporte", "Paddle", "Hoy"], '\n')
    requires IsValidDate(parseDate("Hoy"))
    ensures |SplitLines(text)| == 7
    ensures var r := ParseLines(SplitLines(text), parseDate);
      && r.Ok? && r.value.name == "Paddle" && r.value.paymentMethod == "Efectivo"
      && r.value.amount == Integer(6250) && r.value.currency == "ARS"
      && r.value.category == "Deporte" && r.value.subcategory == Some("Paddle")
  {
    LinesOfText(["Paddle", "Efectivo", "ARS", "6250", "Deporte", "Paddle", "Hoy"]);
    DocumentedWithCurrencyAndSubcategory(SplitLines(text), parseDate);
  }

  /** The six-line message with a subcategory and no currency, typed as one text with a line per field. */
  lemma DocumentedTextWithSubcategory(text: string, parseDate: string -> DateValue)
    requires text == Join(["Paddle", "Efectivo", "6250", "Deporte", "Paddle", "Hoy"], '\n')
    requires IsValidDate(parseDate("Hoy"))
    ensures |SplitLines(text)| == 6
    ensures var r := ParseLines(SplitLines(text), parseDate);
      && r.Ok? && r.value.name == "Paddle" && r.value.paymentMethod == "Efectivo"
      && r.value.amount == Integer(6250) && r.value.currency == "ARS"
      && r.value.category == "Deporte" && r.value.subcategory == Some("Paddle")
  {
    LinesOfText(["Paddle", "Efectivo", "6250", "Deporte", "Paddle", "Hoy"]);
    DocumentedWithSubcategory(SplitLines(text), parseDate);
  }
}
