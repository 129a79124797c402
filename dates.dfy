/**
 * Dates as the handlers see them. `parseDate` is a collaborator given as a
 * parameter; what the model fixes is the validity test (`isValidDate`),
 * the `DD-MM-YYYY` rendering of `formatDate`, and how a value that is not
 * a valid Date prints inside an error message.
 */
module Dates {
  import opened Wrappers
  import opened JsString

  /** A day of the calendar of the fixed business time zone. */
  datatype CalendarDate = CalendarDate(day: nat, month: nat, year: nat)

  predicate IsLeapYear(year: nat)
  {
    (year % 4 == 0 && year % 100 != 0) || year % 400 == 0
  }

  function DaysInMonth(month: nat, year: nat): nat
  {
    if month == 2 then (if IsLeapYear(year) then 29 else 28)
    else if month == 4 || month == 6 || month == 9 || month == 11 then 30
    else 31
  }

  /** A day that exists in the calendar. */
  predicate IsCalendarDate(d: CalendarDate)
  {
    1 <= d.month <= 12 && 1 <= d.day <= DaysInMonth(d.month, d.year)
  }

  type Day = d: CalendarDate | IsCalendarDate(d) witness CalendarDate(1, 1, 1970)

  /**
   * What a date-typed variable of the source can hold: `undefined`, a Date
   * whose time is NaN (`Invalid Date`), or a valid Date, seen through the
   * calendar day it falls on.
   */
  datatype DateValue = Undefined | InvalidDate | Valid(date: Day)

  /** `isValidDate`: a Date object whose time is a number. */
  predicate IsValidDate(v: DateValue)
  {
    v.Valid?
  }

  /** How a value that is not a valid Date prints in a template string. */
  function InvalidDateText(v: DateValue): (r: string)
    requires !IsValidDate(v)
  {
    if v.Undefined? then "undefined" else "Invalid Date"
  }

  /** Two-digit rendering of a day or month number. */
  function Pad2(n: nat): (r: string)
    ensures AllDigits(r) && DigitsValue(r, Decimal) == n
    ensures n < 100 ==> |r| == 2
  {
    NatToDecimalValue(n);
    if n < 10 then
      var r := "0" + NatToDecimal(n);
      assert r[..|r| - 1] == "0";
      r
    else NatToDecimal(n)
  }

  /** `formatDate`: `DD-MM-YYYY`. */
  function FormatDate(d: Day): string
  {
    Pad2(d.day) + "-" + Pad2(d.month) + "-" + NatToDecimal(d.year)
  }

  /** Reads a `DD-MM-YYYY` text back into its three numbers. */
  function ReadFormattedDate(s: string): Option<CalendarDate>
  {
    var parts := Split(s, '-');
    if |parts| == 3 && (forall i | 0 <= i < 3 :: parts[i] != [] && AllDigits(parts[i])) then
      Some(CalendarDate(DigitsValue(parts[0], Decimal), DigitsValue(parts[1], Decimal), DigitsValue(parts[2], Decimal)))
    else None
  }

  /** A digit string holds no dash. */
  lemma DigitsHaveNoDash(s: string)
    requires AllDigits(s)
    ensures '-' !in s
  {
  }

  /** The rendered text determines the date: reading it back gives the day, month and year. */
  lemma FormatDateRoundTrip(d: Day)
    ensures ReadFormattedDate(FormatDate(d)) == Some(d)
  {
    var a, b, c := Pad2(d.day), Pad2(d.month), NatToDecimal(d.year);
    DigitsHaveNoDash(a);
    DigitsHaveNoDash(b);
    DigitsHaveNoDash(c);
    NatToDecimalValue(d.year);
    assert FormatDate(d) == a + ['-'] + b + ['-'] + c;
    SplitThree(a, b, c, '-');
  }

  /** Day and month always take two digits, so the dashes sit at positions 2 and 5. */
  lemma FormatDateShape(d: Day)
    ensures |FormatDate(d)| == 6 + |NatToDecimal(d.year)|
    ensures FormatDate(d)[2] == '-' && FormatDate(d)[5] == '-'
  {
  }
}
