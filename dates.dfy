/**
 * The date check of the backend services (`isValidDate` in
 * backend/src/wikipedia.service.ts and, identically, in backend/src/app.service.ts).
 *
 * The source builds `new Date(`${year}-${month}-${day}`)` and accepts the
 * request when the date's UTC year, month and day equal `parseInt` of the
 * three parts. This module models that round trip for the ISO date-only form
 * and proves it equivalent to an independent definition: four-digit year,
 * two-digit month and day, naming a day of the Gregorian calendar.
 */
module Dates {
  import opened Results

  predicate IsDigit(c: char)
  {
    '0' <= c <= '9'
  }

  predicate AllDigits(s: string)
  {
    forall i :: 0 <= i < |s| ==> IsDigit(s[i])
  }

  /** The number a string of decimal digits denotes. */
  function DecimalValue(s: string): nat
    requires AllDigits(s)
    decreases |s|
  {
    if s == [] then 0 else 10 * DecimalValue(s[..|s| - 1]) + (s[|s| - 1] as int - '0' as int)
  }

  /** The leading run of decimal digits. */
  function DigitPrefix(s: string): (p: string)
    ensures p <= s && AllDigits(p)
    ensures |p| < |s| ==> !IsDigit(s[|p|])
    decreases |s|
  {
    if s != [] && IsDigit(s[0]) then [s[0]] + DigitPrefix(s[1..]) else []
  }

  /**
   * `parseInt(s)` on a string that starts with its digits; None stands for NaN.
   * A text of digits only reads as its decimal value; trailing non-digits are ignored.
   */
  function ParseInt(s: string): (n: Option<nat>)
    ensures n.None? <==> s == [] || !IsDigit(s[0])
    ensures s != [] && AllDigits(s) ==> n == Some(DecimalValue(s))
    ensures n.Some? ==> n.value == DecimalValue(DigitPrefix(s))
  {
    var digits := DigitPrefix(s);
    if digits == [] then None
    else if AllDigits(s) then DigitPrefixOfDigits(s); Some(DecimalValue(digits))
    else Some(DecimalValue(digits))
  }

  predicate IsLeapYear(year: nat)
  {
    year % 4 == 0 && (year % 100 != 0 || year % 400 == 0)
  }

  function DaysInMonth(year: nat, month: nat): nat
    requires 1 <= month <= 12
  {
    if month == 2 then (if IsLeapYear(year) then 29 else 28)
    else if month == 4 || month == 6 || month == 9 || month == 11 then 30
    else 31
  }

  /** The UTC components of a valid JavaScript Date (month counted from 1). */
  datatype UtcDate = UtcDate(year: nat, month: nat, day: nat)

  /** A day past the end of its month carries over into the next month, as Date arithmetic does. */
  function Normalize(year: nat, month: nat, day: nat): UtcDate
    requires 1 <= month <= 12
  {
    if day <= DaysInMonth(year, month) then UtcDate(year, month, day)
    else
      var excess := day - DaysInMonth(year, month);
      if month == 12 then UtcDate(year + 1, 1, excess) else UtcDate(year, month + 1, excess)
  }

  /** The shape of the ISO date-only form "YYYY-MM-DD". */
  predicate IsDateOnlyForm(text: string)
  {
    |text| == 10 && text[4] == '-' && text[7] == '-'
    && AllDigits(text[..4]) && AllDigits(text[5..7]) && AllDigits(text[8..])
  }

  /**
   * `new Date(text)` for the ISO date-only form, read as UTC midnight: None is
   * an Invalid Date. A month outside 1..12 or a day outside 1..31 is invalid; a
   * day beyond the month's length rolls over into the next month.
   */
  function ParseDateOnly(text: string): Option<UtcDate>
  {
    if IsDateOnlyForm(text) then
      var year, month, day := DecimalValue(text[..4]), DecimalValue(text[5..7]), DecimalValue(text[8..]);
      if 1 <= month <= 12 && 1 <= day <= 31 then Some(Normalize(year, month, day)) else None
    else None
  }

  /**
   * `isValidDate(year, month, day)`: the Date built from the joined parts must
   * give back each part. An Invalid Date yields NaN components, which equal
   * nothing.
   */
  predicate IsValidDate(year: string, month: string, day: string)
    ensures IsValidDate(year, month, day) ==> ParseDateOnly(year + "-" + month + "-" + day).Some?
    ensures IsValidDate(year, month, day) ==> ParseInt(year).Some? && ParseInt(month).Some? && ParseInt(day).Some?
  {
    match ParseDateOnly(year + "-" + month + "-" + day)
    case None => false
    case Some(date) =>
      ParseInt(year) == Some(date.year) && ParseInt(month) == Some(date.month) && ParseInt(day) == Some(date.day)
  }

  /** The reference definition: a zero-padded date that exists in the Gregorian calendar. */
  predicate IsCalendarDate(year: string, month: string, day: string)
  {
    && |year| == 4 && |month| == 2 && |day| == 2
    && AllDigits(year) && AllDigits(month) && AllDigits(day)
    && 1 <= DecimalValue(month) <= 12
    && 1 <= DecimalValue(day) <= DaysInMonth(DecimalValue(year), DecimalValue(month))
  }

  lemma {:induction false} DigitPrefixOfDigits(s: string)
    requires AllDigits(s)
    ensures DigitPrefix(s) == s
    decreases |s|
  {
    if s != [] {
      DigitPrefixOfDigits(s[1..]);
    }
  }

  /** In the date-only form every character but the two dashes is a digit. */
  lemma DashesOfDateOnlyForm(text: string, k: nat)
    requires IsDateOnlyForm(text)
    requires k < |text| && text[k] == '-'
    ensures k == 4 || k == 7
  {
    forall i | 0 <= i < 4
      ensures IsDigit(text[i])
    {
      assert text[..4][i] == text[i];
    }
    forall i | 5 <= i < 7
      ensures IsDigit(text[i])
    {
      assert text[5..7][i - 5] == text[i];
    }
    forall i | 8 <= i < 10
      ensures IsDigit(text[i])
    {
      assert text[8..][i - 8] == text[i];
    }
  }

  /** A joined text in the date-only form was joined from a four-, a two- and a two-character part. */
  lemma {:induction false} PartsOfDateOnlyForm(year: string, month: string, day: string)
    requires IsDateOnlyForm(year + "-" + month + "-" + day)
    ensures |year| == 4 && |month| == 2 && |day| == 2
    ensures var text := year + "-" + month + "-" + day; text[..4] == year && text[5..7] == month && text[8..] == day
  {
    var text := year + "-" + month + "-" + day;
    assert text[|year|] == '-';
    DashesOfDateOnlyForm(text, |year|);
    assert text[|year| + 1 + |month|] == '-';
    DashesOfDateOnlyForm(text, |year| + 1 + |month|);
    assert text[..4] == year;
    assert text[5..7] == month;
    assert text[8..] == day;
  }

  /** The date round trip of the source accepts exactly the zero-padded calendar dates. */
  lemma {:induction false} IsValidDateIsCalendarDate(year: string, month: string, day: string)
    ensures IsValidDate(year, month, day) <==> IsCalendarDate(year, month, day)
  {
    var text := year + "-" + month + "-" + day;
    if IsCalendarDate(year, month, day) {
      assert text[..4] == year;
      assert text[4] == '-';
      assert text[5..7] == month;
      assert text[7] == '-';
      assert text[8..] == day;
      assert IsDateOnlyForm(text);
      DigitPrefixOfDigits(year);
      DigitPrefixOfDigits(month);
      DigitPrefixOfDigits(day);
    }
    if IsValidDate(year, month, day) {
      assert IsDateOnlyForm(text);
      PartsOfDateOnlyForm(year, month, day);
      DigitPrefixOfDigits(year);
      DigitPrefixOfDigits(month);
      DigitPrefixOfDigits(day);
    }
  }

  lemma {:induction false} DecimalValueOfTwo(s: string)
    requires |s| == 2 && AllDigits(s)
    ensures DecimalValue(s) == 10 * (s[0] as int - '0' as int) + (s[1] as int - '0' as int)
  {
    assert s[..|s| - 1] == s[..1];
    assert s[..1][..0] == [];
    assert DecimalValue(s[..1]) == s[0] as int - '0' as int;
  }

  lemma {:induction false} DecimalValueOfFour(s: string)
    requires |s| == 4 && AllDigits(s)
    ensures DecimalValue(s) == 100 * DecimalValue(s[..2]) + 10 * (s[2] as int - '0' as int) + (s[3] as int - '0' as int)
  {
    assert s[..|s| - 1] == s[..3];
    assert s[..3][..2] == s[..2];
    assert DecimalValue(s[..3]) == 10 * DecimalValue(s[..2]) + (s[2] as int - '0' as int);
  }

  lemma {:induction false} YearValue(year: string, century: string, value: nat)
    requires |year| == 4 && AllDigits(year) && year[..2] == century
    requires value == 100 * DecimalValue(century) + 10 * (year[2] as int - '0' as int) + (year[3] as int - '0' as int)
    ensures DecimalValue(year) == value
  {
    DecimalValueOfFour(year);
  }

  /** The valid date of the route handler's tests. */
  lemma NewYear2024IsValid()
    ensures IsValidDate("2024", "01", "01")
  {
    DecimalValueOfTwo("20");
    YearValue("2024", "20", 2024);
    DecimalValueOfTwo("01");
    IsValidDateIsCalendarDate("2024", "01", "01");
  }

  /** The three invalid dates of the route handler's tests: a non-numeric year, month 13, day 32. */
  lemma InvalidDateExamples()
    ensures !IsValidDate("bad", "01", "01")
    ensures !IsValidDate("2024", "13", "01")
    ensures !IsValidDate("2024", "01", "32")
  {
    IsValidDateIsCalendarDate("bad", "01", "01");
    DecimalValueOfTwo("13");
    IsValidDateIsCalendarDate("2024", "13", "01");
    DecimalValueOfTwo("01");
    DecimalValueOfTwo("32");
    IsValidDateIsCalendarDate("2024", "01", "32");
  }

  /** February 29th exists in 2024 but not in 2023. */
  lemma LeapDayExamples()
    ensures IsValidDate("2024", "02", "29")
    ensures !IsValidDate("2023", "02", "29")
  {
    DecimalValueOfTwo("20");
    YearValue("2024", "20", 2024);
    YearValue("2023", "20", 2023);
    DecimalValueOfTwo("02");
    DecimalValueOfTwo("29");
    IsValidDateIsCalendarDate("2024", "02", "29");
    IsValidDateIsCalendarDate("2023", "02", "29");
  }
}
