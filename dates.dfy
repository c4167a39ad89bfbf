/** Calendar dates as the pages use them through JavaScript's `Date`: a
    proleptic Gregorian date and its day number (whole days since 1970-01-01),
    which is what `getTime()` differences divided by one day amount to. */
module Dates {
  import opened Seqs

  /** A calendar date; `month` is 1..12 (the source's `getMonth()` plus one). */
  datatype Date = Date(year: int, month: int, day: int)

  predicate IsLeapYear(y: int)
  {
    y % 4 == 0 && (y % 100 != 0 || y % 400 == 0)
  }

  /** `new Date(year, month, 0).getDate()`: the number of days in `month`. */
  function DaysInMonth(year: int, month: int): (n: int)
    requires 1 <= month <= 12
    ensures 28 <= n <= 31
    ensures month == 2 ==> (n == 29 <==> IsLeapYear(year)) && (n == 28 <==> !IsLeapYear(year))
    ensures month != 2 ==> (n == 30 <==> month in {4, 6, 9, 11}) && (n == 31 <==> month !in {4, 6, 9, 11})
  {
    if month == 2 then (if IsLeapYear(year) then 29 else 28)
    else if month == 4 || month == 6 || month == 9 || month == 11 then 30
    else 31
  }

  /** Days from 1970-01-01 to `d` (negative before it). The year is counted
      from March, so that a leap day ends the counted year. */
  function DayNumber(d: Date): int
  {
    var y := if d.month <= 2 then d.year - 1 else d.year;
    var m := if d.month <= 2 then d.month + 9 else d.month - 3;
    365 * y + y / 4 - y / 100 + y / 400 + (153 * m + 2) / 5 + d.day - 1 - 719468
  }

  /** The day number of an ISO date written `y-m-d`. */
  function Ymd(y: int, m: int, d: int): int
  {
    DayNumber(Date(y, m, d))
  }

  /** Within a month, day numbers differ by the difference of the days. */
  lemma SameMonthDistance(y: int, m: int, d1: int, d2: int)
    ensures Ymd(y, m, d2) - Ymd(y, m, d1) == d2 - d1
  {
  }

  /** `(checkOut - checkIn) / (1000 * 60 * 60 * 24)` on whole days, which is
      already an integer, so `Math.ceil` leaves it as it is. */
  function DaysBetween(checkIn: int, checkOut: int): (n: int)
    ensures checkIn + n == checkOut
    ensures n > 0 <==> checkIn < checkOut
  {
    checkOut - checkIn
  }

  /** A date that exists on the calendar. */
  predicate ValidDate(d: Date)
  {
    1 <= d.month <= 12 && 1 <= d.day <= DaysInMonth(d.year, d.month)
  }

  predicate IsDigit(c: char)
  {
    '0' <= c <= '9'
  }

  function DigitChar(n: nat): (c: char)
    requires n < 10
    ensures IsDigit(c)
  {
    ('0' as int + n) as char
  }

  function DigitValue(c: char): nat
    requires IsDigit(c)
  {
    c as int - '0' as int
  }

  /** The `YYYY-MM-DD` string a date input yields for a date of years 0..9999. */
  function FormatIsoDate(d: Date): (s: string)
    requires 0 <= d.year <= 9999 && ValidDate(d)
    ensures |s| == 10 && s[4] == '-' && s[7] == '-'
  {
    [DigitChar(d.year / 1000), DigitChar(d.year / 100 % 10), DigitChar(d.year / 10 % 10),
     DigitChar(d.year % 10), '-', DigitChar(d.month / 10), DigitChar(d.month % 10), '-',
     DigitChar(d.day / 10), DigitChar(d.day % 10)]
  }

  /** `new Date(s)` on a date input's value, as a day number: a
      `YYYY-MM-DD` string naming a real date, or None (an invalid date)
      for anything else, the empty string included. */
  function ParseIsoDate(s: string): (r: Option<int>)
    ensures r.Some? ==> |s| == 10
    ensures s == "" ==> r.None?
  {
    if |s| == 10 && s[4] == '-' && s[7] == '-' &&
       IsDigit(s[0]) && IsDigit(s[1]) && IsDigit(s[2]) && IsDigit(s[3]) &&
       IsDigit(s[5]) && IsDigit(s[6]) && IsDigit(s[8]) && IsDigit(s[9])
    then
      var y := 1000 * DigitValue(s[0]) + 100 * DigitValue(s[1]) + 10 * DigitValue(s[2]) + DigitValue(s[3]);
      var m := 10 * DigitValue(s[5]) + DigitValue(s[6]);
      var d := 10 * DigitValue(s[8]) + DigitValue(s[9]);
      if ValidDate(Date(y, m, d)) then Some(DayNumber(Date(y, m, d))) else None
    else None
  }

  lemma DigitRoundTrip(n: nat)
    requires n < 10
    ensures DigitValue(DigitChar(n)) == n
  {
  }

  /** A number below 10000 is the sum of its four decimal digits' values. */
  lemma FourDigits(y: int)
    requires 0 <= y <= 9999
    ensures 1000 * (y / 1000) + 100 * (y / 100 % 10) + 10 * (y / 10 % 10) + y % 10 == y
  {
  }

  /** Parsing the string of a date gives back that date's day number. */
  lemma ParsesFormatted(d: Date)
    requires 0 <= d.year <= 9999 && ValidDate(d)
    ensures ParseIsoDate(FormatIsoDate(d)) == Some(DayNumber(d))
  {
    var s := FormatIsoDate(d);
    DigitRoundTrip(d.year / 1000);
    DigitRoundTrip(d.year / 100 % 10);
    DigitRoundTrip(d.year / 10 % 10);
    DigitRoundTrip(d.year % 10);
    DigitRoundTrip(d.month / 10);
    DigitRoundTrip(d.month % 10);
    DigitRoundTrip(d.day / 10);
    DigitRoundTrip(d.day % 10);
    FourDigits(d.year);
    var y := 1000 * DigitValue(s[0]) + 100 * DigitValue(s[1]) + 10 * DigitValue(s[2]) + DigitValue(s[3]);
    var m := 10 * DigitValue(s[5]) + DigitValue(s[6]);
    var dd := 10 * DigitValue(s[8]) + DigitValue(s[9]);
    assert Date(y, m, dd) == d;
  }

  lemma CharRoundTrip(c: char)
    requires IsDigit(c)
    ensures DigitValue(c) < 10 && DigitChar(DigitValue(c)) == c
  {
  }

  /** The decimal digits of a four-digit number are the digits it was built from. */
  lemma DigitsOfFour(a: nat, b: nat, c: nat, e: nat)
    requires a < 10 && b < 10 && c < 10 && e < 10
    ensures var y := 1000 * a + 100 * b + 10 * c + e;
            y / 1000 == a && y / 100 % 10 == b && y / 10 % 10 == c && y % 10 == e
  {
    TensAndUnits(100 * a + 10 * b + c, e);
    TensAndUnits(10 * a + b, c);
    TensAndUnits(a, b);
  }

  lemma TensAndUnits(q: nat, r: nat)
    requires r < 10
    ensures (10 * q + r) / 10 == q && (10 * q + r) % 10 == r
  {
  }

  /** Conversely, whatever parses is the string of a real date of years
      0..9999, and it parses to that date's day number. */
  lemma ParsedIsFormatted(s: string)
    requires ParseIsoDate(s).Some?
    ensures exists d: Date :: 0 <= d.year <= 9999 && ValidDate(d) && FormatIsoDate(d) == s &&
                              ParseIsoDate(s).value == DayNumber(d)
  {
    var y := 1000 * DigitValue(s[0]) + 100 * DigitValue(s[1]) + 10 * DigitValue(s[2]) + DigitValue(s[3]);
    var m := 10 * DigitValue(s[5]) + DigitValue(s[6]);
    var dd := 10 * DigitValue(s[8]) + DigitValue(s[9]);
    FormatsFields(s, Date(y, m, dd));
  }

  /** A `YYYY-MM-DD` string is the format of the date its fields spell. */
  lemma FormatsFields(s: string, d: Date)
    requires |s| == 10 && s[4] == '-' && s[7] == '-'
    requires IsDigit(s[0]) && IsDigit(s[1]) && IsDigit(s[2]) && IsDigit(s[3]) &&
             IsDigit(s[5]) && IsDigit(s[6]) && IsDigit(s[8]) && IsDigit(s[9])
    requires d.year == 1000 * DigitValue(s[0]) + 100 * DigitValue(s[1]) + 10 * DigitValue(s[2]) + DigitValue(s[3])
    requires d.month == 10 * DigitValue(s[5]) + DigitValue(s[6])
    requires d.day == 10 * DigitValue(s[8]) + DigitValue(s[9])
    requires ValidDate(d)
    ensures 0 <= d.year <= 9999 && FormatIsoDate(d) == s
  {
    CharRoundTrip(s[0]);
    CharRoundTrip(s[1]);
    CharRoundTrip(s[2]);
    CharRoundTrip(s[3]);
    CharRoundTrip(s[5]);
    CharRoundTrip(s[6]);
    CharRoundTrip(s[8]);
    CharRoundTrip(s[9]);
    DigitsOfFour(DigitValue(s[0]), DigitValue(s[1]), DigitValue(s[2]), DigitValue(s[3]));
    TensAndUnits(DigitValue(s[5]), DigitValue(s[6]));
    TensAndUnits(DigitValue(s[8]), DigitValue(s[9]));
    var f := FormatIsoDate(d);
    assert forall i :: 0 <= i < 10 ==> f[i] == s[i];
  }

  /** Well-shaped strings that name no date do not parse. */
  lemma NonDatesExample()
    ensures ParseIsoDate("2024-13-01").None?
    ensures ParseIsoDate("2023-02-29").None?
    ensures ParseIsoDate("2024-1-01").None?
  {
    assert DigitValue('1') == 1 && DigitValue('3') == 3 && DigitValue('2') == 2 && DigitValue('9') == 9;
  }
}
