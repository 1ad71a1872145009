/** Calendar dates as the detail screen uses them: NAV dates are parsed with the
    pattern "dd-MM-yyyy", and the cutoff of a time range is today's date moved back
    by whole months, the way `Calendar.add(Calendar.MONTH, -n)` does it. */
module Dates {
  import opened Model

  /** A date as a (day, month, year) triple; month 1 is January. */
  datatype Date = Date(day: int, month: int, year: int)

  predicate IsLeapYear(y: int) {
    y % 4 == 0 && (y % 100 != 0 || y % 400 == 0)
  }

  function DaysInMonth(year: int, month: int): int {
    if month == 2 then (if IsLeapYear(year) then 29 else 28)
    else if month == 4 || month == 6 || month == 9 || month == 11 then 30
    else 31
  }

  predicate IsValid(d: Date) {
    1 <= d.month <= 12 && 1 <= d.day <= DaysInMonth(d.year, d.month)
  }

  /** `a` is strictly later than `b`. */
  predicate After(a: Date, b: Date) {
    a.year > b.year
    || (a.year == b.year && a.month > b.month)
    || (a.year == b.year && a.month == b.month && a.day > b.day)
  }

  /** A date later than some date is later than every date not after that one. */
  lemma AfterEarlier(a: Date, b: Date, c: Date)
    requires After(a, b) && !After(c, b)
    ensures After(a, c)
  {
  }

  // ---------------------------------------------------------------------------
  // Parsing "dd-MM-yyyy"

  predicate IsDigit(c: char) {
    '0' <= c <= '9'
  }

  function DigitValue(c: char): int
    requires IsDigit(c)
  {
    c as int - '0' as int
  }

  /** The decimal value of a string of digits. */
  function Number(s: string): (n: nat)
    requires forall i :: 0 <= i < |s| ==> IsDigit(s[i])
    ensures n < Power10(|s|)
    decreases |s|
  {
    if s == [] then 0 else Number(s[..|s| - 1]) * 10 + DigitValue(s[|s| - 1])
  }

  predicate HasDatePattern(s: string) {
    |s| == 10 && s[2] == '-' && s[5] == '-'
    && IsDigit(s[0]) && IsDigit(s[1]) && IsDigit(s[3]) && IsDigit(s[4])
    && IsDigit(s[6]) && IsDigit(s[7]) && IsDigit(s[8]) && IsDigit(s[9])
  }

  /** The strict `dd-MM-yyyy` shape `SimpleDateFormat("dd-MM-yyyy").parse` reads: two,
      two and four digits separated by dashes; None for anything else. */
  function ParseDate(s: string): (r: Option<Date>)
    ensures r.Some? <==> HasDatePattern(s)
    ensures r.Some? ==> 0 <= r.value.day < 100 && 0 <= r.value.month < 100 && 0 <= r.value.year < 10000
  {
    if HasDatePattern(s) then Some(Date(Number(s[0..2]), Number(s[3..5]), Number(s[6..10])))
    else None
  }

  /** Reference rendering of a date in the same pattern, zero-padded. */
  function Digits(n: nat, width: nat): (s: string)
    ensures |s| == width
    ensures forall i :: 0 <= i < |s| ==> IsDigit(s[i])
  {
    if width == 0 then "" else Digits(n / 10, width - 1) + [('0' as int + n % 10) as char]
  }

  function FormatDate(d: Date): string
    requires 0 <= d.day < 100 && 0 <= d.month < 100 && 0 <= d.year < 10000
  {
    Digits(d.day, 2) + "-" + Digits(d.month, 2) + "-" + Digits(d.year, 4)
  }

  lemma {:induction false} NumberOfDigits(n: nat, width: nat)
    requires n < Power10(width)
    ensures Number(Digits(n, width)) == n
    decreases width
  {
    if width > 0 {
      var s := Digits(n, width);
      assert s[..|s| - 1] == Digits(n / 10, width - 1);
      NumberOfDigits(n / 10, width - 1);
    }
  }

  function Power10(k: nat): nat {
    if k == 0 then 1 else 10 * Power10(k - 1)
  }

  /** Every date the pattern can show parses back to itself. */
  lemma ParseFormatRoundTrip(d: Date)
    requires 0 <= d.day < 100 && 0 <= d.month < 100 && 0 <= d.year < 10000
    ensures ParseDate(FormatDate(d)) == Some(d)
  {
    var s := FormatDate(d);
    NumberOfDigits(d.day, 2);
    NumberOfDigits(d.month, 2);
    assert Power10(4) == 10000;
    NumberOfDigits(d.year, 4);
    assert s[0..2] == Digits(d.day, 2);
    assert s[3..5] == Digits(d.month, 2);
    assert s[6..10] == Digits(d.year, 4);
  }

  /** Appending a decimal digit and dividing by ten gives back the number and the digit. */
  lemma DivMod10(a: nat, b: int)
    requires 0 <= b < 10
    ensures (a * 10 + b) / 10 == a && (a * 10 + b) % 10 == b
  {
  }

  /** A string of digits is the zero-padded rendering of its own value. */
  lemma {:induction false} DigitsOfNumber(t: string)
    requires forall i :: 0 <= i < |t| ==> IsDigit(t[i])
    ensures Digits(Number(t), |t|) == t
    decreases |t|
  {
    if t != [] {
      var k := |t|;
      var pre := t[..k - 1];
      DigitsOfNumber(pre);
      var n := Number(t);
      DivMod10(Number(pre), DigitValue(t[k - 1]));
      assert n / 10 == Number(pre) && n % 10 == DigitValue(t[k - 1]);
      assert t == pre + [t[k - 1]];
    }
  }

  /** Only zero-padded "dd-MM-yyyy" strings parse: formatting a parsed date gives the
      string back. */
  lemma FormatParseRoundTrip(s: string)
    requires ParseDate(s).Some?
    ensures FormatDate(ParseDate(s).value) == s
  {
    DigitsOfNumber(s[0..2]);
    DigitsOfNumber(s[3..5]);
    DigitsOfNumber(s[6..10]);
    assert s == s[0..2] + "-" + s[3..5] + "-" + s[6..10];
  }

  // ---------------------------------------------------------------------------
  // Moving back by months

  /** Months since January of year 0, so that month arithmetic is integer arithmetic. */
  function MonthIndex(d: Date): int {
    d.year * 12 + (d.month - 1)
  }

  /** `Calendar.add(Calendar.MONTH, -n)`: move the month back, carry into the year,
      and pin the day to the length of the new month. */
  function MonthsBefore(d: Date, n: nat): (r: Date)
    ensures 1 <= r.month <= 12
    ensures r.day <= d.day && r.day <= DaysInMonth(r.year, r.month)
  {
    var index := MonthIndex(d) - n;
    var year := index / 12;
    var month := index % 12 + 1;
    Date(if d.day <= DaysInMonth(year, month) then d.day else DaysInMonth(year, month), month, year)
  }

  lemma MonthIndexOrder(a: int, b: int)
    requires a < b
    ensures a / 12 < b / 12 || (a / 12 == b / 12 && a % 12 < b % 12)
  {
  }

  /** The cutoff lands exactly `n` months earlier and is a valid date; it keeps the day
      of the month, or the new month's last day when the new month is shorter. */
  lemma MonthsBeforeSpec(d: Date, n: nat)
    requires IsValid(d)
    ensures IsValid(MonthsBefore(d, n))
    ensures MonthIndex(MonthsBefore(d, n)) == MonthIndex(d) - n
    ensures d.day <= DaysInMonth(MonthsBefore(d, n).year, MonthsBefore(d, n).month) ==>
      MonthsBefore(d, n).day == d.day
    ensures d.day > DaysInMonth(MonthsBefore(d, n).year, MonthsBefore(d, n).month) ==>
      MonthsBefore(d, n).day == DaysInMonth(MonthsBefore(d, n).year, MonthsBefore(d, n).month)
  {
    var index := MonthIndex(d) - n;
    assert index == (index / 12) * 12 + index % 12;
  }

  /** Moving back further never gives a later date; moving back at least one month gives
      a strictly earlier one. */
  lemma MonthsBeforeAntitone(d: Date, m: nat, n: nat)
    requires IsValid(d) && m <= n
    ensures !After(MonthsBefore(d, n), MonthsBefore(d, m))
    ensures 1 <= m ==> After(d, MonthsBefore(d, m))
  {
    MonthsBeforeSpec(d, m);
    MonthsBeforeSpec(d, n);
    if m < n {
      MonthIndexOrder(MonthIndex(d) - n, MonthIndex(d) - m);
    }
    if 1 <= m {
      MonthIndexOrder(MonthIndex(d) - m, MonthIndex(d));
      assert MonthIndex(d) / 12 == d.year && MonthIndex(d) % 12 == d.month - 1;
    }
  }
}
