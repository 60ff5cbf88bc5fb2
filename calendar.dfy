/** The proleptic Gregorian calendar dates that Python's `datetime` works
    with, the `'%Y-%m-%d'` parse (`datetime.strptime`) as a partial function,
    the matching `strftime` rendering, and day arithmetic (`timedelta(days=n)`). */
module Calendar {
  import opened Common

  datatype Date = Date(year: int, month: int, day: int)

  predicate IsLeapYear(y: int) {
    (y % 4 == 0 && y % 100 != 0) || y % 400 == 0
  }

  function DaysInMonth(y: int, m: int): (n: int)
    requires 1 <= m <= 12
    ensures 28 <= n <= 31
  {
    if m == 2 then (if IsLeapYear(y) then 29 else 28)
    else if m == 4 || m == 6 || m == 9 || m == 11 then 30
    else 31
  }

  predicate ValidDate(d: Date) {
    1 <= d.month <= 12 && 1 <= d.day <= DaysInMonth(d.year, d.month)
  }

  /** Chronological order; for valid dates it is the order of (year, month, day). */
  predicate Before(a: Date, b: Date) {
    a.year < b.year
    || (a.year == b.year && a.month < b.month)
    || (a.year == b.year && a.month == b.month && a.day < b.day)
  }

  predicate AtOrBefore(a: Date, b: Date) {
    a == b || Before(a, b)
  }

  /** `d + timedelta(days=1)` */
  function NextDay(d: Date): (r: Date)
    requires ValidDate(d)
    ensures ValidDate(r)
  {
    if d.day < DaysInMonth(d.year, d.month) then Date(d.year, d.month, d.day + 1)
    else if d.month < 12 then Date(d.year, d.month + 1, 1)
    else Date(d.year + 1, 1, 1)
  }

  /** `d - timedelta(days=1)` */
  function PrevDay(d: Date): (r: Date)
    requires ValidDate(d)
    ensures ValidDate(r)
  {
    if d.day > 1 then Date(d.year, d.month, d.day - 1)
    else if d.month > 1 then Date(d.year, d.month - 1, DaysInMonth(d.year, d.month - 1))
    else Date(d.year - 1, 12, 31)
  }

  /** `d + timedelta(days=n)` for any whole number of days. */
  function AddDays(d: Date, n: int): (r: Date)
    requires ValidDate(d)
    ensures ValidDate(r)
    ensures n >= 0 ==> r.year >= d.year
    decreases if n < 0 then -n else n
  {
    if n == 0 then d
    else if n > 0 then NextDay(AddDays(d, n - 1))
    else PrevDay(AddDays(d, n + 1))
  }

  /** The next day is the first valid date after `d`: nothing lies between. */
  lemma NextDayIsSuccessor(d: Date, e: Date)
    requires ValidDate(d) && ValidDate(e)
    ensures Before(d, NextDay(d))
    ensures Before(d, e) ==> AtOrBefore(NextDay(d), e)
  {
  }

  /** The previous day is the last valid date before `d`, and the two
      steps undo each other. */
  lemma PrevDayIsPredecessor(d: Date, e: Date)
    requires ValidDate(d) && ValidDate(e)
    ensures Before(PrevDay(d), d)
    ensures Before(e, d) ==> AtOrBefore(e, PrevDay(d))
    ensures NextDay(PrevDay(d)) == d && PrevDay(NextDay(d)) == d
  {
  }

  /** Moving forward k >= 1 days always lands strictly later. */
  lemma {:induction false} AddDaysForward(d: Date, k: nat)
    requires ValidDate(d) && k >= 1
    ensures Before(d, AddDays(d, k))
  {
    NextDayIsSuccessor(AddDays(d, k - 1), d);
    if k > 1 {
      AddDaysForward(d, k - 1);
    }
  }

  // ---------------------------------------------------------------------
  // strptime(s, '%Y-%m-%d') and strftime('%Y-%m-%d')
  // ---------------------------------------------------------------------

  /** `%Y`: exactly four digits. */
  predicate YearField(p: string) {
    |p| == 4 && AllDigits(p)
  }

  /** `%m`: one or two digits naming a month 1..12 (`1[0-2]|0[1-9]|[1-9]`). */
  predicate MonthField(p: string) {
    (|p| == 1 || |p| == 2) && AllDigits(p) && 1 <= DigitsValue(p) <= 12
  }

  /** `%d`: one or two digits naming 1..31, or a space and a digit 1..9
      (`3[01]|[12]\d|0[1-9]|[1-9]| [1-9]`). */
  predicate DayField(p: string) {
    ((|p| == 1 || |p| == 2) && AllDigits(p) && 1 <= DigitsValue(p) <= 31)
    || (|p| == 2 && p[0] == ' ' && '1' <= p[1] <= '9')
  }

  function DayFieldValue(p: string): nat
    requires DayField(p)
  {
    if p[0] == ' ' then DigitValue(p[1]) else DigitsValue(p)
  }

  /** `datetime.strptime(s, '%Y-%m-%d')`: `None` where Python raises
      `ValueError` (a malformed field, left-over text, year 0, or a day the
      month does not have). */
  function Parse(s: string): (r: Option<Date>)
    ensures r.Some? ==> ValidDate(r.value) && 1 <= r.value.year <= 9999
  {
    var parts := Split(s, '-');
    if |parts| != 3 || !YearField(parts[0]) || !MonthField(parts[1]) || !DayField(parts[2]) then None
    else
      var y, m, d := DigitsValue(parts[0]), DigitsValue(parts[1]), DayFieldValue(parts[2]);
      assert y < 10000 by { DigitsBound(parts[0]); }
      if y < 1 || d > DaysInMonth(y, m) then None else Some(Date(y, m, d))
  }

  lemma {:induction false} DigitsBound(s: string)
    requires AllDigits(s)
    ensures DigitsValue(s) < Pow10(|s|)
  {
    if |s| > 0 {
      DigitsBound(s[..|s| - 1]);
    }
  }

  /** `d.strftime('%Y-%m-%d')` for the years Python represents. */
  function Format(d: Date): string
    requires 0 <= d.year && 1 <= d.month && 1 <= d.day
  {
    PadNat(d.year, 4) + "-" + PadNat(d.month, 2) + "-" + PadNat(d.day, 2)
  }

  lemma DigitsHaveNoDash(s: string)
    requires AllDigits(s)
    ensures '-' !in s
  {
  }

  /** Reading back a rendered date gives the date: `strptime(strftime(d))
      == d` for every date with a four-digit year. */
  lemma ParseFormat(d: Date)
    requires ValidDate(d) && 1 <= d.year <= 9999
    ensures Parse(Format(d)) == Some(d)
  {
    var ys, ms, ds := PadNat(d.year, 4), PadNat(d.month, 2), PadNat(d.day, 2);
    PadNatRoundTrip(d.year, 4);
    PadNatRoundTrip(d.month, 2);
    PadNatRoundTrip(d.day, 2);
    NatToStringLength(d.year, 4);
    NatToStringLength(d.month, 2);
    NatToStringLength(d.day, 2);
    DigitsHaveNoDash(ys);
    DigitsHaveNoDash(ms);
    DigitsHaveNoDash(ds);
    DashedFields(ys, ms, ds);
    assert Split(Format(d), '-') == [ys, ms, ds];
  }

  /** Three dash-free fields joined by dashes split back into themselves. */
  lemma DashedFields(a: string, b: string, c: string)
    requires '-' !in a && '-' !in b && '-' !in c
    ensures Split(a + "-" + b + "-" + c, '-') == [a, b, c]
  {
    assert a + "-" + b + "-" + c == a + ['-'] + (b + ['-'] + c);
    SplitAfterPiece(a, '-', b + ['-'] + c);
    SplitAfterPiece(b, '-', c);
    SplitWithout(c, '-');
  }
}
