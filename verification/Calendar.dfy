/**
 * The hand-written calendar: seconds since the Unix epoch to civil fields, and the printed form
 * of a nanosecond timestamp. The reference is the closed-form Gregorian day number.
 */
module Calendar {
  import opened Prelude
  import opened Decimals

  predicate IsLeap(year: int) {
    (year % 4 == 0 && year % 100 != 0) || year % 400 == 0
  }

  function DaysInMonth(year: int, month: nat): nat {
    match month
    case 1 => 31
    case 3 => 31
    case 5 => 31
    case 7 => 31
    case 8 => 31
    case 10 => 31
    case 12 => 31
    case 4 => 30
    case 6 => 30
    case 9 => 30
    case 11 => 30
    case 2 => if IsLeap(year) then 29 else 28
    case _ => 0
  }

  function YearLength(year: int): nat {
    if IsLeap(year) then 366 else 365
  }

  // ---------------------------------------------------------------------
  // The reference: proleptic Gregorian day numbers
  // ---------------------------------------------------------------------

  /** Days from 1970-01-01 to the first day of `year`: 365 a year, and the leap days before it. */
  function YearStart(year: int): int {
    365 * (year - 1970) + Leaps(year - 1) - 477
  }

  /** Days of `year` before `month`. */
  function MonthStart(year: int, month: int): int {
    (367 * month - 362) / 12 - (if month <= 2 then 0 else if IsLeap(year) then 1 else 2)
  }

  function DayNumber(year: int, month: int, day: int): int {
    YearStart(year) + MonthStart(year, month) + day - 1
  }

  datatype Civil = Civil(year: int, month: nat, day: nat, hour: nat, minute: nat, second: nat)

  predicate Valid(c: Civil) {
    && 1 <= c.month <= 12 && 1 <= c.day <= DaysInMonth(c.year, c.month)
    && c.hour < 24 && c.minute < 60 && c.second < 60
  }

  function Seconds(c: Civil): int {
    86400 * DayNumber(c.year, c.month, c.day) + 3600 * c.hour + 60 * c.minute + c.second
  }

  lemma Multiples(n: int, d: int)
    requires d == 4 || d == 100 || d == 400
    ensures n / d - (n - 1) / d == if n % d == 0 then 1 else 0
  {
    if d == 4 {
      assert n / 4 - (n - 1) / 4 == if n % 4 == 0 then 1 else 0;
    } else if d == 100 {
      assert n / 100 - (n - 1) / 100 == if n % 100 == 0 then 1 else 0;
    } else {
      assert n / 400 - (n - 1) / 400 == if n % 400 == 0 then 1 else 0;
    }
  }

  lemma Hundreds(n: int)
    ensures n % 100 == 0 ==> n % 4 == 0
    ensures n % 400 == 0 ==> n % 100 == 0
  {
    assert n % 100 == 0 ==> n == 4 * (25 * (n / 100));
    assert n % 400 == 0 ==> n == 100 * (4 * (n / 400));
  }

  lemma NextYear(year: int)
    ensures YearStart(year + 1) == YearStart(year) + YearLength(year)
  {
    LeapDay(year);
    assert YearStart(year + 1) - YearStart(year) == 365 + Leaps(year) - Leaps(year - 1);
  }

  /** Leap years up to and including `year`, counted from year zero. */
  function Leaps(year: int): int {
    year / 4 - year / 100 + year / 400
  }

  lemma LeapDay(year: int)
    ensures Leaps(year) - Leaps(year - 1) == if IsLeap(year) then 1 else 0
  {
    Multiples(year, 4);
    Multiples(year, 100);
    Multiples(year, 400);
    Hundreds(year);
  }

  lemma NextMonth(year: int, month: nat)
    requires 1 <= month <= 12
    ensures month < 12 ==> MonthStart(year, month + 1) == MonthStart(year, month) + DaysInMonth(year, month)
    ensures month == 12 ==> MonthStart(year, month) + 31 == YearLength(year)
  {
  }

  // ---------------------------------------------------------------------
  // The two loops
  // ---------------------------------------------------------------------

  /** Walks to the year that holds the day, forwards or backwards. */
  method FindYear(dayNumber: int) returns (year: int, days: nat)
    ensures YearStart(year) + days == dayNumber && days < YearLength(year)
  {
    var left := dayNumber;
    year := 1970;
    while true
      invariant YearStart(year) + left == dayNumber
      decreases if left < 0 then 400 - left else left
    {
      var length := YearLength(year);
      if left >= length {
        NextYear(year);
        left := left - length;
        year := year + 1;
      } else if left < 0 {
        year := year - 1;
        NextYear(year);
        left := left + YearLength(year);
      } else {
        break;
      }
    }
    days := left;
  }

  /** Walks to the month; the month lengths adding up to the year's is what stops it. */
  method FindMonth(year: int, dayOfYear: nat) returns (month: nat, day: nat)
    requires dayOfYear < YearLength(year)
    ensures 1 <= month <= 12 && 1 <= day <= DaysInMonth(year, month)
    ensures MonthStart(year, month) + day - 1 == dayOfYear
  {
    var days := dayOfYear;
    month := 1;
    while days >= DaysInMonth(year, month)
      invariant 1 <= month <= 12 && days >= 0
      invariant MonthStart(year, month) + days == dayOfYear
      decreases 12 - month
    {
      NextMonth(year, month);
      days := days - DaysInMonth(year, month);
      month := month + 1;
    }
    day := days + 1;
  }

  method Parts(secs: int) returns (c: Civil)
    ensures Valid(c) && Seconds(c) == secs
  {
    var dayNumber := secs / 86400;
    var secOfDay := secs % 86400;
    var hour := secOfDay / 3600;
    secOfDay := secOfDay % 3600;
    var minute := secOfDay / 60;
    var second := secOfDay % 60;
    var year, days := FindYear(dayNumber);
    var month, day := FindMonth(year, days);
    c := Civil(year, month, day, hour, minute, second);
  }

  // ---------------------------------------------------------------------
  // The fields determine the instant, in order
  // ---------------------------------------------------------------------

  lemma {:induction false} YearsAscend(a: int, b: int)
    requires a < b
    ensures YearStart(a) + YearLength(a) <= YearStart(b)
    decreases b - a
  {
    NextYear(a);
    if a + 1 < b {
      YearsAscend(a + 1, b);
    }
  }

  lemma MonthsAscend(year: int, a: nat, b: nat)
    requires 1 <= a < b <= 12
    ensures MonthStart(year, a) + DaysInMonth(year, a) <= MonthStart(year, b)
    decreases b - a
  {
    NextMonth(year, a);
    if a + 1 < b {
      MonthsAscend(year, a + 1, b);
    }
  }

  /** Every valid month lies inside its year. */
  lemma MonthInside(year: int, month: nat, day: nat)
    requires 1 <= month <= 12 && 1 <= day <= DaysInMonth(year, month)
    ensures 0 <= MonthStart(year, month) + day - 1 < YearLength(year)
  {
    NextMonth(year, 12);
    if month < 12 {
      MonthsAscend(year, month, 12);
    }
    if month > 1 {
      MonthsAscend(year, 1, month);
    }
  }

  predicate EarlierDate(a: Civil, b: Civil) {
    a.year < b.year || (a.year == b.year && (a.month < b.month || (a.month == b.month && a.day < b.day)))
  }

  lemma DatesAscend(a: Civil, b: Civil)
    requires Valid(a) && Valid(b) && EarlierDate(a, b)
    ensures DayNumber(a.year, a.month, a.day) < DayNumber(b.year, b.month, b.day)
  {
    MonthInside(a.year, a.month, a.day);
    MonthInside(b.year, b.month, b.day);
    if a.year < b.year {
      YearsAscend(a.year, b.year);
    } else if a.month < b.month {
      MonthsAscend(a.year, a.month, b.month);
    }
  }

  predicate SameDate(a: Civil, b: Civil) {
    a.year == b.year && a.month == b.month && a.day == b.day
  }

  predicate EarlierTime(a: Civil, b: Civil) {
    a.hour < b.hour || (a.hour == b.hour && (a.minute < b.minute || (a.minute == b.minute && a.second < b.second)))
  }

  lemma TimesAscend(a: Civil, b: Civil)
    requires Valid(a) && Valid(b) && (EarlierDate(a, b) || (SameDate(a, b) && EarlierTime(a, b)))
    ensures Seconds(a) < Seconds(b)
  {
    if EarlierDate(a, b) {
      DatesAscend(a, b);
    }
  }

  /** At most one valid set of fields stands for a second count. */
  lemma PartsUnique(a: Civil, b: Civil)
    requires Valid(a) && Valid(b) && Seconds(a) == Seconds(b)
    ensures a == b
  {
    if EarlierDate(a, b) || (SameDate(a, b) && EarlierTime(a, b)) {
      TimesAscend(a, b);
    } else if EarlierDate(b, a) || (SameDate(b, a) && EarlierTime(b, a)) {
      TimesAscend(b, a);
    }
  }

  // ---------------------------------------------------------------------
  // The printed form
  // ---------------------------------------------------------------------

  /** The fields in order of significance, ending with the nanoseconds. */
  function Fields(c: Civil, nanos: nat): (f: seq<nat>)
    requires c.year >= 0
    ensures |f| == 7
  {
    [c.year, c.month, c.day, c.hour, c.minute, c.second, nanos]
  }

  const WIDTHS: seq<nat> := [4, 2, 2, 2, 2, 2, 9]
  /** `-`, `-`, space, `:`, `:`, `.` */
  const MARKS: Text := [45, 45, 32, 58, 58, 46]

  /** The fields from `k` on, zero-filled, with their separators. */
  function Render(fields: seq<nat>, k: nat): Text
    requires |fields| == 7 && k <= 6
    decreases 6 - k
  {
    Padded(fields[k], WIDTHS[k]) + (if k == 6 then [] else [MARKS[k]] + Render(fields, k + 1))
  }

  /** `YYYY-MM-DD HH:MM:SS.NNNNNNNNN`. */
  function Print(c: Civil, nanos: nat): Text
    requires c.year >= 0
  {
    Render(Fields(c, nanos), 0)
  }

  /** The fields stand for the instant `ns` nanoseconds after the epoch. */
  predicate Instant(ns: nat, c: Civil, nanos: nat) {
    Valid(c) && c.year >= 0 && nanos < 1_000_000_000 && 1_000_000_000 * Seconds(c) + nanos == ns
  }

  /** `text` is the printed form of `ns`. */
  ghost predicate Prints(ns: nat, text: Text) {
    exists c, nanos :: Instant(ns, c, nanos) && text == Print(c, nanos)
  }

  /** Every 64-bit nanosecond count falls in a four-digit year. */
  lemma FourDigits(c: Civil)
    requires Valid(c) && 0 <= Seconds(c) <= U64_MAX / 1_000_000_000
    ensures 1970 <= c.year < 2555
  {
    MonthInside(c.year, c.month, c.day);
    if c.year < 1970 {
      YearsAscend(c.year, 1970);
    }
    if c.year >= 2555 {
      if c.year > 2555 {
        YearsAscend(2555, c.year);
      }
    }
  }

  method FormatDateTime64(ns: u64) returns (text: Text)
    ensures Prints(ns, text)
  {
    var secs := ns / 1_000_000_000;
    var nanos := ns % 1_000_000_000;
    var c := Parts(secs);
    FourDigits(c);
    text := Print(c, nanos);
    assert Instant(ns, c, nanos);
  }

  predicate FitsWidths(fields: seq<nat>) {
    |fields| == 7 && forall i :: 0 <= i < 7 ==> fields[i] < Power10(WIDTHS[i])
  }

  lemma Powers()
    ensures Power10(2) == 100 && Power10(4) == 10000 && Power10(9) == 1_000_000_000
  {
    assert Power10(4) == 10 * Power10(3) && Power10(3) == 10 * Power10(2) && Power10(2) == 10 * Power10(1);
    assert Power10(9) == 10 * Power10(8) && Power10(8) == 10 * Power10(7) && Power10(7) == 10 * Power10(6);
    assert Power10(6) == 10 * Power10(5) && Power10(5) == 10 * Power10(4);
  }

  lemma InstantFits(ns: nat, c: Civil, nanos: nat)
    requires Instant(ns, c, nanos) && ns <= U64_MAX
    ensures FitsWidths(Fields(c, nanos))
  {
    FourDigits(c);
    Powers();
    assert DaysInMonth(c.year, c.month) <= 31;
  }

  lemma {:induction false} RenderLength(fields: seq<nat>, k: nat)
    requires FitsWidths(fields) && k <= 6
    ensures |Render(fields, k)| == (if k == 0 then 29 else 27 - 3 * k)
    decreases 6 - k
  {
    PaddedIsFixed(fields[k], WIDTHS[k]);
    if k < 6 {
      RenderLength(fields, k + 1);
    }
  }

  /** The first field that differs decides the order of the text. */
  lemma {:induction false} RenderBefore(a: seq<nat>, b: seq<nat>, k: nat, j: nat)
    requires FitsWidths(a) && FitsWidths(b) && k <= j <= 6
    requires a[k..j] == b[k..j] && a[j] < b[j]
    ensures Before(Render(a, k), Render(b, k))
    decreases j - k
  {
    PaddedIsFixed(a[k], WIDTHS[k]);
    PaddedIsFixed(b[k], WIDTHS[k]);
    if k < j {
      assert a[k..j][0] == b[k..j][0];
      assert a[k + 1..j] == a[k..j][1..] == b[k + 1..j];
      RenderBefore(a, b, k + 1, j);
      BeforePrefix([MARKS[k]], Render(a, k + 1), Render(b, k + 1));
      BeforePrefix(Padded(a[k], WIDTHS[k]), [MARKS[k]] + Render(a, k + 1), [MARKS[k]] + Render(b, k + 1));
    } else {
      FixedBefore(a[k], b[k], WIDTHS[k]);
      BeforeAppend(Padded(a[k], WIDTHS[k]), Padded(b[k], WIDTHS[k]),
                   if k == 6 then [] else [MARKS[k]] + Render(a, k + 1),
                   if k == 6 then [] else [MARKS[k]] + Render(b, k + 1));
    }
  }

  lemma EarlierOf(a: Civil, b: Civil)
    requires Valid(a) && Valid(b) && Seconds(a) < Seconds(b)
    ensures EarlierDate(a, b) || (SameDate(a, b) && EarlierTime(a, b))
  {
    if EarlierDate(b, a) || (SameDate(b, a) && EarlierTime(b, a)) {
      TimesAscend(b, a);
    }
  }

  /** Where the fields of two instants first differ. */
  lemma FirstDifference(n: nat, a: Civil, i: nat, m: nat, b: Civil, j: nat) returns (k: nat)
    requires Instant(n, a, i) && Instant(m, b, j) && n < m
    ensures k <= 6 && Fields(a, i)[0..k] == Fields(b, j)[0..k] && Fields(a, i)[k] < Fields(b, j)[k]
  {
    if Seconds(a) < Seconds(b) {
      EarlierOf(a, b);
      k := if a.year < b.year then 0 else if a.month < b.month then 1 else if a.day < b.day then 2
           else if a.hour < b.hour then 3 else if a.minute < b.minute then 4 else 5;
    } else {
      PartsUnique(a, b);
      k := 6;
    }
  }

  lemma PrintsBefore(n: u64, t: Text, m: u64, u: Text)
    requires Prints(n, t) && Prints(m, u) && n < m
    ensures Before(t, u)
  {
    var a, i :| Instant(n, a, i) && t == Print(a, i);
    var b, j :| Instant(m, b, j) && u == Print(b, j);
    InstantFits(n, a, i);
    InstantFits(m, b, j);
    var k := FirstDifference(n, a, i, m, b, j);
    RenderBefore(Fields(a, i), Fields(b, j), 0, k);
  }

  lemma InstantUnique(n: nat, a: Civil, i: nat, b: Civil, j: nat)
    requires Instant(n, a, i) && Instant(n, b, j)
    ensures a == b && i == j
  {
    assert Seconds(a) == n / 1_000_000_000 == Seconds(b);
    PartsUnique(a, b);
  }

  lemma PrintLength(n: u64, a: Civil, i: nat)
    requires Instant(n, a, i)
    ensures |Print(a, i)| == 29
  {
    InstantFits(n, a, i);
    RenderLength(Fields(a, i), 0);
  }

  lemma PrintsOnce(n: u64, t: Text, u: Text)
    requires Prints(n, t) && Prints(n, u)
    ensures t == u && |t| == 29
  {
    var a, i :| Instant(n, a, i) && t == Print(a, i);
    var b, j :| Instant(n, b, j) && u == Print(b, j);
    InstantUnique(n, a, i, b, j);
    PrintLength(n, a, i);
  }

  /**
   * For every 64-bit nanosecond count the printed form has 29 characters, is determined by the
   * count, determines it, and sorts as text exactly as the counts do.
   */
  lemma PrintedOrder(n: u64, t: Text, m: u64, u: Text)
    requires Prints(n, t) && Prints(m, u)
    ensures |t| == 29
    ensures n == m <==> t == u
    ensures n < m <==> Before(t, u)
  {
    PrintsOnce(n, t, t);
    BeforeIrreflexive(t);
    if n < m {
      PrintsBefore(n, t, m, u);
    } else if m < n {
      PrintsBefore(m, u, n, t);
      BeforeAsymmetric(u, t);
    } else {
      PrintsOnce(n, t, u);
    }
  }

  lemma {:induction false} FixedValue(n: nat, width: nat)
    requires n < Power10(width)
    ensures Value(Fixed(n, width)) == n
  {
    if width == 0 {
      assert Value([]) == 0;
    } else {
      FixedValue(n / 10, width - 1);
      var t := Fixed(n, width);
      assert t[..|t| - 1] == Fixed(n / 10, width - 1);
    }
  }

  lemma RenderStep(fields: seq<nat>, k: nat)
    requires FitsWidths(fields) && k < 6
    ensures Render(fields, k) == Fixed(fields[k], WIDTHS[k]) + ([MARKS[k]] + Render(fields, k + 1))
  {
    PaddedIsFixed(fields[k], WIDTHS[k]);
  }

  /** The date, as printed. */
  function DateText(c: Civil): Text
    requires c.year >= 0
  {
    Fixed(c.year, 4) + (Ascii("-") + (Fixed(c.month, 2) + (Ascii("-") + Fixed(c.day, 2))))
  }

  /** The time of day, as printed. */
  function TimeText(c: Civil, nanos: nat): Text {
    Fixed(c.hour, 2) + (Ascii(":") + (Fixed(c.minute, 2) + (Ascii(":") + (Fixed(c.second, 2) + (Ascii(".")
    + Fixed(nanos, 9))))))
  }

  lemma MarksAre()
    ensures Ascii("-") == [MARKS[0]] == [MARKS[1]] && Ascii(" ") == [MARKS[2]]
    ensures Ascii(":") == [MARKS[3]] == [MARKS[4]] && Ascii(".") == [MARKS[5]]
  {
  }

  lemma TimePrinted(c: Civil, nanos: nat)
    requires c.year >= 0 && FitsWidths(Fields(c, nanos))
    ensures Render(Fields(c, nanos), 3) == TimeText(c, nanos)
  {
    var f := Fields(c, nanos);
    MarksAre();
    RenderStep(f, 3);
    RenderStep(f, 4);
    RenderStep(f, 5);
    PaddedIsFixed(nanos, 9);
    assert Render(f, 6) == Fixed(nanos, 9) + [];
  }

  /** `2024-02-29 12:34:56.000000789`: date, a space, time, every field in its own place and width. */
  lemma PrintedShape(n: u64, c: Civil, nanos: nat)
    requires Instant(n, c, nanos)
    ensures Print(c, nanos) == DateText(c) + Ascii(" ") + TimeText(c, nanos)
    ensures Value(Fixed(c.year, 4)) == c.year && Value(Fixed(c.month, 2)) == c.month && Value(Fixed(c.day, 2)) == c.day
    ensures Value(Fixed(c.hour, 2)) == c.hour && Value(Fixed(c.minute, 2)) == c.minute
    ensures Value(Fixed(c.second, 2)) == c.second && Value(Fixed(nanos, 9)) == nanos
  {
    var f := Fields(c, nanos);
    InstantFits(n, c, nanos);
    MarksAre();
    DatePrinted(c, nanos);
    TimePrinted(c, nanos);
    FieldsValued(f);
  }

  lemma DatePrinted(c: Civil, nanos: nat)
    requires c.year >= 0 && FitsWidths(Fields(c, nanos))
    ensures Print(c, nanos) == DateText(c) + ([MARKS[2]] + Render(Fields(c, nanos), 3))
  {
    var f := Fields(c, nanos);
    MarksAre();
    RenderStep(f, 0);
    RenderStep(f, 1);
    RenderStep(f, 2);
  }

  lemma FieldsValued(f: seq<nat>)
    requires FitsWidths(f)
    ensures forall k :: 0 <= k < 7 ==> Value(Fixed(f[k], WIDTHS[k])) == f[k]
  {
    forall k | 0 <= k < 7 ensures Value(Fixed(f[k], WIDTHS[k])) == f[k] {
      FixedValue(f[k], WIDTHS[k]);
    }
  }
}
