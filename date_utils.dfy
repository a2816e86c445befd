/**
 * Calendar and time helpers of `utils/date.ts`.
 *
 * A calendar date is a proleptic Gregorian `(year, month, day)`. JavaScript reads a
 * `YYYY-MM-DD` text as midnight UTC and the helpers read local fields back; with a
 * zero offset both agree, which is what this model assumes. `getTime()` differences
 * are then whole multiples of a day, so a date is compared through its day number.
 */
module DateUtils {
  import opened Wrappers
  import opened Text

  datatype Date = Date(year: int, month: int, day: int)

  predicate IsLeapYear(y: int) {
    (y % 4 == 0 && y % 100 != 0) || y % 400 == 0
  }

  function DaysInMonth(y: int, m: int): int
    requires 1 <= m <= 12
  {
    if m == 2 then (if IsLeapYear(y) then 29 else 28)
    else if m == 4 || m == 6 || m == 9 || m == 11 then 30
    else 31
  }

  function DaysInYear(y: int): int {
    if IsLeapYear(y) then 366 else 365
  }

  /** A real calendar day. */
  predicate Valid(d: Date) {
    1 <= d.month <= 12 && 1 <= d.day <= DaysInMonth(d.year, d.month)
  }

  /** Days from 0001-01-01 to the first of January of `y`, counted year by year. */
  function DaysBeforeYear(y: int): int
    decreases if y >= 1 then y - 1 else 1 - y
  {
    if y == 1 then 0
    else if y > 1 then DaysBeforeYear(y - 1) + DaysInYear(y - 1)
    else DaysBeforeYear(y + 1) - DaysInYear(y)
  }

  /** Days from the first of January to the first of month `m` of year `y`. */
  function DaysBeforeMonth(y: int, m: int): (r: int)
    requires 1 <= m <= 12
    ensures 0 <= r
  {
    if m == 1 then 0 else DaysBeforeMonth(y, m - 1) + DaysInMonth(y, m - 1)
  }

  /** The day number of a date: consecutive days have consecutive numbers. */
  function DayNumber(d: Date): int
    requires Valid(d)
  {
    DaysBeforeYear(d.year) + DaysBeforeMonth(d.year, d.month) + d.day - 1
  }

  // ---------------------------------------------------------------------------
  // Day arithmetic (`d.setDate(d.getDate() + days)`)
  // ---------------------------------------------------------------------------

  /** The following day, rolling over the end of a month and of a year. */
  function NextDay(d: Date): (r: Date)
    requires Valid(d)
    ensures Valid(r)
  {
    if d.day < DaysInMonth(d.year, d.month) then d.(day := d.day + 1)
    else if d.month < 12 then Date(d.year, d.month + 1, 1)
    else Date(d.year + 1, 1, 1)
  }

  /** The preceding day, rolling back over the start of a month and of a year. */
  function PrevDay(d: Date): (r: Date)
    requires Valid(d)
    ensures Valid(r)
  {
    if d.day > 1 then d.(day := d.day - 1)
    else if d.month > 1 then Date(d.year, d.month - 1, DaysInMonth(d.year, d.month - 1))
    else Date(d.year - 1, 12, 31)
  }

  lemma PrevNextInverse(d: Date)
    requires Valid(d)
    ensures PrevDay(NextDay(d)) == d && NextDay(PrevDay(d)) == d
  {
  }

  /** `n` days after `d` (before it when `n` is negative). */
  function ShiftDays(d: Date, n: int): (r: Date)
    requires Valid(d)
    ensures Valid(r)
    decreases if n < 0 then -n else n
  {
    if n == 0 then d
    else if n > 0 then NextDay(ShiftDays(d, n - 1))
    else PrevDay(ShiftDays(d, n + 1))
  }

  /** Shifting by `a` and then by `b` is shifting by `a + b`. */
  lemma {:induction false} ShiftDaysAdd(d: Date, a: int, b: int)
    requires Valid(d)
    ensures ShiftDays(ShiftDays(d, a), b) == ShiftDays(d, a + b)
    decreases if b < 0 then -b else b
  {
    if b > 0 {
      ShiftDaysAdd(d, a, b - 1);
      if a + b <= 0 {
        PrevNextInverse(ShiftDays(d, a + b));
      }
    } else if b < 0 {
      ShiftDaysAdd(d, a, b + 1);
      if a + b >= 0 {
        PrevNextInverse(ShiftDays(d, a + b));
      }
    }
  }

  /** Going `n` days forward and then `n` days back returns to the same date. */
  lemma ShiftDaysInverse(d: Date, n: int)
    requires Valid(d)
    ensures ShiftDays(ShiftDays(d, n), -n) == d
  {
    ShiftDaysAdd(d, n, -n);
  }

  // ---------------------------------------------------------------------------
  // Day numbers and chronological order
  // ---------------------------------------------------------------------------

  lemma DaysBeforeYearStep(y: int)
    ensures DaysBeforeYear(y + 1) == DaysBeforeYear(y) + DaysInYear(y)
  {
  }

  lemma DaysBeforeDecember(y: int)
    ensures DaysBeforeMonth(y, 12) + 31 == DaysInYear(y)
  {
    var feb := DaysInMonth(y, 2);
    assert DaysBeforeMonth(y, 2) == 31;
    assert DaysBeforeMonth(y, 3) == 31 + feb;
    assert DaysBeforeMonth(y, 4) == 62 + feb;
    assert DaysBeforeMonth(y, 5) == 92 + feb;
    assert DaysBeforeMonth(y, 6) == 123 + feb;
    assert DaysBeforeMonth(y, 7) == 153 + feb;
    assert DaysBeforeMonth(y, 8) == 184 + feb;
    assert DaysBeforeMonth(y, 9) == 215 + feb;
    assert DaysBeforeMonth(y, 10) == 245 + feb;
    assert DaysBeforeMonth(y, 11) == 276 + feb;
    assert DaysBeforeMonth(y, 12) == 306 + feb;
  }

  lemma {:induction false} DaysBeforeMonthMono(y: int, m1: int, m2: int)
    requires 1 <= m1 < m2 <= 12
    ensures DaysBeforeMonth(y, m1) + DaysInMonth(y, m1) <= DaysBeforeMonth(y, m2)
    decreases m2
  {
    if m1 < m2 - 1 {
      DaysBeforeMonthMono(y, m1, m2 - 1);
    }
  }

  lemma {:induction false} DaysBeforeYearMono(y1: int, y2: int)
    requires y1 < y2
    ensures DaysBeforeYear(y1) + DaysInYear(y1) <= DaysBeforeYear(y2)
    decreases y2 - y1
  {
    DaysBeforeYearStep(y1);
    if y1 + 1 < y2 {
      DaysBeforeYearMono(y1 + 1, y2);
      DaysBeforeYearStep(y1 + 1);
    }
  }

  /** The last day of a year is numbered just before the first day of the next. */
  lemma DayNumberWithinYear(d: Date)
    requires Valid(d)
    ensures DaysBeforeYear(d.year) <= DayNumber(d) < DaysBeforeYear(d.year) + DaysInYear(d.year)
  {
    DaysBeforeDecember(d.year);
    if d.month < 12 {
      DaysBeforeMonthMono(d.year, d.month, 12);
    }
  }

  /** The calendar's field-by-field order. */
  predicate FieldsBefore(a: Date, b: Date) {
    a.year < b.year
    || (a.year == b.year && (a.month < b.month || (a.month == b.month && a.day < b.day)))
  }

  lemma FieldsBeforeNumber(a: Date, b: Date)
    requires Valid(a) && Valid(b) && FieldsBefore(a, b)
    ensures DayNumber(a) < DayNumber(b)
  {
    if a.year < b.year {
      DayNumberWithinYear(a);
      DayNumberWithinYear(b);
      DaysBeforeYearMono(a.year, b.year);
    } else if a.month < b.month {
      DaysBeforeMonthMono(a.year, a.month, b.month);
    }
  }

  /**
   * Comparing day numbers is the calendar's order: year first, then month, then day.
   * Equal day numbers mean the same date.
   */
  lemma DayNumberOrder(a: Date, b: Date)
    requires Valid(a) && Valid(b)
    ensures DayNumber(a) < DayNumber(b) <==> FieldsBefore(a, b)
    ensures DayNumber(a) == DayNumber(b) <==> a == b
  {
    if FieldsBefore(a, b) {
      FieldsBeforeNumber(a, b);
    } else if FieldsBefore(b, a) {
      FieldsBeforeNumber(b, a);
    }
  }

  lemma NextDayNumber(d: Date)
    requires Valid(d)
    ensures DayNumber(NextDay(d)) == DayNumber(d) + 1
  {
    if d.day == DaysInMonth(d.year, d.month) && d.month == 12 {
      DaysBeforeYearStep(d.year);
      DaysBeforeDecember(d.year);
    }
  }

  /** Shifting by `n` days adds `n` to the day number. */
  lemma {:induction false} ShiftDaysNumber(d: Date, n: int)
    requires Valid(d)
    ensures DayNumber(ShiftDays(d, n)) == DayNumber(d) + n
    decreases if n < 0 then -n else n
  {
    if n > 0 {
      ShiftDaysNumber(d, n - 1);
      NextDayNumber(ShiftDays(d, n - 1));
    } else if n < 0 {
      ShiftDaysNumber(d, n + 1);
      var e := ShiftDays(d, n + 1);
      NextDayNumber(PrevDay(e));
      PrevNextInverse(e);
    }
  }

  // ---------------------------------------------------------------------------
  // The `YYYY-MM-DD` text
  // ---------------------------------------------------------------------------

  /** `${n}` padded to two digits with "0" (see `Pad2IsPadStart`). */
  function Pad2(n: nat): string {
    if n < 10 then ['0', DigitChar(n)] else NatToString(n)
  }

  /** `toDateString`: the year unpadded, month and day zero-padded to two digits. */
  function ToDateString(d: Date): string
    requires Valid(d)
  {
    IntToString(d.year) + "-" + Pad2(d.month) + "-" + Pad2(d.day)
  }

  /**
   * `new Date(text)` for the texts the calendar produces: exactly `YYYY-MM-DD` naming a
   * real calendar day. Anything else is an Invalid Date (`None`).
   */
  function Parse(s: string): (r: Option<Date>)
    ensures r.Some? ==> Valid(r.value) && 0 <= r.value.year <= 9999
  {
    if |s| == 10 && IsDigit(s[0]) && IsDigit(s[1]) && IsDigit(s[2]) && IsDigit(s[3]) && s[4] == '-'
       && IsDigit(s[5]) && IsDigit(s[6]) && s[7] == '-' && IsDigit(s[8]) && IsDigit(s[9])
    then
      var d := Date(1000 * DigitValue(s[0]) + 100 * DigitValue(s[1]) + 10 * DigitValue(s[2]) + DigitValue(s[3]),
                    10 * DigitValue(s[5]) + DigitValue(s[6]),
                    10 * DigitValue(s[8]) + DigitValue(s[9]));
      if Valid(d) then Some(d) else None
    else None
  }

  lemma NatToStringLength(n: nat)
    ensures n < 10 ==> |NatToString(n)| == 1
    ensures 10 <= n < 100 ==> |NatToString(n)| == 2
    ensures 100 <= n < 1000 ==> |NatToString(n)| == 3
    ensures 1000 <= n < 10000 ==> |NatToString(n)| == 4
    ensures 10000 <= n ==> |NatToString(n)| >= 5
  {
    if n >= 10 {
      NatToStringLength(n / 10);
    }
  }

  /** `padStart(2, "0")` on the printed number is the two-digit form. */
  lemma Pad2IsPadStart(n: nat)
    ensures Pad2(n) == PadStart(NatToString(n), 2)
  {
    NatToStringLength(n);
    if n < 10 {
      assert Repeat('0', 1) == ['0'];
    }
  }

  /** The two characters of a number below 100, padded. */
  lemma Pad2Chars(n: nat)
    requires n <= 99
    ensures Pad2(n) == [DigitChar(n / 10), DigitChar(n % 10)]
  {
    if n >= 10 {
      assert NatToString(n) == NatToString(n / 10) + [DigitChar(n % 10)];
    }
  }

  /** The four characters of a four-digit year. */
  lemma YearChars(y: nat)
    requires 1000 <= y <= 9999
    ensures IntToString(y) == [DigitChar(y / 1000), DigitChar(y / 100 % 10), DigitChar(y / 10 % 10), DigitChar(y % 10)]
  {
    assert y / 10 / 10 == y / 100 && y / 100 / 10 == y / 1000;
    assert NatToString(y / 100) == NatToString(y / 1000) + [DigitChar(y / 100 % 10)];
    assert NatToString(y / 10) == NatToString(y / 100) + [DigitChar(y / 10 % 10)];
    assert NatToString(y) == NatToString(y / 10) + [DigitChar(y % 10)];
  }

  /** The ten characters of the text of a date with a four-digit year. */
  lemma DateStringChars(d: Date)
    requires Valid(d) && 1000 <= d.year <= 9999
    ensures var y, m, dd := d.year, d.month, d.day;
            ToDateString(d)
            == [DigitChar(y / 1000), DigitChar(y / 100 % 10), DigitChar(y / 10 % 10), DigitChar(y % 10), '-',
                DigitChar(m / 10), DigitChar(m % 10), '-', DigitChar(dd / 10), DigitChar(dd % 10)]
  {
    YearChars(d.year);
    Pad2Chars(d.month);
    Pad2Chars(d.day);
  }

  lemma FourDigitsValue(y: int)
    requires 0 <= y <= 9999
    ensures 1000 * (y / 1000) + 100 * (y / 100 % 10) + 10 * (y / 10 % 10) + y % 10 == y
  {
  }

  /** A date with a four-digit year prints as a text that reads back as the same date. */
  lemma ParseToDateString(d: Date)
    requires Valid(d) && 1000 <= d.year <= 9999
    ensures Parse(ToDateString(d)) == Some(d)
  {
    DateStringChars(d);
    FourDigitsValue(d.year);
    FourDigitsValue(d.month);
    FourDigitsValue(d.day);
  }

  /** A year outside 1000..9999 does not print as four digits, so the text does not read back. */
  lemma ParseToDateStringOutside(d: Date)
    requires Valid(d) && !(1000 <= d.year <= 9999)
    ensures Parse(ToDateString(d)) == None
  {
    var s := ToDateString(d);
    Pad2Chars(d.month);
    Pad2Chars(d.day);
    if d.year < 0 {
      assert s[0] == '-';
    } else {
      NatToStringLength(d.year);
      assert |s| != 10;
    }
  }

  /** A number below 10000 has one decimal representation with four digits. */
  lemma DecimalDigitsUnique(a0: int, a1: int, a2: int, a3: int, b0: int, b1: int, b2: int, b3: int)
    requires 0 <= a0 <= 9 && 0 <= a1 <= 9 && 0 <= a2 <= 9 && 0 <= a3 <= 9
    requires 0 <= b0 <= 9 && 0 <= b1 <= 9 && 0 <= b2 <= 9 && 0 <= b3 <= 9
    requires 1000 * a0 + 100 * a1 + 10 * a2 + a3 == 1000 * b0 + 100 * b1 + 10 * b2 + b3
    ensures a0 == b0 && a1 == b1 && a2 == b2 && a3 == b3
  {
  }

  /** Two texts that read as the same date are the same text. */
  lemma ParseInjective(a: string, b: string)
    requires Parse(a).Some? && Parse(a) == Parse(b)
    ensures a == b
  {
    DecimalDigitsUnique(DigitValue(a[0]), DigitValue(a[1]), DigitValue(a[2]), DigitValue(a[3]),
                        DigitValue(b[0]), DigitValue(b[1]), DigitValue(b[2]), DigitValue(b[3]));
    DecimalDigitsUnique(0, 0, DigitValue(a[5]), DigitValue(a[6]), 0, 0, DigitValue(b[5]), DigitValue(b[6]));
    DecimalDigitsUnique(0, 0, DigitValue(a[8]), DigitValue(a[9]), 0, 0, DigitValue(b[8]), DigitValue(b[9]));
    forall i | 0 <= i < 10
      ensures a[i] == b[i]
    {
      if i != 4 && i != 7 {
        assert DigitValue(a[i]) == DigitValue(b[i]);
      }
    }
  }

  /**
   * `toDateString` and reading back are inverse: a date prints as a text that reads
   * back as that date, and a text that reads as a date with a four-digit year is the
   * text that date prints as.
   */
  lemma DateStringRoundTrip(s: string, d: Date)
    requires Valid(d) && 1000 <= d.year <= 9999
    ensures Parse(ToDateString(d)) == Some(d)
    ensures Parse(s) == Some(d) ==> s == ToDateString(d)
  {
    ParseToDateString(d);
    if Parse(s) == Some(d) {
      ParseInjective(s, ToDateString(d));
    }
  }

  /** Reading `toDateString`'s text back gives the date exactly when the year has four digits. */
  lemma ParseOfToDateString(d: Date)
    requires Valid(d)
    ensures Parse(ToDateString(d)) == if 1000 <= d.year <= 9999 then Some(d) else None
  {
    if 1000 <= d.year <= 9999 {
      ParseToDateString(d);
    } else {
      ParseToDateStringOutside(d);
    }
  }

  // ---------------------------------------------------------------------------
  // The exported helpers
  // ---------------------------------------------------------------------------

  /** The text `toDateString` prints for an Invalid Date. */
  const InvalidDateText: string := "NaN-NaN-NaN"

  /** `addDays`: the date `days` days later, as `YYYY-MM-DD`. */
  function AddDays(s: string, days: int): string {
    match Parse(s)
    case None => InvalidDateText
    case Some(d) => ToDateString(ShiftDays(d, days))
  }

  /** `isBefore`: strictly earlier; any comparison with an Invalid Date is false. */
  predicate IsBefore(a: string, b: string) {
    Parse(a).Some? && Parse(b).Some? && DayNumber(Parse(a).value) < DayNumber(Parse(b).value)
  }

  /** A text that reads as a date whose year has four digits. */
  predicate IsDateText(s: string) {
    Parse(s).Some? && Parse(s).value.year >= 1000
  }

  /** A date text is the text its date prints as. */
  lemma DateTextCanonical(s: string)
    requires IsDateText(s)
    ensures ToDateString(Parse(s).value) == s
  {
    DateStringRoundTrip(s, Parse(s).value);
  }

  /** `isBefore` on date texts is the calendar's order of their year, month and day. */
  lemma IsBeforeFields(a: string, b: string)
    requires Parse(a).Some? && Parse(b).Some?
    ensures IsBefore(a, b) <==> FieldsBefore(Parse(a).value, Parse(b).value)
  {
    DayNumberOrder(Parse(a).value, Parse(b).value);
  }

  /** `isBefore` is a strict order, and any two distinct date texts are ordered one way or the other. */
  lemma IsBeforeStrictTotal(a: string, b: string, c: string)
    ensures !IsBefore(a, a)
    ensures IsBefore(a, b) && IsBefore(b, c) ==> IsBefore(a, c)
    ensures Parse(a).Some? && Parse(b).Some? && a != b ==> IsBefore(a, b) || IsBefore(b, a)
  {
    if Parse(a).Some? && Parse(b).Some? && a != b {
      DayNumberOrder(Parse(a).value, Parse(b).value);
      if Parse(a) == Parse(b) {
        ParseInjective(a, b);
      }
    }
  }

  /**
   * `addDays` by `n` and then by `-n` gives the text back, provided the intermediate
   * date still has a four-digit year.
   */
  lemma AddDaysInverse(s: string, n: int)
    requires IsDateText(s)
    requires 1000 <= ShiftDays(Parse(s).value, n).year <= 9999
    ensures AddDays(AddDays(s, n), -n) == s
  {
    var d := Parse(s).value;
    ParseToDateString(ShiftDays(d, n));
    ShiftDaysInverse(d, n);
    DateTextCanonical(s);
  }

  /** Adding `a` days and then `b` days is adding `a + b` days, while years keep four digits. */
  lemma AddDaysAdd(s: string, a: int, b: int)
    requires Parse(s).Some?
    requires 1000 <= ShiftDays(Parse(s).value, a).year <= 9999
    ensures AddDays(AddDays(s, a), b) == AddDays(s, a + b)
  {
    var d := Parse(s).value;
    ParseToDateString(ShiftDays(d, a));
    ShiftDaysAdd(d, a, b);
  }

  /** A later day is after: the text `n > 0` days on is after `s` whenever it reads back. */
  lemma AddDaysIsAfter(s: string, n: int)
    requires Parse(s).Some? && n > 0
    requires Parse(AddDays(s, n)).Some?
    ensures IsBefore(s, AddDays(s, n))
  {
    var e := ShiftDays(Parse(s).value, n);
    ParseOfToDateString(e);
    ShiftDaysNumber(Parse(s).value, n);
  }

  /** An Invalid Date prints as `NaN-NaN-NaN`, which itself reads as an Invalid Date. */
  lemma AddDaysInvalid(s: string, n: int)
    requires Parse(s).None?
    ensures AddDays(s, n) == InvalidDateText && Parse(AddDays(s, n)).None?
  {
    assert InvalidDateText[..4] == "NaN-";
    assert !IsDigit(InvalidDateText[..4][0]);
  }

  /**
   * `formatDisplay`: `DD/MM/YYYY` for a date text, and "" for a missing, empty or
   * unreadable one.
   */
  function FormatDisplay(s: Option<string>): (r: string)
    ensures r == "" <==> !Truthy(s) || Parse(s.value).None?
  {
    if !Truthy(s) then ""
    else match Parse(s.value)
      case None => ""
      case Some(d) => Pad2(d.day) + "/" + Pad2(d.month) + "/" + IntToString(d.year)
  }

  /** The display form lists the day, month and year fields of the date text in reverse order. */
  lemma FormatDisplayReorders(s: string)
    requires IsDateText(s)
    ensures FormatDisplay(Some(s)) == s[8..] + "/" + s[5..7] + "/" + s[..4]
  {
    var d := Parse(s).value;
    DateTextCanonical(s);
    YearChars(d.year);
    Pad2Chars(d.month);
    Pad2Chars(d.day);
    assert s[..4] == IntToString(d.year) && s[5..7] == Pad2(d.month) && s[8..] == Pad2(d.day);
  }

  /** The hour of a 12-hour clock for hour `h` of the day, computed from the remainder by 12. */
  function ClockHour(h: int): int {
    if h % 12 == 0 then 12 else h % 12
  }

  /**
   * `to12HourFormat`: the hour on a 12-hour clock, the minutes padded to two places and
   * the period. Both fields go through `Number`, so an unreadable one prints as NaN;
   * text without ":" has no minutes and `minutes.toString()` throws (`None`).
   */
  function To12HourFormat(time24: string): (r: Option<string>)
    ensures r.None? <==> ':' !in time24
  {
    var fields := Split(time24, ':');
    if |fields| < 2 then
      assert ':' !in time24 by {
        JoinSplit(time24, ':');
      }
      None
    else
      assert ':' in time24 by {
        JoinSplit(time24, ':');
        assert time24 == fields[0] + [':'] + Join(fields[1..], ':');
        assert time24[|fields[0]|] == ':';
      }
      var hours := NumberOf(fields[0]);
      var minutes := NumberOf(fields[1]);
      Some(Hours12(hours).ToString() + ":" + PadStart(minutes.ToString(), 2) + " " + Period(hours))
  }

  /** `hours >= 12 ? "PM" : "AM"`; NaN compares false. */
  function Period(hours: Num): string {
    if hours.Int? && hours.value >= 12 then "PM" else "AM"
  }

  /** `hours === 0 ? 12 : hours > 12 ? hours - 12 : hours`. */
  function Hours12(hours: Num): Num {
    if hours == Int(0) then Int(12)
    else if hours.Int? && hours.value > 12 then Int(hours.value - 12)
    else hours
  }

  /**
   * On a `HH:mm` text for a time of day, `to12HourFormat` gives the hour modulo 12
   * (12 for noon and midnight), the minutes unchanged and AM before noon, PM from noon.
   */
  lemma To12HourFormatOfTime(h: nat, m: nat)
    requires h <= 23 && m <= 59
    ensures To12HourFormat(Pad2(h) + ":" + Pad2(m))
         == Some(IntToString(ClockHour(h)) + ":" + Pad2(m) + " " + (if h < 12 then "AM" else "PM"))
  {
    var hh, mm := Pad2(h), Pad2(m);
    var t := hh + ":" + mm;
    TimeTextFields(h, m);
    NumberOfPad2(h);
    NumberOfPad2(m);
    assert To12HourFormat(t)
        == Some(Hours12(Int(h)).ToString() + ":" + PadStart(Int(m).ToString(), 2) + " " + Period(Int(h)));
    Hours12ClockHour(h);
  }

  /** The source's three-way rule agrees with the remainder by 12 for every hour of the day. */
  lemma Hours12ClockHour(h: nat)
    requires h <= 23
    ensures Hours12(Int(h)) == Int(ClockHour(h)) && Period(Int(h)) == if h < 12 then "AM" else "PM"
  {
    if 0 < h < 12 {
      assert h % 12 == h;
    } else if h > 12 {
      assert h % 12 == h - 12;
    }
  }

  lemma TimeTextFields(h: nat, m: nat)
    requires h <= 99 && m <= 99
    ensures Split(Pad2(h) + ":" + Pad2(m), ':') == [Pad2(h), Pad2(m)]
  {
    Pad2Digits(h);
    Pad2Digits(m);
    SplitAfterField(Pad2(h), ':', Pad2(m));
    SplitNoSeparator(Pad2(m), ':');
  }

  lemma NumberOfPad2(n: nat)
    requires n <= 99
    ensures NumberOf(Pad2(n)) == Int(n) && PadStart(Int(n).ToString(), 2) == Pad2(n)
  {
    Pad2Digits(n);
    Pad2IsPadStart(n);
  }

  /** Two-digit text for an hour, including 0. */
  lemma Pad2Digits(n: nat)
    requires n <= 99
    ensures |Pad2(n)| == 2 && AllDigits(Pad2(n)) && DigitsValue(Pad2(n)) == n && ':' !in Pad2(n)
    ensures Trim(Pad2(n)) == Pad2(n)
  {
    var p := Pad2(n);
    Pad2Chars(n);
    assert IsDigit(p[0]) && IsDigit(p[1]) && p[0] != ':' && p[1] != ':';
    assert p[..1] == [p[0]] && p[..1][..0] == [];
    assert DigitsValue(p[..1]) == DigitValue(p[0]);
    assert DigitsValue(p) == DigitsValue(p[..1]) * 10 + DigitValue(p[1]);
    assert DigitValue(p[0]) == n / 10 && DigitValue(p[1]) == n % 10;
    assert !IsSpace(p[0]) && !IsSpace(p[1]);
    assert TrimStart(p) == p;
  }

  // ---------------------------------------------------------------------------
  // buildMarkedDates
  // ---------------------------------------------------------------------------

  /** The period-marking entry of one calendar day; an absent flag is `false`. */
  datatype Marking = Marking(startingDay: bool, endingDay: bool, color: string, textColor: string)

  const RangeColor: string := "#fff"
  const RangeTextColor: string := "#000"

  function Mark(startingDay: bool, endingDay: bool): Marking {
    Marking(startingDay, endingDay, RangeColor, RangeTextColor)
  }

  /** The two ends of a range, earlier first. */
  datatype Span = Span(from: string, to: string)

  /** `isBefore(start, end) ? [start, end] : [end, start]`. */
  function Ordered(a: string, b: string): (r: Span)
    ensures r == Span(a, b) || r == Span(b, a)
  {
    if IsBefore(a, b) then Span(a, b) else Span(b, a)
  }

  /** For two distinct date texts the order of the arguments does not matter, and `from` is before `to`. */
  lemma OrderedSymmetric(a: string, b: string)
    requires Parse(a).Some? && Parse(b).Some? && a != b
    ensures Ordered(a, b) == Ordered(b, a)
    ensures IsBefore(Ordered(a, b).from, Ordered(a, b).to)
  {
    IsBeforeStrictTotal(a, b, a);
    IsBeforeStrictTotal(b, a, b);
  }

  /** Both ends of a selection are distinct date texts. */
  predicate IsRange(start: Option<string>, end: Option<string>) {
    start.Some? && end.Some? && start.value != end.value
    && IsDateText(start.value) && IsDateText(end.value)
  }

  /** Days from `from` to `to`. */
  function SpanDays(span: Span): int
    requires Parse(span.from).Some? && Parse(span.to).Some?
  {
    DayNumber(Parse(span.to).value) - DayNumber(Parse(span.from).value)
  }

  /** Days still to walk from the cursor to `to`; 0 once either stops reading as a date. */
  function Gap(cursor: string, to: string): int {
    if Parse(cursor).Some? && Parse(to).Some?
    then DayNumber(Parse(to).value) - DayNumber(Parse(cursor).value)
    else 0
  }

  /** One step of `addDays(cursor, 1)`: the day number grows by one or the text stops reading as a date. */
  lemma AddOneDay(s: string)
    requires Parse(s).Some?
    ensures Parse(AddDays(s, 1)).Some? ==>
              DayNumber(Parse(AddDays(s, 1)).value) == DayNumber(Parse(s).value) + 1
  {
    var d := Parse(s).value;
    ParseOfToDateString(ShiftDays(d, 1));
    ShiftDaysNumber(d, 1);
  }

  /** `k` applications of `step`, starting from `x`. */
  function Walk(step: string -> string, x: string, k: nat): string {
    if k == 0 then x else step(Walk(step, x, k - 1))
  }

  /** The first `n` points of a walk. */
  ghost function Walks(step: string -> string, x: string, n: nat): (r: seq<string>)
    ensures |r| == n
  {
    if n == 0 then [] else Walks(step, x, n - 1) + [Walk(step, x, n - 1)]
  }

  lemma {:induction false} WalksIndex(step: string -> string, x: string, n: nat, k: nat)
    requires k < n
    ensures Walks(step, x, n)[k] == Walk(step, x, k)
  {
    if k < n - 1 {
      WalksIndex(step, x, n - 1, k);
    }
  }

  /** One step of the loop: `addDays(cursor, 1)`. */
  const NextDayText: string -> string := s => AddDays(s, 1)

  /** The loop's cursor after `k` steps from `from`. */
  function DayText(from: string, k: nat): string {
    Walk(NextDayText, from, k)
  }

  /** Every day between the ends of a range reads back from its text with the expected day number. */
  lemma DayInSpan(span: Span, k: int)
    requires IsDateText(span.from) && IsDateText(span.to)
    requires 0 <= k <= SpanDays(span)
    ensures Parse(AddDays(span.from, k)) == Some(ShiftDays(Parse(span.from).value, k))
    ensures 1000 <= ShiftDays(Parse(span.from).value, k).year <= 9999
    ensures DayNumber(ShiftDays(Parse(span.from).value, k)) == DayNumber(Parse(span.from).value) + k
  {
    var fd, td := Parse(span.from).value, Parse(span.to).value;
    var x := ShiftDays(fd, k);
    ShiftDaysNumber(fd, k);
    DayNumberOrder(x, fd);
    DayNumberOrder(td, x);
    ParseToDateString(x);
  }

  /** Adding no days to a date text gives it back. */
  lemma AddZeroDays(s: string)
    requires IsDateText(s)
    ensures AddDays(s, 0) == s
  {
    var d := Parse(s).value;
    DateTextCanonical(s);
    assert ShiftDays(d, 0) == d;
  }

  /** Walking a range one `addDays(…, 1)` at a time visits exactly the dates `addDays(from, k)`. */
  lemma {:induction false} DayTextIsAddDays(span: Span, k: nat)
    requires IsDateText(span.from) && IsDateText(span.to)
    requires k <= SpanDays(span)
    ensures DayText(span.from, k) == AddDays(span.from, k)
  {
    if k == 0 {
      AddZeroDays(span.from);
    } else {
      DayTextIsAddDays(span, k - 1);
      DayTextStep(span, k);
    }
  }

  /** One more step of the walk is one more day added. */
  lemma DayTextStep(span: Span, k: nat)
    requires IsDateText(span.from) && IsDateText(span.to)
    requires 1 <= k <= SpanDays(span)
    requires DayText(span.from, k - 1) == AddDays(span.from, k - 1)
    ensures DayText(span.from, k) == AddDays(span.from, k)
  {
    var fd := Parse(span.from).value;
    var prev := DayText(span.from, k - 1);
    var x := ShiftDays(fd, k - 1);
    DayInSpan(span, k - 1);
    ShiftDaysAdd(fd, k - 1, 1);
    assert Parse(prev) == Some(x);
    calc {
      DayText(span.from, k);
      AddDays(prev, 1);
      ToDateString(ShiftDays(x, 1));
      ToDateString(ShiftDays(fd, k));
      AddDays(span.from, k);
    }
  }

  /** The `k`-th step of a range is the date `k` days after `from`, and its text reads back as that date. */
  lemma DayTextReadsBack(span: Span, k: nat)
    requires IsDateText(span.from) && IsDateText(span.to)
    requires k <= SpanDays(span)
    ensures Parse(DayText(span.from, k)) == Some(ShiftDays(Parse(span.from).value, k))
    ensures DayNumber(Parse(DayText(span.from, k)).value) == DayNumber(Parse(span.from).value) + k
  {
    DayTextIsAddDays(span, k);
    DayInSpan(span, k);
  }

  /** The last day of a range prints as `to`. */
  lemma SpanLast(span: Span)
    requires IsDateText(span.from) && IsDateText(span.to)
    requires 0 <= SpanDays(span)
    ensures DayText(span.from, SpanDays(span)) == span.to
  {
    var fd, td := Parse(span.from).value, Parse(span.to).value;
    var n := SpanDays(span);
    var x := ShiftDays(fd, n);
    DayTextIsAddDays(span, n);
    assert AddDays(span.from, n) == ToDateString(x);
    ShiftDaysNumber(fd, n);
    DayNumberOrder(x, td);
    assert x == td;
    DateTextCanonical(span.to);
  }

  /** The loop goes on exactly while fewer than `SpanDays(span)` steps have been taken. */
  lemma CursorBeforeEnd(span: Span, i: nat)
    requires IsDateText(span.from) && IsDateText(span.to)
    requires i <= SpanDays(span)
    ensures IsBefore(DayText(span.from, i), span.to) <==> i < SpanDays(span)
  {
    DayTextReadsBack(span, i);
  }

  /** Different days of a range print as different texts. */
  lemma DistinctDaysInSpan(span: Span, j: nat, k: nat)
    requires IsDateText(span.from) && IsDateText(span.to)
    requires j < k <= SpanDays(span)
    ensures DayText(span.from, j) != DayText(span.from, k)
  {
    DayTextReadsBack(span, j);
    DayTextReadsBack(span, k);
  }

  /** The next cursor of a range has not been visited yet. */
  lemma DayFresh(span: Span, i: nat)
    requires IsDateText(span.from) && IsDateText(span.to) && i <= SpanDays(span)
    ensures DayText(span.from, i) !in Walks(NextDayText, span.from, i)
  {
    forall k | 0 <= k < i
      ensures Walks(NextDayText, span.from, i)[k] != DayText(span.from, i)
    {
      WalksIndex(NextDayText, span.from, i, k);
      DistinctDaysInSpan(span, k, i);
    }
  }

  /**
   * The marks written for the visited days `keys`: one entry per day, the later ones plain.
   */
  ghost predicate MarkedPrefix(keys: seq<string>, marked: map<string, Marking>) {
    |marked| == |keys|
    && (forall k | 0 <= k < |keys| :: keys[k] in marked)
    && (forall k | 0 < k < |keys| :: marked[keys[k]] == Mark(false, false))
    && (forall key | key in marked :: key in keys)
  }

  /** Marking an unvisited day as plain extends the prefix by that day. */
  lemma MarkedPrefixStep(keys: seq<string>, marked: map<string, Marking>, next: string)
    requires MarkedPrefix(keys, marked) && |keys| >= 1 && next !in keys
    ensures MarkedPrefix(keys + [next], marked[next := Mark(false, false)])
  {
    assert next !in marked;
    var keys', marked' := keys + [next], marked[next := Mark(false, false)];
    forall k | 0 < k < |keys'|
      ensures marked'[keys'[k]] == Mark(false, false)
    {
      if k < |keys| {
        assert keys'[k] == keys[k] && keys[k] != next;
      }
    }
  }

  /** Marking an unvisited `to` as ending adds one more entry and keeps the plain marks. */
  lemma MarkedPrefixLast(keys: seq<string>, marked: map<string, Marking>, to: string)
    requires MarkedPrefix(keys, marked) && to !in keys
    ensures var last := marked[to := Mark(false, true)];
            |last| == |keys| + 1
            && (forall k | 0 <= k < |keys| :: keys[k] in last)
            && (forall k | 0 < k < |keys| :: last[keys[k]] == Mark(false, false))
  {
    assert to !in marked;
  }

  /**
   * What holds at the head of the loop of `buildMarkedDates`: `from` is marked as starting and
   * the cursor is after it; for a proper range (`range`), the first `i` days are marked and the
   * cursor is the next one.
   */
  ghost predicate MarkInvariant(from: string, to: string, range: bool, marked: map<string, Marking>,
                                cursor: string, keys: seq<string>, i: nat)
  {
    from in marked && marked[from] == Mark(true, false)
    && (Parse(cursor).Some? ==>
          Parse(from).Some? && DayNumber(Parse(from).value) < DayNumber(Parse(cursor).value))
    && (range ==>
          IsDateText(from) && IsDateText(to) && 1 <= i <= SpanDays(Span(from, to))
          && cursor == DayText(from, i) && keys == Walks(NextDayText, from, i) && MarkedPrefix(keys, marked))
  }

  lemma MarkInit(from: string, to: string, range: bool)
    requires range ==> IsDateText(from) && IsDateText(to) && IsBefore(from, to)
    ensures MarkInvariant(from, to, range, map[from := Mark(true, false)], AddDays(from, 1), [from], 1)
  {
    if Parse(from).Some? {
      AddOneDay(from);
    } else {
      AddDaysInvalid(from, 1);
    }
    if range {
      assert Walks(NextDayText, from, 1) == [from];
    }
  }

  lemma MarkStep(from: string, to: string, range: bool, marked: map<string, Marking>,
                 cursor: string, keys: seq<string>, i: nat)
    requires MarkInvariant(from, to, range, marked, cursor, keys, i) && IsBefore(cursor, to)
    ensures MarkInvariant(from, to, range, marked[cursor := Mark(false, false)], AddDays(cursor, 1), keys + [cursor], i + 1)
    ensures 0 <= Gap(AddDays(cursor, 1), to) < Gap(cursor, to)
  {
    AddOneDay(cursor);
    if range {
      var span := Span(from, to);
      CursorBeforeEnd(span, i);
      DayFresh(span, i);
      MarkedPrefixStep(keys, marked, cursor);
      assert AddDays(cursor, 1) == DayText(from, i + 1);
    }
  }

  lemma MarkExit(from: string, to: string, range: bool, marked: map<string, Marking>,
                 cursor: string, keys: seq<string>, i: nat)
    requires MarkInvariant(from, to, range, marked, cursor, keys, i) && !IsBefore(cursor, to) && from != to
    ensures var last := marked[to := Mark(false, true)];
            from in last && last[from] == Mark(true, false)
            && (range ==>
                  var n := SpanDays(Span(from, to));
                  var days := Walks(NextDayText, from, n + 1);
                  1 <= n && |last| == n + 1 && days[0] == from && days[n] == to
                  && (forall k | 0 <= k <= n :: days[k] in last)
                  && (forall k | 0 < k < n :: last[days[k]] == Mark(false, false)))
  {
    if range {
      var span := Span(from, to);
      var n := SpanDays(span);
      CursorBeforeEnd(span, i);
      assert i == n;
      SpanLast(span);
      DayFresh(span, n);
      MarkedPrefixLast(keys, marked, to);
      assert Walks(NextDayText, from, n + 1) == keys + [to];
    }
  }

  /**
   * `buildMarkedDates`: nothing for no start; a single day marked as both ends when there
   * is no distinct end; otherwise every day from the earlier end through the later one,
   * the first marked as starting, the last as ending and the days between plain.
   */
  method BuildMarkedDates(start: Option<string>, end: Option<string>) returns (marked: map<string, Marking>)
    ensures !Truthy(start) ==> marked == map[]
    ensures Truthy(start) && (!Truthy(end) || start == end) ==> marked == map[start.value := Mark(true, true)]
    ensures Truthy(start) && Truthy(end) && start != end ==>
              var span := Ordered(start.value, end.value);
              span.from in marked && marked[span.from] == Mark(true, false)
              && span.to in marked && marked[span.to] == Mark(false, true)
    ensures IsRange(start, end) ==>
              var span := Ordered(start.value, end.value);
              var n := SpanDays(span);
              var days := Walks(NextDayText, span.from, n + 1);
              1 <= n && |marked| == n + 1 && days[0] == span.from && days[n] == span.to
              && (forall k | 0 <= k <= n :: days[k] in marked)
              && (forall k | 0 < k < n :: marked[days[k]] == Mark(false, false))
  {
    if !Truthy(start) {
      return map[];
    }
    if !Truthy(end) || start == end {
      return map[start.value := Mark(true, true)];
    }
    var span := Ordered(start.value, end.value);
    var from, to := span.from, span.to;
    ghost var range := IsRange(start, end);
    if range {
      OrderedSymmetric(start.value, end.value);
    }
    marked := map[from := Mark(true, false)];
    var cursor := AddDays(from, 1);
    ghost var i: nat := 1;
    ghost var keys := [from];
    MarkInit(from, to, range);
    while IsBefore(cursor, to)
      invariant MarkInvariant(from, to, range, marked, cursor, keys, i)
      decreases Gap(cursor, to)
    {
      MarkStep(from, to, range, marked, cursor, keys, i);
      marked := marked[cursor := Mark(false, false)];
      keys := keys + [cursor];
      cursor := AddDays(cursor, 1);
      i := i + 1;
    }
    MarkExit(from, to, range, marked, cursor, keys, i);
    marked := marked[to := Mark(false, true)];
  }
}
