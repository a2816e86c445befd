/**
 * The order summary screen: the pickup and dropoff times as a 12-hour clock, the number
 * of rental days, the add-ons passed as JSON, the price lines, and the payment state.
 */
module OrderSummary {
  import opened Wrappers
  import opened Text
  import opened DateUtils

  // ---------------------------------------------------------------------------
  // formatTime
  // ---------------------------------------------------------------------------

  /** The two characters spell `am` or `pm` in any case (the `/i` flag folds ASCII only). */
  predicate IsMeridiemPair(c0: char, c1: char) {
    (UpperChar(c0) == 'A' || UpperChar(c0) == 'P') && UpperChar(c1) == 'M'
  }

  /** `\b(am|pm)\b` matches at index `i`. */
  predicate MeridiemAt(raw: string, i: int) {
    0 <= i && i + 2 <= |raw| && IsMeridiemPair(raw[i], raw[i + 1])
    && (i == 0 || !IsWordChar(raw[i - 1]))
    && (i + 2 == |raw| || !IsWordChar(raw[i + 2]))
  }

  /** `/\b(am|pm)\b/i.test(raw)`. */
  predicate HasMeridiemWord(raw: string) {
    exists i | 0 <= i <= |raw| :: MeridiemAt(raw, i)
  }

  /**
   * `raw.replace(/\s*(am|pm)\s*$/i, " " + AP)`: when the last two non-space characters
   * spell am/pm, they and all space around them become one space and the upper-case
   * suffix; otherwise the text is unchanged.
   */
  function NormalizeMeridiem(raw: string): (r: string)
    ensures var t := TrimEnd(raw);
            |t| >= 2 && IsMeridiemPair(t[|t| - 2], t[|t| - 1]) ==> |r| >= 3 && r[|r| - 3] == ' ' && r[|r| - 2..] == Upper(t[|t| - 2..])
    ensures var t := TrimEnd(raw);
            !(|t| >= 2 && IsMeridiemPair(t[|t| - 2], t[|t| - 1])) ==> r == raw
  {
    var t := TrimEnd(raw);
    if |t| >= 2 && IsMeridiemPair(t[|t| - 2], t[|t| - 1]) then
      TrimEnd(t[..|t| - 2]) + " " + Upper(t[|t| - 2..])
    else raw
  }

  /** The groups of `/^(\d{1,2})(?::(\d{2}))?$/`: the hour digits and, if present, the minute digits. */
  datatype ClockText = ClockText(hourDigits: string, minutes: Option<string>)

  function MatchClock(raw: string): (r: Option<ClockText>)
    ensures r.Some? ==> 1 <= |r.value.hourDigits| <= 2 && AllDigits(r.value.hourDigits)
    ensures r.Some? && r.value.minutes.Some? ==> |r.value.minutes.value| == 2 && AllDigits(r.value.minutes.value)
    ensures r.Some? ==> raw == r.value.hourDigits + (if r.value.minutes.Some? then ":" + r.value.minutes.value else "")
  {
    if 1 <= |raw| <= 2 && AllDigits(raw) then Some(ClockText(raw, None))
    else if 4 <= |raw| <= 5 && raw[|raw| - 3] == ':' && AllDigits(raw[..|raw| - 3]) && AllDigits(raw[|raw| - 2..]) then
      Some(ClockText(raw[..|raw| - 3], Some(raw[|raw| - 2..])))
    else None
  }

  /**
   * `formatTime`: "" stays ""; text with an am/pm word has its trailing suffix
   * normalised; an hour with optional minutes becomes `h:mm AM/PM`; anything else,
   * including an hour above 23, is returned trimmed but otherwise unchanged.
   */
  function FormatTime(timeStr: string): (r: string)
    ensures timeStr == "" ==> r == ""
  {
    if timeStr == "" then "" else FormatTrimmed(Trim(timeStr))
  }

  /** `formatTime` after the text has been trimmed. */
  function FormatTrimmed(raw: string): string {
    if HasMeridiemWord(raw) then NormalizeMeridiem(raw) else FormatClock(raw)
  }

  /** The 24-hour branch: `h:mm AM/PM` for an hour 0-23 with optional minutes, otherwise the text itself. */
  function FormatClock(raw: string): (r: string)
    ensures MatchClock(raw).None? ==> r == raw
    ensures MatchClock(raw).Some? && DigitsValue(MatchClock(raw).value.hourDigits) > 23 ==> r == raw
  {
    match MatchClock(raw)
    case None => raw
    case Some(m) =>
      var hours := DigitsValue(m.hourDigits);
      if hours > 23 then raw
      else ClockLabel(hours, m.minutes.GetOr("00"))
  }

  /** `${hour12}:${minutes} ${suffix}`. */
  function ClockLabel(hours: nat, minutes: string): string {
    IntToString(ClockHour(hours)) + ":" + minutes + " " + (if hours >= 12 then "PM" else "AM")
  }

  /** Text of digits and colons has no am/pm word. */
  lemma NoMeridiemInClockText(t: string)
    requires forall i | 0 <= i < |t| :: IsDigit(t[i]) || t[i] == ':'
    ensures !HasMeridiemWord(t)
  {
    forall i | 0 <= i <= |t| ensures !MeridiemAt(t, i) {
      if 0 <= i && i + 2 <= |t| {
        assert IsDigit(t[i]) || t[i] == ':';
      }
    }
  }

  /** An hour of one or two digits, 0-23, and two minute digits: `formatTime("9:05")` is "9:05 AM". */
  lemma FormatTimeOfClockText(hh: string, mm: string)
    requires 1 <= |hh| <= 2 && AllDigits(hh) && DigitsValue(hh) <= 23
    requires |mm| == 2 && AllDigits(mm)
    ensures FormatTime(hh + ":" + mm) == ClockLabel(DigitsValue(hh), mm)
  {
    var t := hh + ":" + mm;
    ClockTextPlain(hh, mm);
    FormatOfTrimmed(t);
    MatchClockOfTime(hh, mm);
  }

  /** `H:mm` text is trimmed and has no am/pm word. */
  lemma ClockTextPlain(hh: string, mm: string)
    requires 1 <= |hh| <= 2 && AllDigits(hh)
    requires |mm| == 2 && AllDigits(mm)
    ensures var t := hh + ":" + mm; t != [] && Trim(t) == t && !HasMeridiemWord(t)
  {
    var t := hh + ":" + mm;
    assert IsDigit(t[0]) && IsDigit(t[|t| - 1]);
    TrimOfTrimmed(t);
    assert forall i | 0 <= i < |t| :: IsDigit(t[i]) || t[i] == ':';
    NoMeridiemInClockText(t);
  }

  lemma MatchClockOfTime(hh: string, mm: string)
    requires 1 <= |hh| <= 2 && AllDigits(hh)
    requires |mm| == 2 && AllDigits(mm)
    ensures MatchClock(hh + ":" + mm) == Some(ClockText(hh, Some(mm)))
  {
    var t := hh + ":" + mm;
    assert !AllDigits(t) by {
      assert t[|hh|] == ':';
    }
    assert t[..|t| - 3] == hh && t[|t| - 2..] == mm && t[|t| - 3] == ':';
  }

  /** On a `HH:mm` time of day, `formatTime` and the date utilities' `to12HourFormat` agree. */
  lemma FormatTimeAgreesWithTo12Hour(h: nat, m: nat)
    requires h <= 23 && m <= 59
    ensures FormatTime(Pad2(h) + ":" + Pad2(m)) == To12HourFormat(Pad2(h) + ":" + Pad2(m)).value
  {
    Pad2Digits(h);
    Pad2Digits(m);
    FormatTimeOfClockText(Pad2(h), Pad2(m));
    To12HourFormatOfTime(h, m);
  }

  /** A non-empty trimmed text goes straight to the branches. */
  lemma FormatOfTrimmed(t: string)
    requires t != [] && Trim(t) == t
    ensures FormatTime(t) == FormatTrimmed(t)
  {
  }

  /**
   * A bare hour of one or two digits gets ":00": `formatTime("7")` is "7:00 AM",
   * `formatTime("19")` is "7:00 PM".
   */
  lemma FormatTimeOfHour(t: string)
    requires 1 <= |t| <= 2 && AllDigits(t) && DigitsValue(t) <= 23
    ensures FormatTime(t) == ClockLabel(DigitsValue(t), "00")
  {
    assert IsDigit(t[0]) && IsDigit(t[|t| - 1]);
    TrimOfTrimmed(t);
    FormatOfTrimmed(t);
    NoMeridiemInClockText(t);
    assert MatchClock(t) == Some(ClockText(t, None));
  }

  /** The text ends in a space and an upper-case suffix, which is an am/pm word at the end. */
  lemma SuffixIsMeridiemWord(x: string, ap: string)
    requires ap == "AM" || ap == "PM"
    ensures var o := x + " " + ap; MeridiemAt(o, |o| - 2) && HasMeridiemWord(o)
  {
    var o := x + " " + ap;
    assert o[|o| - 3] == ' ' && o[|o| - 2] == ap[0] && o[|o| - 1] == ap[1];
    assert IsMeridiemPair(o[|o| - 2], o[|o| - 1]) && !IsWordChar(o[|o| - 3]);
    assert MeridiemAt(o, |o| - 2);
  }

  /** Normalising `x + " " + AP` where `x` is already right-trimmed gives the text back. */
  lemma NormalizeNormalized(x: string, ap: string)
    requires ap == "AM" || ap == "PM"
    requires TrimEnd(x) == x
    ensures NormalizeMeridiem(x + " " + ap) == x + " " + ap
  {
    var o := x + " " + ap;
    var t := TrimEnd(o);
    assert t == o by {
      assert o[|o| - 1] == ap[1];
    }
    assert o[..|o| - 2] == x + " ";
    assert TrimEnd(x + " ") == TrimEnd(x) by {
      assert (x + " ")[..|x + " "| - 1] == x;
    }
    assert o[|o| - 2..] == ap;
    assert IsMeridiemPair(o[|o| - 2], o[|o| - 1]);
    assert Upper(ap) == ap;
  }

  /** The normalised form is `x + " " + AP` with `x` right-trimmed. */
  lemma NormalizedShape(raw: string)
    requires var t := TrimEnd(raw); |t| >= 2 && IsMeridiemPair(t[|t| - 2], t[|t| - 1])
    ensures var t := TrimEnd(raw);
            var x := TrimEnd(t[..|t| - 2]);
            var ap := Upper(t[|t| - 2..]);
            (ap == "AM" || ap == "PM") && TrimEnd(x) == x && NormalizeMeridiem(raw) == x + " " + ap
  {
    var t := TrimEnd(raw);
    TrimEndIdempotent(t[..|t| - 2]);
    var ap := Upper(t[|t| - 2..]);
    assert ap[0] == UpperChar(t[|t| - 2]) && ap[1] == UpperChar(t[|t| - 1]);
  }

  /** A trimmed text that is not empty ends in a non-space, so `TrimEnd` leaves it alone. */
  lemma TrimmedEnd(x: string)
    requires Trim(x) == x
    ensures TrimEnd(x) == x
  {
    TrimIdempotent(x);
    if x != [] {
      assert !IsSpace(x[|x| - 1]);
    }
  }

  /** Formatting `x + " " + AP` again, where `x` is a trimmed text, gives it back. */
  lemma FormatSuffixed(x: string, ap: string)
    requires ap == "AM" || ap == "PM"
    requires Trim(x) == x
    ensures FormatTime(x + " " + ap) == x + " " + ap
  {
    if x == [] {
      FormatBareSuffix(ap);
      assert x + " " + ap == " " + ap;
    } else {
      var o := x + " " + ap;
      TrimmedEnd(x);
      TrimIdempotent(x);
      assert o[0] == x[0] && o[|o| - 1] == ap[1];
      TrimOfTrimmed(o);
      FormatOfTrimmed(o);
      SuffixIsMeridiemWord(x, ap);
      NormalizeNormalized(x, ap);
    }
  }

  /** `formatTime(" AM")` is " AM": the suffix alone keeps the space the replacement puts before it. */
  lemma FormatBareSuffix(ap: string)
    requires ap == "AM" || ap == "PM"
    ensures FormatTime(" " + ap) == " " + ap
  {
    var o := " " + ap;
    assert Trim(o) == ap by {
      assert o[1..] == ap;
      assert TrimStart(o) == TrimStart(ap);
      TrimOfTrimmed(ap);
    }
    assert MeridiemAt(ap, 0);
    assert TrimEnd(ap) == ap && ap[..0] == [] && Upper(ap) == ap;
    assert NormalizeMeridiem(ap) == o;
  }

  /** The part before a normalised suffix is itself trimmed. */
  lemma NormalizedPrefixTrimmed(raw: string)
    requires Trim(raw) == raw
    requires var t := TrimEnd(raw); |t| >= 2 && IsMeridiemPair(t[|t| - 2], t[|t| - 1])
    ensures var t := TrimEnd(raw); Trim(TrimEnd(t[..|t| - 2])) == TrimEnd(t[..|t| - 2])
  {
    var t := TrimEnd(raw);
    var x := TrimEnd(t[..|t| - 2]);
    TrimmedEnd(raw);
    TrimEndPrefix(t[..|t| - 2]);
    TrimEndIdempotent(t[..|t| - 2]);
    if x != [] {
      TrimIdempotent(raw);
      assert x[0] == raw[0];
      TrimOfTrimmed(x);
    }
  }

  /** The result of the am/pm branch formats to itself. */
  lemma FormatMeridiemStable(s: string)
    requires s != "" && HasMeridiemWord(Trim(s))
    ensures FormatTime(FormatTime(s)) == FormatTime(s)
  {
    var raw := Trim(s);
    TrimIdempotent(s);
    assert FormatTime(s) == NormalizeMeridiem(raw);
    var t := TrimEnd(raw);
    if |t| >= 2 && IsMeridiemPair(t[|t| - 2], t[|t| - 1]) {
      NormalizedShape(raw);
      NormalizedPrefixTrimmed(raw);
      FormatSuffixed(TrimEnd(t[..|t| - 2]), Upper(t[|t| - 2..]));
    } else {
      assert raw != [];
      FormatOfTrimmed(raw);
    }
  }

  /** The result of the 24-hour branch formats to itself. */
  lemma FormatClockStable(s: string)
    requires s != "" && !HasMeridiemWord(Trim(s))
    ensures FormatTime(FormatTime(s)) == FormatTime(s)
  {
    var raw := Trim(s);
    TrimIdempotent(s);
    assert FormatTime(s) == FormatClock(raw);
    match MatchClock(raw)
    case None =>
      if raw != [] {
        FormatOfTrimmed(raw);
      }
    case Some(m) =>
      var hours := DigitsValue(m.hourDigits);
      if hours > 23 {
        FormatOfTrimmed(raw);
      } else {
        var mm := m.minutes.GetOr("00");
        ClockLabelStable(hours, mm);
      }
  }

  /** A clock label formats to itself. */
  lemma ClockLabelStable(hours: nat, mm: string)
    requires |mm| == 2 && AllDigits(mm)
    ensures FormatTime(ClockLabel(hours, mm)) == ClockLabel(hours, mm)
  {
    var x := IntToString(ClockHour(hours)) + ":" + mm;
    var ap := if hours >= 12 then "PM" else "AM";
    assert ClockLabel(hours, mm) == x + " " + ap;
    assert Trim(x) == x by {
      assert IsDigit(mm[1]) && x[|x| - 1] == mm[1];
      assert IsDigit(x[0]);
      TrimOfTrimmed(x);
    }
    FormatSuffixed(x, ap);
  }

  /** `formatTime` is idempotent: its results are already in the form it produces. */
  lemma FormatTimeIdempotent(s: string)
    ensures FormatTime(FormatTime(s)) == FormatTime(s)
  {
    if s != "" {
      if HasMeridiemWord(Trim(s)) {
        FormatMeridiemStable(s);
      } else {
        FormatClockStable(s);
      }
    }
  }

  // ---------------------------------------------------------------------------
  // The rental days
  // ---------------------------------------------------------------------------

  /** `Number(rentalDaysParam || 1)`: the passed count, or 1. */
  function FallbackDays(rentalDaysParam: Option<string>): (r: Num)
    ensures !Truthy(rentalDaysParam) ==> r == Int(1)
  {
    if Truthy(rentalDaysParam) then NumberOf(rentalDaysParam.value) else Int(1)
  }

  /**
   * `rentalDays`: the whole days from the start date to the end date, at least 1; when a
   * date is missing or unreadable, the `rentalDays` parameter, or 1.
   */
  function RentalDays(startDate: Option<string>, endDate: Option<string>, rentalDaysParam: Option<string>): (r: Num)
    ensures Truthy(startDate) && Truthy(endDate) && Parse(startDate.value).Some? && Parse(endDate.value).Some?
            ==> r.Int? && r.value >= 1
    ensures !(Truthy(startDate) && Truthy(endDate) && Parse(startDate.value).Some? && Parse(endDate.value).Some?)
            ==> r == FallbackDays(rentalDaysParam)
  {
    if !Truthy(startDate) || !Truthy(endDate) || Parse(startDate.value).None? || Parse(endDate.value).None? then
      FallbackDays(rentalDaysParam)
    else
      var diff := DayNumber(Parse(endDate.value).value) - DayNumber(Parse(startDate.value).value);
      Int(if diff > 1 then diff else 1)
  }

  /** A range picked `n >= 1` days apart is `n` rental days. */
  lemma RentalDaysOfRange(s: string, n: nat, param: Option<string>)
    requires Parse(s).Some? && n >= 1
    requires 1000 <= ShiftDays(Parse(s).value, n).year <= 9999
    ensures RentalDays(Some(s), Some(AddDays(s, n)), param) == Int(n)
  {
    var e := ShiftDays(Parse(s).value, n);
    ParseToDateString(e);
    ShiftDaysNumber(Parse(s).value, n);
  }

  /** The same day, or an end before the start, counts as one day. */
  lemma RentalDaysAtLeastOne(s: string, e: string, param: Option<string>)
    requires Parse(s).Some? && Parse(e).Some?
    requires !IsBefore(s, e)
    ensures RentalDays(Some(s), Some(e), param) == Int(1)
  {
  }

  /** Any text that is not a date makes the count fall back to the parameter, and an absent parameter to 1. */
  lemma RentalDaysFallback(s: Option<string>, e: Option<string>)
    requires Truthy(s) && Parse(s.value).None?
    ensures RentalDays(s, e, None) == Int(1)
  {
  }

  // ---------------------------------------------------------------------------
  // Add-ons and price lines
  // ---------------------------------------------------------------------------

  /** One add-on as passed in the JSON array. */
  datatype Addon = Addon(id: string, labelText: string, price: int)

  /** The outcome of `JSON.parse`: an array, some other value, or a thrown error (`None`). */
  datatype Json = JArray(items: seq<Addon>) | JOther

  /**
   * The add-ons: the parsed array when the parameter is present and parses to an array;
   * otherwise none. The JSON parser is a parameter.
   */
  function Addons(addonsParam: Option<string>, parse: string -> Option<Json>): (r: seq<Addon>)
    ensures !Truthy(addonsParam) ==> r == []
    ensures Truthy(addonsParam) && parse(addonsParam.value).Some? && parse(addonsParam.value).value.JArray?
            ==> r == parse(addonsParam.value).value.items
  {
    if !Truthy(addonsParam) then []
    else match parse(addonsParam.value)
      case Some(JArray(items)) => items
      case _ => []
  }

  /** JavaScript `*` on the numbers here: NaN spreads. */
  function Times(a: Num, b: Num): (r: Num)
    ensures r.Int? <==> a.Int? && b.Int?
  {
    if a.Int? && b.Int? then Int(a.value * b.value) else NaN
  }

  /** The price line: `Number(pricePerDayParam || 0) * rentalDays`. */
  function BaseLine(pricePerDayParam: Option<string>, rentalDays: Num): Num {
    Times(if Truthy(pricePerDayParam) then NumberOf(pricePerDayParam.value) else Int(0), rentalDays)
  }

  /** An add-on line: `a.price * rentalDays`. */
  function AddonLine(a: Addon, rentalDays: Num): Num {
    Times(Int(a.price), rentalDays)
  }

  /**
   * For a range picked `n >= 1` days apart, the price line and every add-on line are
   * their daily price times `n`.
   */
  lemma LinesOfRange(price: nat, a: Addon, s: string, n: nat, param: Option<string>)
    requires Parse(s).Some? && n >= 1
    requires 1000 <= ShiftDays(Parse(s).value, n).year <= 9999
    ensures BaseLine(Some(NatToString(price)), RentalDays(Some(s), Some(AddDays(s, n)), param)) == Int(price * n)
    ensures AddonLine(a, RentalDays(Some(s), Some(AddDays(s, n)), param)) == Int(a.price * n)
  {
    RentalDaysOfRange(s, n, param);
    DigitsValueOfNatToString(price);
    assert NumberOf(NatToString(price)) == Int(price);
  }

  /** Without a daily price the price line is zero for any whole number of days. */
  lemma BaseLineWithoutPrice(days: int)
    ensures BaseLine(None, Int(days)) == Int(0) && BaseLine(Some(""), Int(days)) == Int(0)
  {
  }

  // ---------------------------------------------------------------------------
  // Payment
  // ---------------------------------------------------------------------------

  datatype PayMethod = Card | Apple | Samsung

  /** The name of a payment method on the confirmation. */
  function MethodName(m: PayMethod): string {
    match m
    case Apple => "Apple Pay"
    case Samsung => "Samsung Pay"
    case Card => "Credit Card"
  }

  class OrderPayment {
    var isPaid: bool
    var paymentMethod: Option<PayMethod>

    constructor()
      ensures !isPaid && paymentMethod.None?
      ensures PaymentMethodLabel() == "Not paid yet"
    {
      isPaid := false;
      paymentMethod := None;
    }

    /** `paymentMethodLabel`: "Not paid yet" until paid, then the method's name. */
    function PaymentMethodLabel(): (r: string)
      reads this
      ensures !isPaid ==> r == "Not paid yet"
    {
      if !isPaid then "Not paid yet"
      else if paymentMethod == Some(Apple) then "Apple Pay"
      else if paymentMethod == Some(Samsung) then "Samsung Pay"
      else "Credit Card"
    }

    /** `handlePay`: the order is paid with the given method, and the label names it. */
    method HandlePay(m: PayMethod)
      modifies this
      ensures isPaid && paymentMethod == Some(m)
      ensures PaymentMethodLabel() == MethodName(m)
    {
      paymentMethod := Some(m);
      isPaid := true;
    }
  }
}
