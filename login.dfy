/**
 * The sign-in screen: a phone field for the selected country, with a placeholder
 * derived from the country's example number, an input rule that stops typing past
 * the longest possible number, and a send button that needs a valid E.164 number.
 * The phone-number library (parsing, "possible", "valid", example numbers, the
 * picker's calling code) enters as parameters.
 */
module Login {
  import opened Wrappers
  import opened Text
  import opened Flags

  // ---------------------------------------------------------------------------
  // The placeholder
  // ---------------------------------------------------------------------------

  /** `Math.min(2, Math.max(1, digitCount))`: how many leading digits the placeholder shows. */
  function Keep(digitCount: nat): (k: nat)
    ensures 1 <= k <= 2
    ensures digitCount >= 1 ==> k <= digitCount
  {
    if digitCount <= 1 then 1 else 2
  }

  /**
   * The digit-replacing pass, with `kept` digits already shown: the next digit is kept
   * while fewer than `keep` were, and becomes "x" after that; other characters stay.
   */
  function MaskFrom(s: string, kept: nat, keep: nat): (r: string)
    ensures |r| == |s|
  {
    if s == [] then []
    else if IsDigit(s[0]) && kept < keep then [s[0]] + MaskFrom(s[1..], kept + 1, keep)
    else if IsDigit(s[0]) then ['x'] + MaskFrom(s[1..], kept, keep)
    else [s[0]] + MaskFrom(s[1..], kept, keep)
  }

  /** `computePlaceholder`, given the country's national example format (None when the library throws). */
  function Placeholder(national: Option<string>): string {
    if !Truthy(national) then "Phone number"
    else
      var n := national.value;
      RemoveSpaces(Upper(MaskFrom(n, 0, Keep(|DigitsOf(n)|))))
  }

  /** `national.replace(/\d/g, ...)` with the callback's `kept` counter, one character at a time. */
  method MaskDigits(n: string, keep: nat) returns (masked: string)
    ensures masked == MaskFrom(n, 0, keep)
  {
    var kept := 0;
    masked := "";
    var i := 0;
    while i < |n|
      invariant 0 <= i <= |n|
      invariant masked + MaskFrom(n[i..], kept, keep) == MaskFrom(n, 0, keep)
    {
      var c := n[i];
      var out := c;
      var next := kept;
      if IsDigit(c) {
        if kept < keep {
          next := kept + 1;
        } else {
          out := 'x';
        }
      }
      assert n[i..][1..] == n[i + 1..];
      assert MaskFrom(n[i..], kept, keep) == [out] + MaskFrom(n[i + 1..], next, keep);
      assert masked + ([out] + MaskFrom(n[i + 1..], next, keep)) == (masked + [out]) + MaskFrom(n[i + 1..], next, keep);
      masked := masked + [out];
      kept := next;
      i := i + 1;
    }
    assert n[i..] == [];
  }

  /** `computePlaceholder`: the masked example, upper-cased, without white space; "Phone number" without one. */
  method ComputePlaceholder(national: Option<string>) returns (placeholder: string)
    ensures placeholder == Placeholder(national)
  {
    if !Truthy(national) {
      return "Phone number";
    }
    var masked := MaskDigits(national.value, Keep(|DigitsOf(national.value)|));
    placeholder := RemoveSpaces(Upper(masked));
  }

  /**
   * What the mask does at each position: a digit preceded by at least `keep - kept`
   * digits becomes "x"; every other character is left as it is.
   */
  lemma {:induction false} MaskPointwise(s: string, kept: nat, keep: nat)
    ensures var r := MaskFrom(s, kept, keep);
            forall i | 0 <= i < |s| ::
              r[i] == if IsDigit(s[i]) && kept + |DigitsOf(s[..i])| >= keep then 'x' else s[i]
  {
    if s != [] {
      var r := MaskFrom(s, kept, keep);
      var next := if IsDigit(s[0]) && kept < keep then kept + 1 else kept;
      MaskPointwise(s[1..], next, keep);
      forall i | 0 <= i < |s|
        ensures r[i] == if IsDigit(s[i]) && kept + |DigitsOf(s[..i])| >= keep then 'x' else s[i]
      {
        if i > 0 {
          assert s[..i] == [s[0]] + s[1..][..i - 1];
          KeepCharsAppend([s[0]], s[1..][..i - 1], IsDigit);
          assert r[i] == MaskFrom(s[1..], next, keep)[i - 1];
        } else {
          assert s[..0] == [];
        }
      }
    }
  }

  /** The mask keeps exactly the first `keep - kept` digits. */
  lemma {:induction false} DigitsOfMask(s: string, kept: nat, keep: nat)
    requires kept <= keep
    ensures DigitsOf(MaskFrom(s, kept, keep)) == Take(DigitsOf(s), keep - kept)
  {
    if s != [] {
      var next := if IsDigit(s[0]) && kept < keep then kept + 1 else kept;
      var m := MaskFrom(s[1..], next, keep);
      DigitsOfMask(s[1..], next, keep);
      var head := if IsDigit(s[0]) && kept < keep then s[0] else if IsDigit(s[0]) then 'x' else s[0];
      assert MaskFrom(s, kept, keep) == [head] + m;
      assert ([head] + m)[1..] == m;
      assert DigitsOf(s) == (if IsDigit(s[0]) then [s[0]] else []) + DigitsOf(s[1..]);
    }
  }

  /**
   * The placeholder has no white space, and its digits are the first one or two
   * digits of the example, as many as `Keep` allows; no example gives "Phone number".
   */
  lemma PlaceholderShape(national: Option<string>)
    ensures var p := Placeholder(national);
            (!Truthy(national) ==> p == "Phone number")
            && (Truthy(national) ==>
                  (forall i | 0 <= i < |p| :: !IsSpace(p[i]))
                  && DigitsOf(p) == Take(DigitsOf(national.value), Keep(|DigitsOf(national.value)|)))
  {
    if Truthy(national) {
      var n := national.value;
      var m := MaskFrom(n, 0, Keep(|DigitsOf(n)|));
      DigitsOfMask(n, 0, Keep(|DigitsOf(n)|));
      DigitsOfUpper(m);
      DigitsOfRemoveSpaces(Upper(m));
    }
  }

  // ---------------------------------------------------------------------------
  // Typing a number
  // ---------------------------------------------------------------------------

  /** What `parsePhoneNumber(digits, country)` gives: it throws, finds no number, or parses one. */
  datatype Parsed = ParseThrows | NoNumber | Number(possible: bool, e164: Option<string>)

  /** The plausibility check: parse errors never block typing; no number is plausible only when nothing is typed. */
  function PossibleNow(p: Parsed, digits: string): bool {
    match p
    case ParseThrows => true
    case NoNumber => digits == ""
    case Number(possible, _) => possible
  }

  /** The E.164 number kept after a change: the parsed one, and only when the library calls it valid. */
  function ValidE164(p: Parsed, isValidNumber: string -> bool): (r: Option<string>)
    ensures r.Some? <==> p.Number? && Truthy(p.e164) && isValidNumber(p.e164.value)
    ensures r.Some? ==> r == p.e164 && r.value != ""
  {
    if p.Number? && Truthy(p.e164) && isValidNumber(p.e164.value) then p.e164 else None
  }

  /** Typing is refused when it adds digits to a possible number and makes it impossible. */
  predicate Blocked(digits: string, prevDigits: string, prevPossible: bool, possibleNow: bool) {
    |digits| > |prevDigits| && prevPossible && !possibleNow
  }

  /** The phone field's state: the shown digits, the kept E.164 number, its validity and the two refs. */
  datatype PhoneState = PhoneState(raw: string, e164: Option<string>, isValid: bool, prevDigits: string, prevPossible: bool)

  /** The field's invariant: digits only, the refs in step with them, and a number kept exactly when valid. */
  predicate Coherent(st: PhoneState) {
    AllDigits(st.raw) && st.prevDigits == st.raw
    && (st.isValid <==> st.e164.Some?) && (st.e164.Some? ==> st.e164.value != "")
  }

  /** `handlePhoneChange(text)` while `code` is the selected country. */
  function AfterPhoneChange(st: PhoneState, text: string, code: string,
                            parse: (string, string) -> Parsed, isValidNumber: string -> bool): (r: PhoneState)
    ensures var digits := DigitsOf(text);
            var possible := PossibleNow(parse(digits, code), digits);
            (Blocked(digits, st.prevDigits, st.prevPossible, possible) ==> r == st)
            && (!Blocked(digits, st.prevDigits, st.prevPossible, possible) ==>
                  r.raw == digits && r.prevDigits == digits && r.prevPossible == possible
                  && r.e164 == ValidE164(parse(digits, code), isValidNumber) && r.isValid == r.e164.Some?)
    ensures |DigitsOf(text)| <= |st.prevDigits| ==> r.raw == DigitsOf(text)
    ensures Coherent(st) ==> Coherent(r)
  {
    var digits := DigitsOf(text);
    var parsed := parse(digits, code);
    var possible := PossibleNow(parsed, digits);
    if Blocked(digits, st.prevDigits, st.prevPossible, possible) then st
    else
      var e := ValidE164(parsed, isValidNumber);
      PhoneState(digits, e, e.Some?, digits, possible)
  }

  /** Route parameter values: missing, text, a number or a boolean. */
  datatype Param = Absent | Str(s: string) | Num(n: int) | Bool(b: bool) {
    predicate Truthy() {
      match this
      case Absent => false
      case Str(s) => s != ""
      case Num(n) => n != 0
      case Bool(b) => b
    }

    /** `String(value)`. */
    function ToText(): string {
      match this
      case Absent => "undefined"
      case Str(s) => s
      case Num(n) => IntToString(n)
      case Bool(b) => if b then "true" else "false"
    }
  }

  /** `p.clear === "1" || p.clear === 1 || p.clear === true`. */
  predicate ShouldClear(clear: Param) {
    clear == Str("1") || clear == Num(1) || clear == Bool(true)
  }

  /** `(p.country || p.defaultCode || p.iso2 || "").toString().toUpperCase()`. */
  function IncomingCountry(country: Param, defaultCode: Param, iso2: Param): (r: string)
    ensures !country.Truthy() && !defaultCode.Truthy() && !iso2.Truthy() ==> r == ""
    ensures country.Truthy() ==> r == Upper(country.ToText())
  {
    if country.Truthy() then Upper(country.ToText())
    else if defaultCode.Truthy() then Upper(defaultCode.ToText())
    else if iso2.Truthy() then Upper(iso2.ToText())
    else ""
  }

  /** `incoming && incoming.length === 2 && incoming !== selectedCode`, with the length in UTF-16 units. */
  predicate Applies(incoming: string, selected: string) {
    incoming != "" && |Utf16Units(incoming)| == 2 && incoming != selected
  }

  class LoginScreen {
    var raw: string
    var phoneE164: Option<string>
    var isValid: bool
    var prevDigits: string
    var prevPossible: bool
    var selectedCode: string
    var selectedLabel: string
    var selectedCallingCode: string
    var placeholder: string

    function State(): PhoneState
      reads this
    {
      PhoneState(raw, phoneE164, isValid, prevDigits, prevPossible)
    }

    predicate Valid()
      reads this
    {
      Coherent(State()) && selectedCode != ""
    }

    constructor()
      ensures Valid()
      ensures State() == PhoneState("", None, false, "", false)
      ensures selectedCode == "SA" && selectedLabel == SaudiFlag && selectedCallingCode == "+966"
      ensures placeholder == "Phone number"
    {
      raw := "";
      phoneE164 := None;
      isValid := false;
      prevDigits := "";
      prevPossible := false;
      selectedCode := "SA";
      selectedLabel := SaudiFlag;
      selectedCallingCode := "+966";
      placeholder := "Phone number";
    }

    /** The field's change handler. */
    method HandlePhoneChange(text: string, parse: (string, string) -> Parsed, isValidNumber: string -> bool)
      requires Valid()
      modifies this`raw, this`phoneE164, this`isValid, this`prevDigits, this`prevPossible
      ensures Valid()
      ensures State() == AfterPhoneChange(old(State()), text, selectedCode, parse, isValidNumber)
    {
      var digits := DigitsOf(text);
      var possibleNow := PossibleNow(parse(digits, selectedCode), digits);
      if Blocked(digits, prevDigits, prevPossible, possibleNow) {
        return;
      }
      raw := digits;
      phoneE164 := ValidE164(parse(digits, selectedCode), isValidNumber);
      isValid := phoneE164.Some?;
      prevDigits := digits;
      prevPossible := possibleNow;
    }

    /**
     * The effect on the route parameters: a two-letter code other than the current one
     * selects that country, its flag and its placeholder; anything else changes nothing.
     */
    method OnIncomingCountry(country: Param, defaultCode: Param, iso2: Param, national: string -> Option<string>)
      requires Valid()
      modifies this`selectedCode, this`selectedLabel, this`placeholder
      ensures Valid()
      ensures var incoming := IncomingCountry(country, defaultCode, iso2);
              (Applies(incoming, old(selectedCode)) ==>
                 selectedCode == incoming && selectedLabel == EmojiFlag(Some(incoming))
                 && placeholder == Placeholder(national(incoming)))
              && (!Applies(incoming, old(selectedCode)) ==>
                    selectedCode == old(selectedCode) && selectedLabel == old(selectedLabel)
                    && placeholder == old(placeholder))
    {
      var incoming := IncomingCountry(country, defaultCode, iso2);
      if Applies(incoming, selectedCode) {
        selectedCode := incoming;
        selectedLabel := EmojiFlag(Some(incoming));
        placeholder := ComputePlaceholder(national(incoming));
      }
    }

    /** The first half of the country effect: `clear` empties the field and its refs, else an incoming phone text is typed in. */
    method ApplyPhoneParams(clear: Param, phone: Param, parse: (string, string) -> Parsed, isValidNumber: string -> bool)
      requires Valid()
      modifies this`raw, this`phoneE164, this`isValid, this`prevDigits, this`prevPossible
      ensures Valid()
      ensures ShouldClear(clear) ==> State() == PhoneState("", None, false, "", false)
      ensures !ShouldClear(clear) && phone.Str? && phone.s != "" ==>
                State() == AfterPhoneChange(old(State()), phone.s, selectedCode, parse, isValidNumber)
      ensures !ShouldClear(clear) && !(phone.Str? && phone.s != "") ==> State() == old(State())
    {
      if ShouldClear(clear) {
        prevDigits := "";
        prevPossible := false;
        raw := "";
        phoneE164 := None;
        isValid := false;
      } else if phone.Str? && phone.s != "" {
        HandlePhoneChange(phone.s, parse, isValidNumber);
      }
    }

    /**
     * The second half: the picker's calling code is shown, the "possible" baseline is
     * recomputed for the current digits (true when the check throws), and the
     * placeholder is redone for the current country.
     */
    method RefreshCountry(callingCode: Option<string>, isPossible: (string, string) -> Option<bool>,
                          national: string -> Option<string>)
      requires Valid()
      modifies this`prevPossible, this`selectedCallingCode, this`placeholder
      ensures Valid()
      ensures prevPossible == isPossible(prevDigits, selectedCode).GetOr(true)
      ensures selectedCallingCode == if Truthy(callingCode) then "+" + callingCode.value else old(selectedCallingCode)
      ensures placeholder == Placeholder(national(selectedCode))
    {
      if Truthy(callingCode) {
        selectedCallingCode := "+" + callingCode.value;
      }
      prevPossible := isPossible(prevDigits, selectedCode).GetOr(true);
      placeholder := ComputePlaceholder(national(selectedCode));
    }

    /** The effect that runs when the selected country changes: both halves, in order. */
    method OnCountryEffect(clear: Param, phone: Param, callingCode: Option<string>,
                           parse: (string, string) -> Parsed, isValidNumber: string -> bool,
                           isPossible: (string, string) -> Option<bool>, national: string -> Option<string>)
      requires Valid()
      modifies this`raw, this`phoneE164, this`isValid, this`prevDigits, this`prevPossible,
               this`selectedCallingCode, this`placeholder
      ensures Valid()
      ensures ShouldClear(clear) ==> raw == "" && phoneE164 == None && !isValid
      ensures !ShouldClear(clear) && phone.Str? && phone.s != "" ==>
                var st := AfterPhoneChange(old(State()), phone.s, selectedCode, parse, isValidNumber);
                raw == st.raw && phoneE164 == st.e164 && isValid == st.isValid
      ensures !ShouldClear(clear) && !(phone.Str? && phone.s != "") ==>
                raw == old(raw) && phoneE164 == old(phoneE164) && isValid == old(isValid)
      ensures prevPossible == isPossible(prevDigits, selectedCode).GetOr(true)
      ensures selectedCallingCode == if Truthy(callingCode) then "+" + callingCode.value else old(selectedCallingCode)
      ensures placeholder == Placeholder(national(selectedCode))
    {
      ApplyPhoneParams(clear, phone, parse, isValidNumber);
      var mid := State();
      RefreshCountry(callingCode, isPossible, national);
      assert raw == mid.raw && phoneE164 == mid.e164 && isValid == mid.isValid;
    }

    /** The picker reports a country: its code (or the current one, or "SA") upper-cased, its flag, its calling code. */
    method OnChangeCountry(cca2: Option<string>, code: Option<string>, alpha2: Option<string>, callingCode: Option<string>)
      requires Valid()
      modifies this`selectedCode, this`selectedLabel, this`selectedCallingCode
      ensures Valid()
      ensures selectedCode == Upper(TextOf(Or(cca2, Or(code, Or(alpha2, Or(Some(old(selectedCode)), Some("SA")))))))
      ensures selectedLabel == EmojiFlag(Some(selectedCode))
      ensures selectedCallingCode == if Truthy(callingCode) then "+" + callingCode.value else old(selectedCallingCode)
    {
      selectedCode := Upper(TextOf(Or(cca2, Or(code, Or(alpha2, Or(Some(selectedCode), Some("SA")))))));
      selectedLabel := EmojiFlag(Some(selectedCode));
      if Truthy(callingCode) {
        selectedCallingCode := "+" + callingCode.value;
      }
    }

    /** The send button: disabled while loading, without a valid number, or with an empty field. */
    predicate SendEnabled(loading: bool)
      reads this
    {
      !loading && isValid && raw != ""
    }

    /**
     * In a coherent state the send button is enabled exactly when nothing is loading,
     * the field is not empty and submitting would request a code.
     */
    lemma SendEnabledSubmits(loading: bool)
      requires Valid()
      ensures SendEnabled(loading) <==> !loading && raw != "" && SubmitRequest().Some?
    {
    }

    /** `onSubmit`: the number the code is requested for, or nothing without a valid E.164 number. */
    function SubmitRequest(): (r: Option<string>)
      reads this
      ensures r.Some? <==> isValid && Truthy(phoneE164)
      ensures r.Some? ==> r == phoneE164
      ensures Valid() && isValid ==> r == phoneE164 && r.Some?
    {
      if !isValid || !Truthy(phoneE164) then None else phoneE164
    }
  }

}
