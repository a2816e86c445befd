/**
 * The one-time-code screen: four single-digit boxes with typing, pasting and
 * backspace, the automatic submission of a complete code (once per code), the resend
 * cooldown, and the masked phone number shown above the boxes.
 */
module VerifyOtp {
  import opened Wrappers
  import opened Text

  /** The number of boxes. */
  const Slots := 4

  /** The cooldown after a resend, in seconds. */
  const ResendCooldown := 30

  /** A box holds nothing or one digit. */
  predicate IsSlot(d: string) {
    d == "" || (|d| == 1 && IsDigit(d[0]))
  }

  predicate ValidDigits(digits: seq<string>) {
    |digits| == Slots && forall i | 0 <= i < Slots :: IsSlot(digits[i])
  }

  /** `digits.join("")`. */
  function Code(digits: seq<string>): string {
    Concat(digits)
  }

  lemma {:induction false} ConcatSlots(digits: seq<string>)
    requires forall i | 0 <= i < |digits| :: IsSlot(digits[i])
    ensures |Concat(digits)| <= |digits|
    ensures |Concat(digits)| == |digits| <==> forall i | 0 <= i < |digits| :: digits[i] != ""
    ensures AllDigits(Concat(digits))
  {
    if digits != [] {
      ConcatSlots(digits[1..]);
      assert forall i | 1 <= i < |digits| :: digits[i] == digits[1..][i - 1];
    }
  }

  /** The code has four characters exactly when every box is filled, and it is all digits. */
  lemma CodeComplete(digits: seq<string>)
    requires ValidDigits(digits)
    ensures |Code(digits)| == Slots <==> forall i | 0 <= i < Slots :: digits[i] != ""
    ensures AllDigits(Code(digits))
  {
    ConcatSlots(digits);
  }

  /**
   * Typing `text` into box `index`: four or more digits (a paste) fill all boxes with
   * the first four; otherwise the box takes the last digit typed, or is emptied.
   */
  function AfterChange(digits: seq<string>, index: nat, text: string): (r: seq<string>)
    requires ValidDigits(digits) && index < Slots
    ensures ValidDigits(r)
    ensures |DigitsOf(text)| >= Slots ==> forall i | 0 <= i < Slots :: r[i] == [DigitsOf(text)[i]]
    ensures |DigitsOf(text)| < Slots ==> forall i | 0 <= i < Slots && i != index :: r[i] == digits[i]
    ensures |DigitsOf(text)| < Slots ==> r[index] == TakeLast(DigitsOf(text), 1)
  {
    var onlyDigits := DigitsOf(text);
    if |onlyDigits| >= Slots then
      assert AllDigits(onlyDigits);
      [[onlyDigits[0]], [onlyDigits[1]], [onlyDigits[2]], [onlyDigits[3]]]
    else
      var c := TakeLast(onlyDigits, 1);
      assert c != "" ==> c[0] == onlyDigits[|onlyDigits| - 1];
      digits[index := c]
  }

  /**
   * A key in box `index`: Backspace empties the box if it is filled, else the box
   * before it; other keys change nothing.
   */
  function AfterKeyPress(digits: seq<string>, index: nat, key: string): (r: seq<string>)
    requires ValidDigits(digits) && index < Slots
    ensures ValidDigits(r)
    ensures key != "Backspace" ==> r == digits
    ensures key == "Backspace" && digits[index] != "" ==> r == digits[index := ""]
    ensures key == "Backspace" && digits[index] == "" && index > 0 ==> r == digits[index - 1 := ""]
    ensures key == "Backspace" && digits[index] == "" && index == 0 ==> r == digits
  {
    if key == "Backspace" then
      if digits[index] != "" then digits[index := ""]
      else if index > 0 then digits[index - 1 := ""]
      else digits
    else digits
  }

  /** The automatic submission's guard: a complete code, no verification running, and not the code last sent. */
  predicate ShouldSubmit(digits: seq<string>, isVerifying: bool, lastSubmitted: Option<string>) {
    |Code(digits)| == Slots && !isVerifying && lastSubmitted != Some(Code(digits))
  }

  /** A code is only submitted with every box filled. */
  lemma SubmitNeedsAllBoxes(digits: seq<string>, isVerifying: bool, lastSubmitted: Option<string>)
    requires ValidDigits(digits) && ShouldSubmit(digits, isVerifying, lastSubmitted)
    ensures forall i | 0 <= i < Slots :: digits[i] != ""
    ensures AllDigits(Code(digits))
  {
    CodeComplete(digits);
  }

  class OtpScreen {
    var digits: seq<string>
    var lastSubmittedCode: Option<string>
    var invalidAttempt: bool
    var cooldown: nat
    var isVerifying: bool

    predicate Valid()
      reads this
    {
      ValidDigits(digits)
    }

    constructor()
      ensures Valid() && digits == ["", "", "", ""] && lastSubmittedCode.None? && !invalidAttempt
      ensures cooldown == 0 && !isVerifying
    {
      digits := ["", "", "", ""];
      lastSubmittedCode := None;
      invalidAttempt := false;
      cooldown := 0;
      isVerifying := false;
    }

    /** `handleChange`: the boxes change as `AfterChange` says and the error mark clears. */
    method HandleChange(index: nat, text: string)
      requires Valid() && index < Slots
      modifies this
      ensures Valid() && digits == AfterChange(old(digits), index, text) && !invalidAttempt
      ensures lastSubmittedCode == old(lastSubmittedCode) && cooldown == old(cooldown) && isVerifying == old(isVerifying)
    {
      var onlyDigits := DigitsOf(text);
      var next := digits;
      if |onlyDigits| >= Slots {
        next := [[onlyDigits[0]], [onlyDigits[1]], [onlyDigits[2]], [onlyDigits[3]]];
        digits := next;
        invalidAttempt := false;
        return;
      }
      var c := TakeLast(onlyDigits, 1);
      next := next[index := c];
      digits := next;
      invalidAttempt := false;
    }

    /** `handleKeyPress`. */
    method HandleKeyPress(index: nat, key: string)
      requires Valid() && index < Slots
      modifies this
      ensures Valid() && digits == AfterKeyPress(old(digits), index, key)
      ensures lastSubmittedCode == old(lastSubmittedCode) && invalidAttempt == old(invalidAttempt)
      ensures cooldown == old(cooldown) && isVerifying == old(isVerifying)
    {
      if key == "Backspace" {
        if digits[index] != "" {
          digits := digits[index := ""];
        } else if index > 0 {
          digits := digits[index - 1 := ""];
        }
      }
    }

    /**
     * The auto-submit effect: when the guard holds, the code is remembered as the last
     * submitted, the error mark clears, verification starts and the code is sent;
     * otherwise nothing happens.
     */
    method AutoSubmit() returns (submitted: Option<string>)
      requires Valid()
      modifies this
      ensures Valid() && digits == old(digits) && cooldown == old(cooldown)
      ensures submitted.Some? <==> old(ShouldSubmit(digits, isVerifying, lastSubmittedCode))
      ensures submitted.Some? ==> submitted == Some(Code(digits)) && lastSubmittedCode == submitted
                                  && isVerifying && !invalidAttempt
                                  && forall i | 0 <= i < Slots :: digits[i] != ""
      ensures submitted.None? ==> lastSubmittedCode == old(lastSubmittedCode) && isVerifying == old(isVerifying)
                                  && invalidAttempt == old(invalidAttempt)
    {
      var code := Code(digits);
      if |code| != Slots || isVerifying || lastSubmittedCode == Some(code) {
        return None;
      }
      SubmitNeedsAllBoxes(digits, isVerifying, lastSubmittedCode);
      lastSubmittedCode := Some(code);
      invalidAttempt := false;
      isVerifying := true;
      submitted := Some(code);
    }

    /** The verification's answer: a rejected code is marked invalid; verification ends either way. */
    method OnVerified(ok: bool)
      modifies this
      ensures !isVerifying && invalidAttempt == (if ok then old(invalidAttempt) else true)
      ensures digits == old(digits) && lastSubmittedCode == old(lastSubmittedCode) && cooldown == old(cooldown)
    {
      if !ok {
        invalidAttempt := true;
      }
      isVerifying := false;
    }

    /** One second of the cooldown ticker: down by one, never below zero. */
    method Tick()
      modifies this
      ensures cooldown == if old(cooldown) > 0 then old(cooldown) - 1 else 0
      ensures digits == old(digits) && lastSubmittedCode == old(lastSubmittedCode)
      ensures invalidAttempt == old(invalidAttempt) && isVerifying == old(isVerifying)
    {
      cooldown := if cooldown > 0 then cooldown - 1 else 0;
    }

    /**
     * Resend: ignored while the cooldown runs; otherwise the code is requested and, when
     * the request returns without throwing, the cooldown restarts at 30. The request
     * reports a missing phone or a rejected send with an alert and still returns, so
     * those restart the cooldown too; only a thrown exception leaves it as it was.
     */
    method Resend(requestReturns: bool) returns (requested: bool)
      modifies this
      ensures requested <==> old(cooldown) == 0
      ensures cooldown == if requested && requestReturns then ResendCooldown else old(cooldown)
      ensures digits == old(digits) && lastSubmittedCode == old(lastSubmittedCode)
      ensures invalidAttempt == old(invalidAttempt) && isVerifying == old(isVerifying)
    {
      if cooldown > 0 {
        return false;
      }
      requested := true;
      if requestReturns {
        cooldown := ResendCooldown;
      }
    }
  }

  // ---------------------------------------------------------------------------
  // The masked phone number
  // ---------------------------------------------------------------------------

  /** The country code after a leading "+": up to four digits. */
  function CountryCode(trimmed: string): (cc: string)
    requires StartsWith(trimmed, "+")
    ensures |cc| <= 4 && AllDigits(cc) && 1 + |cc| <= |trimmed| && trimmed[1..1 + |cc|] == cc
  {
    Take(LeadingDigits(trimmed[1..]), 4)
  }

  /** The shown prefix: "+cc " when a code follows the plus, "+" alone when none does, nothing without a plus. */
  function MaskPrefix(trimmed: string): (p: string)
    ensures p == "" || p[0] == '+'
  {
    if !StartsWith(trimmed, "+") then ""
    else if CountryCode(trimmed) == "" then "+"
    else "+" + CountryCode(trimmed) + " "
  }

  /** What follows the plus and its code. */
  function MaskRest(trimmed: string): (rest: string)
    ensures |rest| <= |trimmed|
  {
    if !StartsWith(trimmed, "+") then trimmed
    else trimmed[1 + |CountryCode(trimmed)|..]
  }

  /** The number of bullets: the hidden length, but at least 3 and at most 6. */
  function MaskedCount(hidden: int): (k: nat)
    ensures 3 <= k <= 6
    ensures 3 <= hidden <= 6 ==> k == hidden
  {
    var h := if hidden > 0 then hidden else 0;
    var m := if h < 6 then h else 6;
    if m > 3 then m else 3
  }

  /** `maskPhone`: the prefix, 3 to 6 bullets, then a space and the last four characters, trimmed. */
  function MaskPhone(full: string): (r: string)
    ensures full == "" ==> r == ""
  {
    if full == "" then ""
    else
      var trimmed := RemoveSpaces(full);
      var rest := MaskRest(trimmed);
      var last := TakeLast(rest, 4);
      Trim(MaskPrefix(trimmed) + Repeat(Bullet, MaskedCount(|rest| - |last|)) + " " + last)
  }

  /**
   * The masked number is the prefix, between 3 and 6 bullets and, when anything
   * follows the code, a space and the last four characters; the trim only drops the
   * space before an empty tail.
   */
  lemma MaskPhoneShape(full: string)
    requires full != ""
    ensures var trimmed := RemoveSpaces(full);
            var rest := MaskRest(trimmed);
            var last := TakeLast(rest, 4);
            MaskPhone(full) == MaskPrefix(trimmed) + Repeat(Bullet, MaskedCount(|rest| - |last|))
                               + (if last == "" then "" else " " + last)
  {
    var trimmed := RemoveSpaces(full);
    var rest := MaskRest(trimmed);
    var last := TakeLast(rest, 4);
    var prefix := MaskPrefix(trimmed);
    var k := MaskedCount(|rest| - |last|);
    assert forall i | 0 <= i < |trimmed| :: NotSpace(trimmed[i]);
    forall i | 0 <= i < |last|
      ensures !IsSpace(last[i])
    {
      assert last[i] == trimmed[|trimmed| - |last| + i];
    }
    TrimMasked(prefix, k, last);
  }

  /** Trimming a prefix that starts with no space, bullets, a space and a space-free tail only drops that space before an empty tail. */
  lemma TrimMasked(p: string, k: nat, last: string)
    requires p == "" || !IsSpace(p[0])
    requires k >= 1
    requires forall i | 0 <= i < |last| :: !IsSpace(last[i])
    ensures Trim(p + Repeat(Bullet, k) + " " + last) == p + Repeat(Bullet, k) + (if last == "" then "" else " " + last)
  {
    var b := Repeat(Bullet, k);
    var s := p + b + " " + last;
    assert !IsSpace(Bullet);
    assert s[0] == (if p == "" then Bullet else p[0]);
    if last == "" {
      var t := p + b;
      assert s == t + " ";
      assert TrimEnd(s) == TrimEnd(t);
      assert t[|t| - 1] == Bullet;
      assert t[0] == s[0];
      TrimOfTrimmed(t);
    } else {
      assert s[|s| - 1] == last[|last| - 1];
      TrimOfTrimmed(s);
      assert s == p + b + (" " + last);
    }
  }

  /** Between the prefix and the last four nothing of the number shows: only bullets and the space. */
  lemma MaskPhoneHidesMiddle(full: string)
    requires full != ""
    ensures var trimmed := RemoveSpaces(full);
            var r := MaskPhone(full);
            var tail := TakeLast(MaskRest(trimmed), 4);
            |MaskPrefix(trimmed)| + 3 <= |r| - |tail|
            && forall i | |MaskPrefix(trimmed)| <= i < |r| - |tail| :: !IsDigit(r[i])
  {
    var trimmed := RemoveSpaces(full);
    var p := MaskPrefix(trimmed);
    var rest := MaskRest(trimmed);
    var tail := TakeLast(rest, 4);
    var b := Repeat(Bullet, MaskedCount(|rest| - |tail|));
    var r := MaskPhone(full);
    MaskPhoneShape(full);
    var t := if tail == "" then "" else " " + tail;
    assert r == p + b + t;
    assert |r| - |tail| == |p| + |b| + (|t| - |tail|);
    forall i | |p| <= i < |r| - |tail|
      ensures !IsDigit(r[i])
    {
      if i < |p| + |b| {
        assert r[i] == b[i - |p|] == Bullet;
      } else {
        assert r[i] == t[0] == ' ';
      }
    }
  }
}
