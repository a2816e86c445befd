/**
 * The flag emoji both phone forms show beside a country: every UTF-16 unit of the
 * upper-cased ISO 3166 alpha-2 code, shifted by 127397, becomes one code point, so
 * that "A".."Z" land on the regional indicator symbols U+1F1E6..U+1F1FF.
 */
module Flags {
  import opened Wrappers
  import opened Text

  /** 127397 == 0x1F1E6 - 'A': the distance from a capital letter to its regional indicator. */
  const Shift: int := 127397

  /** The regional indicator symbol for the capital letter `c`. */
  function RegionalIndicator(c: char): (r: char)
    requires 'A' <= c <= 'Z'
    ensures 0x1F1E6 <= r as int <= 0x1F1FF
  {
    (Shift + c as int) as char
  }

  /** One code point per code unit, each shifted by `Shift`. */
  function FromUnits(u: seq<int>): (r: string)
    requires forall i | 0 <= i < |u| :: 0 <= u[i] < 0x1_0000
    ensures |r| == |u| && forall i | 0 <= i < |u| :: r[i] as int == Shift + u[i]
  {
    seq(|u|, i requires 0 <= i < |u| => (Shift + u[i]) as char)
  }

  /** `isoToEmojiFlag` / `toFlag`: nothing for a missing or empty code. */
  function EmojiFlag(iso2: Option<string>): (r: string)
    ensures !Truthy(iso2) <==> r == ""
  {
    if !Truthy(iso2) then ""
    else
      var u := Utf16Units(Upper(iso2.value));
      assert |u| >= 1;
      FromUnits(u)
  }

  /** The flag the forms start with: U+1F1F8 U+1F1E6. */
  const SaudiFlag: string := "\U{1F1F8}\U{1F1E6}"

  /** A code of letters gets one regional indicator per letter, in order, whatever its case. */
  lemma FlagOfLetters(iso2: string)
    requires iso2 != []
    requires forall i | 0 <= i < |iso2| :: 'A' <= UpperChar(iso2[i]) <= 'Z'
    ensures var r := EmojiFlag(Some(iso2));
            |r| == |iso2| && forall i | 0 <= i < |iso2| :: r[i] == RegionalIndicator(UpperChar(iso2[i]))
  {
    var up := Upper(iso2);
    AsciiUnits(up);
  }

  /** Text of ASCII characters is its own list of code units. */
  lemma {:induction false} AsciiUnits(s: string)
    requires forall i | 0 <= i < |s| :: s[i] as int < 0x80
    ensures |Utf16Units(s)| == |s| && forall i | 0 <= i < |s| :: Utf16Units(s)[i] == s[i] as int
  {
    if s != [] {
      AsciiUnits(s[1..]);
    }
  }

  /** The default flag is the one "SA" maps to, and "sa" maps to the same one. */
  lemma SaudiFlagOfCode()
    ensures EmojiFlag(Some("SA")) == SaudiFlag
    ensures EmojiFlag(Some("sa")) == SaudiFlag
  {
    FlagOfLetters("SA");
    FlagOfLetters("sa");
  }

  /** Codes that differ once upper-cased get different flags: the flag identifies the code. */
  lemma FlagInjective(a: string, b: string)
    requires a != [] && b != []
    requires EmojiFlag(Some(a)) == EmojiFlag(Some(b))
    ensures Upper(a) == Upper(b)
  {
    var ua, ub := Utf16Units(Upper(a)), Utf16Units(Upper(b));
    var fa, fb := EmojiFlag(Some(a)), EmojiFlag(Some(b));
    assert |ua| == |fa| == |fb| == |ub|;
    forall i | 0 <= i < |ua|
      ensures ua[i] == ub[i]
    {
      assert fa[i] as int == Shift + ua[i];
      assert fb[i] as int == Shift + ub[i];
    }
    Utf16Injective(Upper(a), Upper(b));
  }
}
