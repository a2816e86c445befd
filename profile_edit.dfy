/**
 * The personal-information form: name, e-mail and a phone number split into a
 * dial code (picked from a country list) and the local digits. The stored phone is
 * parsed back into code and number on load, and the two are joined again on save.
 */
module ProfileEdit {
  import opened Wrappers
  import opened Text
  import opened Flags

  // ---------------------------------------------------------------------------
  // Per-country length and hint
  // ---------------------------------------------------------------------------

  /** The local number length the field allows, and the placeholder that shows it. */
  datatype Format = Format(max: nat, hint: string)

  const DefaultFormat: Format := Format(10, "XXXXXXXXXX")

  /** `codeToFormat`: mobile number length and hint per dial code. */
  const CodeToFormat: map<string, Format> := map[
    "+966" := Format(9, "5XXXXXXXX"),
    "+971" := Format(9, "5XXXXXXXX"),
    "+965" := Format(8, "5XXXXXXX"),
    "+974" := Format(8, "3XXXXXXX"),
    "+973" := Format(8, "3XXXXXXX"),
    "+968" := Format(8, "9XXXXXXX"),
    "+20" := Format(10, "1XXXXXXXXX"),
    "+1" := Format(10, "XXXXXXXXXX"),
    "+44" := Format(10, "7XXXXXXXXX"),
    "+49" := Format(11, "1XXXXXXXXXX"),
    "+33" := Format(9, "6XXXXXXXX"),
    "+34" := Format(9, "6XXXXXXXX"),
    "+39" := Format(10, "3XXXXXXXXX"),
    "+61" := Format(9, "4XXXXXXXX"),
    "+62" := Format(10, "8XXXXXXXXX"),
    "+63" := Format(10, "9XXXXXXXXX"),
    "+65" := Format(8, "8XXXXXXX"),
    "+81" := Format(10, "8XXXXXXXXX"),
    "+82" := Format(10, "1XXXXXXXXX"),
    "+86" := Format(11, "1XXXXXXXXXX"),
    "+90" := Format(10, "5XXXXXXXXX"),
    "+92" := Format(10, "3XXXXXXXXX"),
    "+98" := Format(10, "9XXXXXXXXX"),
    "+212" := Format(9, "6XXXXXXXX"),
    "+216" := Format(8, "2XXXXXXX"),
    "+218" := Format(9, "9XXXXXXXX")
  ]

  /** `phoneFormat`: the table entry for the code, ten free digits for a code the table lacks. */
  function PhoneFormat(code: string): (r: Format)
    ensures code in CodeToFormat ==> r == CodeToFormat[code]
    ensures code !in CodeToFormat ==> r == DefaultFormat
  {
    if code in CodeToFormat then CodeToFormat[code] else DefaultFormat
  }

  /** Every hint, the default one included, is exactly as long as the number it stands for, 8 to 11 digits. */
  lemma HintsFitLengths(code: string)
    ensures var f := PhoneFormat(code);
            |f.hint| == f.max && 8 <= f.max <= 11
  {
  }

  /** The example number for the selected country, when one is selected and the example is not empty. */
  function ExampleFor(iso2: Option<string>, examples: map<string, string>): (r: Option<string>)
    ensures r.Some? ==> Truthy(iso2) && iso2.value in examples && r.value == examples[iso2.value] != ""
  {
    if Truthy(iso2) && iso2.value in examples && examples[iso2.value] != "" then Some(examples[iso2.value])
    else None
  }

  /**
   * `phoneMax` and `phoneHint`: with an example number that holds digits, its digit count
   * and its first three digits; otherwise the table's length and hint.
   */
  function ExampleFormat(code: string, iso2: Option<string>, examples: map<string, string>): (r: Format)
  {
    var ex := ExampleFor(iso2, examples);
    var digits := if ex.Some? then DigitsOf(ex.value) else "";
    var first3 := if digits != "" then Take(digits, 3) else "";
    Format(if digits != "" then |digits| else PhoneFormat(code).max,
           if first3 != "" then first3 else PhoneFormat(code).hint)
  }

  /**
   * The derived hint never asks for more digits than the derived length: an example
   * number gives its own digit count and a hint of its first (at most three) digits;
   * without one the table's pair is used.
   */
  lemma ExampleFormatSpec(code: string, iso2: Option<string>, examples: map<string, string>)
    ensures var r := ExampleFormat(code, iso2, examples);
            var ex := ExampleFor(iso2, examples);
            |r.hint| <= r.max
            && (ex.Some? && DigitsOf(ex.value) != "" ==>
                  r.max == |DigitsOf(ex.value)| && 1 <= |r.hint| <= 3
                  && r.hint == DigitsOf(ex.value)[..|r.hint|])
            && (ex.None? || DigitsOf(ex.value) == "" ==> r == PhoneFormat(code))
  {
    HintsFitLengths(code);
  }

  // ---------------------------------------------------------------------------
  // The stored phone
  // ---------------------------------------------------------------------------

  datatype Stored = Stored(code: string, number: string)

  /**
   * The first group of `/^(\+\d{1,4})\s*(.*)$/` is `raw[..k]`: a plus and one to four
   * digits, as many as there are up to four.
   */
  predicate CodeEnds(raw: string, k: nat) {
    2 <= k <= 5 && k <= |raw| && raw[0] == '+' && AllDigits(raw[1..k])
    && (k < 5 && k < |raw| ==> !IsDigit(raw[k]))
  }

  /** After `raw[..k]`, white space, as much as there is, then `number` up to the end, with no line terminator. */
  predicate RestIs(raw: string, k: nat, number: string) {
    k + |number| <= |raw| && raw[|raw| - |number|..] == number
    && (forall i | k <= i < |raw| - |number| :: IsSpace(raw[i]))
    && (number == [] || !IsSpace(number[0]))
    && (forall i | 0 <= i < |number| :: !IsLineTerminator(number[i]))
  }

  /** How the stored-phone pattern splits `raw` into its two groups. */
  predicate IsSplit(raw: string, code: string, number: string) {
    |code| <= |raw| && code == raw[..|code|] && CodeEnds(raw, |code|) && RestIs(raw, |code|, number)
  }

  /** The match of the stored-phone pattern, if any. */
  function ParseStored(raw: string): Option<Stored> {
    if |raw| < 2 || raw[0] != '+' || !IsDigit(raw[1]) then None
    else
      var k := 1 + |Take(LeadingDigits(raw[1..]), 4)|;
      var number := TrimStart(raw[k..]);
      if exists i | 0 <= i < |number| :: IsLineTerminator(number[i]) then None
      else Some(Stored(raw[..k], number))
  }

  /** Whatever the pattern matches splits the text as `IsSplit` describes. */
  lemma ParseStoredSound(raw: string)
    ensures var r := ParseStored(raw);
            r.Some? ==> IsSplit(raw, r.value.code, r.value.number)
  {
    if ParseStored(raw).Some? {
      var lead := LeadingDigits(raw[1..]);
      var k := 1 + |Take(lead, 4)|;
      var rest := raw[k..];
      var number := TrimStart(rest);
      assert CodeEnds(raw, k) by {
        assert raw[1..k] == lead[..k - 1];
        if k < 5 && k < |raw| {
          assert raw[k] == raw[1..][|lead|];
        }
      }
      assert RestIs(raw, k, number) by {
        TrimStartSuffix(rest);
        TrimStartFirst(rest);
        forall i | k <= i < |raw| - |number|
          ensures IsSpace(raw[i])
        {
          assert raw[i] == rest[i - k];
        }
      }
    }
  }

  /** The pattern matches with code `code` and number `number` exactly when `raw` splits that way. */
  lemma ParseStoredExact(raw: string, code: string, number: string)
    ensures ParseStored(raw) == Some(Stored(code, number)) <==> IsSplit(raw, code, number)
  {
    ParseStoredSound(raw);
    if IsSplit(raw, code, number) {
      var k := |code|;
      var tail := raw[1..];
      assert tail[..k - 1] == raw[1..k];
      LeadingDigitsPrefix(tail, k - 1);
      if k < 5 && k < |raw| {
        assert tail[k - 1] == raw[k];
      }
      assert |Take(LeadingDigits(tail), 4)| == k - 1;
      var sp := raw[k..|raw| - |number|];
      assert raw[k..] == sp + number;
      TrimStartSpaces(sp, number);
    }
  }

  /** `${phoneCode || ""}${phone || ""}` as written: the two run together. */
  function CombinedPhoneAsWritten(code: string, phone: string): string {
    code + phone
  }

  /** What the save is meant to store: the code, one space, the number, which the reload pattern splits again. */
  function CombinedPhone(code: string, phone: string): string {
    code + " " + phone
  }

  /** A dial code as the pattern reads it: a plus and one to four digits. */
  predicate DialCode(code: string) {
    2 <= |code| <= 5 && code[0] == '+' && AllDigits(code[1..])
  }

  /** Joined with a space, any dial code and any digits come back unchanged from a reload. */
  lemma SaveReloadRoundTrip(code: string, phone: string)
    requires DialCode(code) && AllDigits(phone)
    ensures ParseStored(CombinedPhone(code, phone)) == Some(Stored(code, phone))
  {
    var raw := CombinedPhone(code, phone);
    assert IsSplit(raw, code, phone) by {
      assert raw == code + [' '] + phone;
      assert raw[..|code|] == code;
      assert raw[|code|] == ' ';
      assert raw[|raw| - |phone|..] == phone;
      assert |code| + |phone| + 1 == |raw|;
      if phone != [] {
        assert IsDigit(phone[0]);
      }
    }
    ParseStoredExact(raw, code, phone);
  }

  /** Run together, a code of a plus and four digits still reloads unchanged: the pattern takes at most four digits. */
  lemma ReloadAsWrittenFullCode(code: string, phone: string)
    requires DialCode(code) && |code| == 5 && AllDigits(phone)
    ensures ParseStored(CombinedPhoneAsWritten(code, phone)) == Some(Stored(code, phone))
  {
    var raw := CombinedPhoneAsWritten(code, phone);
    assert IsSplit(raw, code, phone) by {
      assert raw[..|code|] == code;
      assert raw[|raw| - |phone|..] == phone;
      assert raw[1..5] == code[1..];
      if phone != [] {
        assert IsDigit(phone[0]);
      }
    }
    ParseStoredExact(raw, code, phone);
  }

  /**
   * Run together, a code of fewer than four digits followed by any digits reloads
   * with a longer code: the leading digits of the number move into it.
   */
  lemma ReloadAsWrittenMovesDigits(code: string, phone: string)
    requires DialCode(code) && |code| < 5 && phone != [] && AllDigits(phone)
    ensures var r := ParseStored(CombinedPhoneAsWritten(code, phone));
            r.Some? && |r.value.code| > |code| && r.value.code != code
  {
    var raw := CombinedPhoneAsWritten(code, phone);
    var k := if |code| + |phone| <= 5 then |code| + |phone| else 5;
    var c := raw[..k];
    var n := raw[k..];
    assert raw[1..] == code[1..] + phone;
    assert AllDigits(raw[1..]);
    assert IsSplit(raw, c, n) by {
      assert c[1..] == raw[1..][..k - 1];
      assert raw[|raw| - |n|..] == n;
      if n != [] {
        assert IsDigit(n[0]);
      }
      forall i | 0 <= i < |n|
        ensures !IsLineTerminator(n[i])
      {
        assert n[i] == raw[1..][k - 1 + i];
      }
    }
    ParseStoredExact(raw, c, n);
  }

  /** The Saudi number saved as "+966" and "512345678" reloads as code "+9665" and number "12345678". */
  lemma ReloadAsWrittenExample()
    ensures ParseStored(CombinedPhoneAsWritten("+966", "512345678")) == Some(Stored("+9665", "12345678"))
  {
    var raw := CombinedPhoneAsWritten("+966", "512345678");
    assert raw == "+966512345678";
    assert raw[..5] == "+9665";
    assert raw[|raw| - 8..] == "12345678";
    assert CodeEnds(raw, 5) by {
      assert raw[1..5] == "9665";
    }
    assert RestIs(raw, 5, "12345678");
    ParseStoredExact(raw, "+9665", "12345678");
  }

  // ---------------------------------------------------------------------------
  // The country list
  // ---------------------------------------------------------------------------

  /** One entry of the country-code service's reply; any field may be missing. */
  datatype RawCountry = RawCountry(name: Option<string>, dialCode: Option<string>, iso2: Option<string>)

  datatype Country = Country(name: string, code: string, flag: string, iso2: Option<string>)

  /** The country-code request: it failed (network or JSON error), or it brought a payload whose `data` may be missing. */
  datatype CodesReply = CodesFailed | Codes(data: Option<seq<RawCountry>>)

  /** An entry with a name and a dial code becomes a country with its flag and upper-cased code. */
  function MapCountry(c: RawCountry): (r: Option<Country>)
    ensures r.Some? <==> Truthy(c.name) && Truthy(c.dialCode)
  {
    if !Truthy(c.name) || !Truthy(c.dialCode) then None
    else Some(Country(c.name.value, c.dialCode.value, EmojiFlag(c.iso2),
                      if c.iso2.Some? then Some(Upper(c.iso2.value)) else None))
  }

  /** The country the list leaves out, by name or by dial code. */
  predicate Allowed(c: Country) {
    c.name != "Israel" && c.code != "+972"
  }

  /** The mapped entries that survive both filters, in reply order. */
  function Kept(data: seq<RawCountry>): (r: seq<Country>)
    ensures |r| <= |data|
  {
    if data == [] then []
    else
      var m := MapCountry(data[0]);
      (if m.Some? && Allowed(m.value) then [m.value] else []) + Kept(data[1..])
  }

  /** A country is kept exactly when some entry of the reply maps to it and it is allowed. */
  lemma {:induction false} KeptExact(data: seq<RawCountry>, x: Country)
    ensures x in Kept(data) <==> Allowed(x) && exists i | 0 <= i < |data| :: MapCountry(data[i]) == Some(x)
  {
    if data != [] {
      KeptExact(data[1..], x);
      if x in Kept(data[1..]) {
        var i :| 0 <= i < |data[1..]| && MapCountry(data[1..][i]) == Some(x);
        assert MapCountry(data[i + 1]) == Some(x);
      }
      if exists i | 0 <= i < |data| :: MapCountry(data[i]) == Some(x) {
        var i :| 0 <= i < |data| && MapCountry(data[i]) == Some(x);
        if i > 0 {
          assert MapCountry(data[1..][i - 1]) == Some(x);
        }
      }
    }
  }

  /** A comparison like `localeCompare` that never calls both orders "after". */
  ghost predicate Consistent(cmp: (string, string) -> int) {
    forall a: string, b: string :: cmp(a, b) <= 0 || cmp(b, a) <= 0
  }

  predicate SortedByName(s: seq<Country>, cmp: (string, string) -> int) {
    forall i | 0 <= i < |s| - 1 :: cmp(s[i].name, s[i + 1].name) <= 0
  }

  /** `x` placed before the first entry it does not come after. */
  function InsertByName(x: Country, s: seq<Country>, cmp: (string, string) -> int): (r: seq<Country>)
    requires Consistent(cmp) && SortedByName(s, cmp)
    ensures SortedByName(r, cmp) && multiset(r) == multiset(s) + multiset{x}
    ensures r[0] == x || (s != [] && r[0] == s[0])
  {
    if s == [] || cmp(x.name, s[0].name) <= 0 then [x] + s
    else
      var t := InsertByName(x, s[1..], cmp);
      assert s == [s[0]] + s[1..];
      [s[0]] + t
  }

  /** `sort((a, b) => a.name.localeCompare(b.name))`: the same countries, ordered by name. */
  function SortByName(s: seq<Country>, cmp: (string, string) -> int): (r: seq<Country>)
    requires Consistent(cmp)
    ensures SortedByName(r, cmp) && multiset(r) == multiset(s)
  {
    if s == [] then []
    else
      assert s == [s[0]] + s[1..];
      InsertByName(s[0], SortByName(s[1..], cmp), cmp)
  }

  /** The single entry shown when the codes cannot be fetched. */
  const SaudiArabia: Country := Country("Saudi Arabia", "+966", SaudiFlag, None)

  /** The list the dropdown offers after the codes request settles. */
  function CountryList(reply: CodesReply, cmp: (string, string) -> int): (r: seq<Country>)
    requires Consistent(cmp)
    ensures SortedByName(r, cmp)
  {
    match reply
    case CodesFailed => [SaudiArabia]
    case Codes(data) => SortByName(Kept(data.GetOr([])), cmp)
  }

  /**
   * After a reply the list holds, ordered by name, exactly the allowed countries that
   * entries of the reply map to, each with a name and a dial code; after a failure it
   * holds Saudi Arabia alone.
   */
  lemma CountryListExact(reply: CodesReply, cmp: (string, string) -> int, x: Country)
    requires Consistent(cmp)
    ensures reply.CodesFailed? ==> CountryList(reply, cmp) == [SaudiArabia]
    ensures reply.Codes? ==>
              (x in CountryList(reply, cmp) <==>
                 Allowed(x) && exists i | 0 <= i < |reply.data.GetOr([])| :: MapCountry(reply.data.GetOr([])[i]) == Some(x))
    ensures x in CountryList(reply, cmp) ==> x.name != "" && x.code != "" && Allowed(x)
  {
    if reply.Codes? {
      var data := reply.data.GetOr([]);
      KeptExact(data, x);
      assert x in CountryList(reply, cmp) <==> x in multiset(Kept(data));
      if x in CountryList(reply, cmp) {
        var i :| 0 <= i < |data| && MapCountry(data[i]) == Some(x);
      }
    }
  }

  /** The dropdown's search: the name contains the query ignoring case, or the code contains it as typed. */
  predicate Matches(c: Country, q: string) {
    Contains(Lower(c.name), Lower(q)) || Contains(c.code, q)
  }

  /** The rows the dropdown shows for the query `q`, in list order. */
  function Visible(cs: seq<Country>, q: string): (r: seq<Country>)
    ensures |r| <= |cs|
  {
    if cs == [] then []
    else (if Matches(cs[0], q) then [cs[0]] else []) + Visible(cs[1..], q)
  }

  /** A row shows exactly when its country is in the list and matches the query. */
  lemma {:induction false} VisibleExact(cs: seq<Country>, q: string, x: Country)
    ensures x in Visible(cs, q) <==> x in cs && Matches(x, q)
  {
    if cs != [] {
      VisibleExact(cs[1..], q, x);
      assert x in cs <==> x == cs[0] || x in cs[1..];
    }
  }

  /** With an empty search box every country shows, in list order. */
  lemma {:induction false} EmptySearchShowsAll(cs: seq<Country>)
    ensures Visible(cs, "") == cs
  {
    if cs != [] {
      assert OccursAt(cs[0].code, "", 0);
      EmptySearchShowsAll(cs[1..]);
      assert [cs[0]] + cs[1..] == cs;
    }
  }

  /** `countries.find(c => c.code === code)`. */
  function FirstWithCode(cs: seq<Country>, code: string): (r: Option<Country>)
    ensures r.Some? ==> r.value in cs && r.value.code == code
    ensures r.None? <==> forall i | 0 <= i < |cs| :: cs[i].code != code
    ensures cs != [] && cs[0].code == code ==> r == Some(cs[0])
    ensures r.Some? ==> exists i | 0 <= i < |cs| :: cs[i] == r.value && forall j | 0 <= j < i :: cs[j].code != code
  {
    if cs == [] then None
    else if cs[0].code == code then Some(cs[0])
    else
      var r := FirstWithCode(cs[1..], code);
      assert forall i | 1 <= i < |cs| :: cs[i] == cs[1..][i - 1];
      if r.Some? then
        var i :| 0 <= i < |cs[1..]| && cs[1..][i] == r.value && forall j | 0 <= j < i :: cs[1..][j].code != code;
        assert cs[i + 1] == r.value && forall j | 0 <= j < i + 1 :: cs[j].code != code;
        r
      else r
  }

  // ---------------------------------------------------------------------------
  // The screen
  // ---------------------------------------------------------------------------

  /** The `customer` row the form loads; any column may be null. */
  datatype CustomerRow = CustomerRow(fullName: Option<string>, email: Option<string>, phone: Option<string>)

  /** The update the save sends for the signed-in customer. */
  datatype ProfileUpdate = ProfileUpdate(fullName: string, email: string, phone: string)

  /** Code and number after loading the stored phone `raw` while the code is `current`. */
  function Reloaded(raw: string, current: string): (r: Stored)
    ensures ParseStored(raw).Some? ==> r == ParseStored(raw).value
    ensures ParseStored(raw).None? ==> r == Stored(current, raw)
  {
    match ParseStored(raw)
    case Some(st) => st
    case None => Stored(current, raw)
  }


  class ProfileEditor {
    var loading: bool
    var saving: bool
    var fullName: string
    var email: string
    var phone: string
    var phoneCode: string
    var phoneFlag: string
    var showCodeList: bool
    var codeSearch: string
    var countries: seq<Country>
    var codesLoading: bool
    var examples: map<string, string>
    var selectedIso2: Option<string>

    constructor()
      ensures loading && !saving && fullName == "" && email == "" && phone == ""
      ensures phoneCode == "+966" && phoneFlag == SaudiFlag
      ensures !showCodeList && codeSearch == "" && countries == [] && !codesLoading
      ensures examples == map[] && selectedIso2 == None
    {
      loading := true;
      saving := false;
      fullName := "";
      email := "";
      phone := "";
      phoneCode := "+966";
      phoneFlag := SaudiFlag;
      showCodeList := false;
      codeSearch := "";
      countries := [];
      codesLoading := false;
      examples := map[];
      selectedIso2 := None;
    }

    /** The length and hint the phone field uses: the table's, for the current code. */
    function Format(): Format
      reads this
    {
      PhoneFormat(phoneCode)
    }

    /**
     * The profile load. Without a signed-in user, or without a row, only the spinner
     * stops. Otherwise name and e-mail are copied, and a stored phone that matches the
     * pattern sets both code and number; one that does not becomes the number as a
     * whole and leaves the code alone.
     */
    method Load(signedIn: bool, row: Option<CustomerRow>)
      modifies this
      ensures !loading
      ensures !signedIn || row.None? ==>
                fullName == old(fullName) && email == old(email) && phone == old(phone) && phoneCode == old(phoneCode)
      ensures signedIn && row.Some? ==>
                var raw := TextOf(row.value.phone);
                fullName == TextOf(row.value.fullName) && email == TextOf(row.value.email)
                && Stored(phoneCode, phone) == Reloaded(raw, old(phoneCode))
      ensures saving == old(saving) && phoneFlag == old(phoneFlag) && showCodeList == old(showCodeList)
      ensures codeSearch == old(codeSearch) && countries == old(countries) && codesLoading == old(codesLoading)
      ensures examples == old(examples) && selectedIso2 == old(selectedIso2)
    {
      if signedIn && row.Some? {
        fullName := TextOf(row.value.fullName);
        email := TextOf(row.value.email);
        var reloaded := Reloaded(TextOf(row.value.phone), phoneCode);
        phoneCode := reloaded.code;
        phone := reloaded.number;
      }
      loading := false;
    }

    /** The effect that runs when the code changes: a number longer than the code allows is cut to that length. */
    method OnCodeChanged()
      modifies this`phone
      ensures |phone| <= |old(phone)| && phone == old(phone)[..|phone|]
      ensures |phone| <= PhoneFormat(phoneCode).max
      ensures |old(phone)| <= PhoneFormat(phoneCode).max ==> phone == old(phone)
    {
      if |phone| > Format().max {
        phone := phone[..Format().max];
      }
    }

    /** The phone field keeps the digits of what is typed and nothing else. */
    method OnPhoneText(t: string)
      modifies this`phone
      ensures phone == DigitsOf(t) && AllDigits(phone)
      ensures AllDigits(t) ==> phone == t
    {
      phone := DigitsOf(t);
      if AllDigits(t) {
        KeepCharsAll(t, IsDigit);
      }
    }

    /** The country-code request settles; `cmp` is the locale's name comparison. */
    method LoadCodes(reply: CodesReply, cmp: (string, string) -> int)
      requires Consistent(cmp)
      modifies this`countries, this`codesLoading
      ensures countries == CountryList(reply, cmp) && !codesLoading
    {
      codesLoading := true;
      countries := CountryList(reply, cmp);
      codesLoading := false;
    }

    /** The example-number request settles: a missing or failed reply leaves no examples. */
    method LoadExamples(reply: Option<map<string, string>>)
      modifies this`examples
      ensures examples == reply.GetOr(map[])
    {
      examples := reply.GetOr(map[]);
    }

    /**
     * The effect on the list and the code: with a list, the selected country becomes
     * the first one with the current code (none when no country has it); with no list,
     * nothing changes.
     */
    method SyncSelectedIso2()
      modifies this`selectedIso2
      ensures countries == [] ==> selectedIso2 == old(selectedIso2)
      ensures countries != [] && (forall i | 0 <= i < |countries| :: countries[i].code != phoneCode) ==> selectedIso2 == None
      ensures countries != [] && selectedIso2.Some? ==>
                exists c | c in countries :: c.code == phoneCode && c.iso2 == selectedIso2
      ensures countries != [] ==>
                selectedIso2 == (var f := FirstWithCode(countries, phoneCode); if f.Some? then f.value.iso2 else None)
    {
      if countries != [] {
        var found := FirstWithCode(countries, phoneCode);
        selectedIso2 := if found.Some? then found.value.iso2 else None;
      }
    }

    /** The code button opens and closes the dropdown. */
    method ToggleCodeList()
      modifies this`showCodeList
      ensures showCodeList == !old(showCodeList)
    {
      showCodeList := !showCodeList;
    }

    /** The dropdown's close button; the search text stays. */
    method CloseCodeList()
      modifies this`showCodeList
      ensures !showCodeList
    {
      showCodeList := false;
    }

    method OnCodeSearch(q: string)
      modifies this`codeSearch
      ensures codeSearch == q
    {
      codeSearch := q;
    }

    /** Picking a shown row takes its code and flag, closes the dropdown and clears the search. */
    method SelectCountry(c: Country)
      requires c in Visible(countries, codeSearch)
      modifies this`phoneCode, this`phoneFlag, this`showCodeList, this`codeSearch
      ensures c in countries
      ensures phoneCode == c.code && phoneFlag == c.flag && !showCodeList && codeSearch == ""
    {
      VisibleExact(countries, codeSearch, c);
      phoneCode := c.code;
      phoneFlag := c.flag;
      showCodeList := false;
      codeSearch := "";
    }

    /**
     * The save: without a user nothing is sent (the form goes to sign-in); otherwise
     * name, e-mail and the code and number run together are sent. That phone reloads
     * as the same code and number only when the code has four digits; a shorter code
     * reloads longer, taking leading digits of the number.
     */
    method OnSave(signedIn: bool) returns (request: Option<ProfileUpdate>)
      modifies this`saving
      ensures !signedIn ==> request == None && saving == old(saving)
      ensures signedIn ==> !saving && request == Some(ProfileUpdate(fullName, email, CombinedPhoneAsWritten(phoneCode, phone)))
      ensures request.Some? && DialCode(phoneCode) && |phoneCode| == 5 && AllDigits(phone) ==>
                ParseStored(request.value.phone) == Some(Stored(phoneCode, phone))
      ensures request.Some? && DialCode(phoneCode) && |phoneCode| < 5 && phone != [] && AllDigits(phone) ==>
                var r := ParseStored(request.value.phone); r.Some? && r.value.code != phoneCode
    {
      if !signedIn {
        return None;
      }
      saving := true;
      request := Some(ProfileUpdate(fullName, email, CombinedPhoneAsWritten(phoneCode, phone)));
      if DialCode(phoneCode) && AllDigits(phone) {
        if |phoneCode| == 5 {
          ReloadAsWrittenFullCode(phoneCode, phone);
        } else if phone != [] {
          ReloadAsWrittenMovesDigits(phoneCode, phone);
        }
      }
      saving := false;
    }
  }
}
