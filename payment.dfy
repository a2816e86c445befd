/**
 * The payment-methods screen: the saved cards with exactly one default, the add-card
 * form with its input sanitisers and validation, the card type and the bank issuer
 * guessed from the number, and the grouped and masked display of a number.
 */
module Payment {
  import opened Wrappers
  import opened Text

  datatype CardType = Visa | Mastercard | Amex | Discover

  /** A saved card. */
  datatype CreditCard = CreditCard(id: string, cardNumber: string, cardholderName: string,
                                   expiryMonth: string, expiryYear: string, cvv: string,
                                   isDefault: bool, cardType: CardType, bankIssuer: Option<string>)

  /** The add-card form. */
  datatype NewCard = NewCard(cardNumber: string, cardholderName: string, expiryMonth: string,
                             expiryYear: string, cvv: string)

  const BlankCard := NewCard("", "", "", "", "")

  // ---------------------------------------------------------------------------
  // Input sanitisers
  // ---------------------------------------------------------------------------

  /** The card-number field: white space removed, at most 16 characters kept. */
  function CardNumberInput(text: string): (r: string)
    ensures |r| <= 16 && forall i | 0 <= i < |r| :: !IsSpace(r[i])
  {
    Take(RemoveSpaces(text), 16)
  }

  /** The expiry month and year fields: digits only, at most 2. */
  function ExpiryInput(text: string): (r: string)
    ensures |r| <= 2 && AllDigits(r)
  {
    Take(DigitsOf(text), 2)
  }

  /** The CVV field: digits only, at most 4. */
  function CvvInput(text: string): (r: string)
    ensures |r| <= 4 && AllDigits(r)
  {
    Take(DigitsOf(text), 4)
  }

  /** Every sanitiser leaves its own output as it is. */
  lemma SanitisersIdempotent(text: string)
    ensures CardNumberInput(CardNumberInput(text)) == CardNumberInput(text)
    ensures ExpiryInput(ExpiryInput(text)) == ExpiryInput(text)
    ensures CvvInput(CvvInput(text)) == CvvInput(text)
  {
    var c := CardNumberInput(text);
    KeepCharsAll(c, NotSpace);
    KeepCharsAll(ExpiryInput(text), IsDigit);
    KeepCharsAll(CvvInput(text), IsDigit);
  }

  // ---------------------------------------------------------------------------
  // Validation and card type
  // ---------------------------------------------------------------------------

  /**
   * `validateCard`: the first failing check's message, in the order number, name, expiry,
   * CVV; `None` when the card is acceptable.
   */
  function ValidateCard(c: NewCard): (r: Option<string>)
    ensures r.None? <==> |c.cardNumber| >= 16 && c.cardholderName != "" && c.expiryMonth != ""
                         && c.expiryYear != "" && |c.cvv| >= 3
    ensures |c.cardNumber| < 16 ==> r == Some("Please enter a valid card number")
    ensures |c.cardNumber| >= 16 && c.cardholderName == "" ==> r == Some("Please enter cardholder name")
    ensures |c.cardNumber| >= 16 && c.cardholderName != "" && (c.expiryMonth == "" || c.expiryYear == "") ==>
              r == Some("Please enter expiry date")
    ensures |c.cardNumber| >= 16 && c.cardholderName != "" && c.expiryMonth != "" && c.expiryYear != "" && |c.cvv| < 3 ==>
              r == Some("Please enter a valid CVV")
  {
    if c.cardNumber == "" || |c.cardNumber| < 16 then Some("Please enter a valid card number")
    else if c.cardholderName == "" then Some("Please enter cardholder name")
    else if c.expiryMonth == "" || c.expiryYear == "" then Some("Please enter expiry date")
    else if c.cvv == "" || |c.cvv| < 3 then Some("Please enter a valid CVV")
    else None
  }

  /** The card type from the first digit: 4 Visa, 5 Mastercard, 3 Amex, anything else Discover. */
  function CardTypeOf(number: string): (t: CardType)
    ensures t == Visa <==> StartsWith(number, "4")
    ensures t == Mastercard <==> StartsWith(number, "5")
    ensures t == Amex <==> StartsWith(number, "3")
  {
    if StartsWith(number, "4") then Visa
    else if StartsWith(number, "5") then Mastercard
    else if StartsWith(number, "3") then Amex
    else Discover
  }

  // ---------------------------------------------------------------------------
  // The bank issuer
  // ---------------------------------------------------------------------------

  /**
   * The BIN table that each of the five bank checks consults; all five list the same ten
   * numbers.
   */
  const CommonBins := ["400000", "400001", "400002", "400003", "400004",
                       "400005", "400006", "400007", "400008", "400009"]

  /** The banks assigned by the first four digits. */
  const DemoBanks := ["Bank of America", "Chase", "Wells Fargo", "Citibank", "Capital One"]

  /** `cardNumber.charAt(0)` as the fallback issuer. */
  function IssuerByFirstChar(number: string): string {
    if number == [] then "Credit Card"
    else if number[0] == '4' then "Visa"
    else if number[0] == '5' then "Mastercard"
    else if number[0] == '3' then "American Express"
    else if number[0] == '6' then "Discover"
    else "Credit Card"
  }

  /** The issuer from the leading digit and the first-four value, without the BIN tables. */
  function IssuerByPattern(number: string): string {
    var firstSix := Take(number, 6);
    var cardNum := ParseInt(Take(number, 4));
    if StartsWith(firstSix, "3") then "American Express"
    else if StartsWith(firstSix, "6") then "Discover"
    else if cardNum.Int? && 4000 <= cardNum.value <= 4999 then DemoBanks[cardNum.value % |DemoBanks|]
    else IssuerByFirstChar(number)
  }

  /**
   * `detectBankIssuer`: the five BIN checks in order, then 3 American Express, 6
   * Discover, a first-four value from 4000 to 4999 one of five banks, and otherwise the
   * network of the first digit.
   */
  function DetectBankIssuer(number: string): (r: string)
    ensures r in DemoBanks + ["American Express", "Discover", "Visa", "Mastercard", "Credit Card"]
  {
    var firstSix := Take(number, 6);
    if firstSix in CommonBins then "Bank of America"
    else if firstSix in CommonBins then "Chase"
    else if firstSix in CommonBins then "Wells Fargo"
    else if firstSix in CommonBins then "Citibank"
    else if firstSix in CommonBins then "Capital One"
    else IssuerByPattern(number)
  }

  /** Four digits' value, digit by digit. */
  lemma FourDigitTextValue(s: string)
    requires |s| == 4 && AllDigits(s)
    ensures DigitsValue(s) == DigitValue(s[0]) * 1000 + DigitValue(s[1]) * 100 + DigitValue(s[2]) * 10 + DigitValue(s[3])
  {
    assert s[..3][..2] == s[..2] && s[..2][..1] == s[..1] && s[..1][..0] == [];
    assert DigitsValue(s[..1]) == DigitValue(s[0]);
    assert DigitsValue(s[..2]) == DigitValue(s[0]) * 10 + DigitValue(s[1]);
    assert DigitsValue(s[..3]) == DigitValue(s[0]) * 100 + DigitValue(s[1]) * 10 + DigitValue(s[2]);
  }

  /** White space skipped at the front leaves a suffix. */
  lemma {:induction false} TrimStartSuffix(s: string)
    ensures |TrimStart(s)| <= |s| && TrimStart(s) == s[|s| - |TrimStart(s)|..]
  {
    if s != [] && IsSpace(s[0]) {
      TrimStartSuffix(s[1..]);
    }
  }

  /**
   * The first four characters read as a value from 4000 to 4999 exactly when they are
   * four digits starting with 4.
   */
  lemma DemoRange(number: string)
    ensures (ParseInt(Take(number, 4)).Int? && 4000 <= ParseInt(Take(number, 4)).value <= 4999)
            <==> (|number| >= 4 && AllDigits(number[..4]) && number[0] == '4')
  {
    var s := Take(number, 4);
    if |number| >= 4 && AllDigits(number[..4]) {
      assert s == number[..4];
      FourDigitTextValue(s);
    }
    var v := ParseInt(s);
    if AllDigits(s) && s != [] {
      DigitsValueBound(s);
      if v.Int? && 4000 <= v.value <= 4999 {
        assert |s| == 4 && s == number[..4];
        FourDigitTextValue(s);
      }
    } else {
      TrimStartSuffix(s);
      var t := TrimStart(s);
      var body := if t != [] && (t[0] == '-' || t[0] == '+') then t[1..] else t;
      DigitsValueBound(LeadingDigits(body));
    }
  }

  /** Every listed BIN starts with 4000. */
  lemma BinsStart(bin: string)
    requires bin in CommonBins
    ensures |bin| == 6 && bin[..4] == "4000" && AllDigits(bin[..4])
  {
  }

  /** The BIN tables decide nothing: every number they match gets "Bank of America" from its first four digits too. */
  lemma BinTablesRedundant(number: string)
    ensures DetectBankIssuer(number) == IssuerByPattern(number)
  {
    var firstSix := Take(number, 6);
    if firstSix in CommonBins {
      BinsStart(firstSix);
      assert |number| >= 6 && number[..4] == firstSix[..4];
      DemoRange(number);
      FourDigitTextValue(number[..4]);
    }
  }

  /** The issuer agrees with the card type: Amex numbers are American Express, and so on. */
  lemma IssuerMatchesType(number: string)
    ensures CardTypeOf(number) == Amex ==> DetectBankIssuer(number) == "American Express"
    ensures StartsWith(number, "6") ==> CardTypeOf(number) == Discover && DetectBankIssuer(number) == "Discover"
    ensures CardTypeOf(number) == Mastercard ==> DetectBankIssuer(number) == "Mastercard"
    ensures CardTypeOf(number) == Visa ==> DetectBankIssuer(number) in DemoBanks + ["Visa"]
  {
    BinTablesRedundant(number);
    DemoRange(number);
  }

  /**
   * The issuer by value: four digits starting with 4 pick a demo bank by their value
   * modulo five, any other leading 4 is "Visa", 5, 3 and 6 name their networks, and the
   * empty number or any other leading character gives "Credit Card".
   */
  lemma IssuerValues(number: string)
    ensures |number| >= 4 && AllDigits(number[..4]) && number[0] == '4' ==>
              DetectBankIssuer(number) == DemoBanks[DigitsValue(number[..4]) % 5]
    ensures number != [] && number[0] == '4' && !(|number| >= 4 && AllDigits(number[..4])) ==>
              DetectBankIssuer(number) == "Visa"
    ensures number != [] && number[0] == '5' ==> DetectBankIssuer(number) == "Mastercard"
    ensures number != [] && number[0] == '3' ==> DetectBankIssuer(number) == "American Express"
    ensures number != [] && number[0] == '6' ==> DetectBankIssuer(number) == "Discover"
    ensures number == [] || number[0] !in "3456" ==> DetectBankIssuer(number) == "Credit Card"
  {
    BinTablesRedundant(number);
    DemoRange(number);
    if |number| >= 4 && AllDigits(number[..4]) && number[0] == '4' {
      assert Take(number, 4) == number[..4];
    }
  }

  // ---------------------------------------------------------------------------
  // Display of a number
  // ---------------------------------------------------------------------------

  /** `s.match(/.{1,4}/g)` on text without line terminators: groups of four, the last possibly shorter. */
  function Chunks(s: string): (r: seq<string>)
    ensures forall k | 0 <= k < |r| :: 1 <= |r[k]| <= 4
    ensures forall k | 0 <= k < |r| - 1 :: |r[k]| == 4
    ensures Concat(r) == s
    ensures r == [] <==> s == []
  {
    if s == [] then []
    else if |s| <= 4 then
      assert Concat([s]) == s + Concat([]);
      [s]
    else
      var rest := Chunks(s[4..]);
      assert ([s[..4]] + rest)[1..] == rest;
      [s[..4]] + rest
  }

  /** Each group is a piece of `s`, so has whatever `s` has not. */
  lemma {:induction false} ChunksOf(s: string, k: int, i: int)
    requires 0 <= k < |Chunks(s)| && 0 <= i < |Chunks(s)[k]|
    ensures 4 * k + i < |s|
    ensures Chunks(s)[k][i] == s[4 * k + i]
  {
    if k > 0 {
      ChunksOf(s[4..], k - 1, i);
    }
  }

  /** `formatCardNumber`: white space removed, then groups of four joined by single spaces. */
  function FormatCardNumber(number: string): (r: string) {
    var cleaned := RemoveSpaces(number);
    var groups := Chunks(cleaned);
    if groups == [] then cleaned else Join(groups, ' ')
  }

  /**
   * Formatting only moves spaces: removing them gives the cleaned number back, the
   * groups are the cleaned number's groups of four, and formatting again changes nothing.
   */
  lemma FormatCardNumberSpec(number: string)
    ensures RemoveSpaces(FormatCardNumber(number)) == RemoveSpaces(number)
    ensures RemoveSpaces(number) != "" ==> Split(FormatCardNumber(number), ' ') == Chunks(RemoveSpaces(number))
    ensures FormatCardNumber(FormatCardNumber(number)) == FormatCardNumber(number)
  {
    var cleaned := RemoveSpaces(number);
    var groups := Chunks(cleaned);
    if groups != [] {
      forall k, i | 0 <= k < |groups| && 0 <= i < |groups[k]|
        ensures !IsSpace(groups[k][i])
      {
        ChunksOf(cleaned, k, i);
        assert NotSpace(cleaned[4 * k + i]);
      }
      RemoveSpacesJoin(groups);
      SplitJoin(groups, ' ');
    } else {
      KeepCharsAll(cleaned, NotSpace);
    }
  }

  /** What the source's mask literal actually holds: U+2022 encoded as UTF-8 and read back as Windows-1252. */
  const GarbledBullet: string := "â€¢"

  /**
   * `maskCardNumber` as written: fewer than four non-space characters are shown as
   * typed; otherwise the three-character garbled literal once per hidden character, a
   * space and the last four.
   */
  function MaskCardNumberAsWritten(number: string): (r: string)
    ensures |RemoveSpaces(number)| < 4 ==> r == number
    ensures |RemoveSpaces(number)| >= 4 ==>
              var hidden := |RemoveSpaces(number)| - 4;
              |r| == 3 * hidden + 5
              && (forall i | 0 <= i < hidden :: r[3 * i .. 3 * i + 3] == GarbledBullet)
              && r[3 * hidden] == ' '
              && r[3 * hidden + 1..] == RemoveSpaces(number)[|RemoveSpaces(number)| - 4..]
  {
    var cleaned := RemoveSpaces(number);
    if |cleaned| < 4 then number
    else
      var hidden := Flatten(GarbledBullet, |cleaned| - 4);
      var r := hidden + " " + TakeLast(cleaned, 4);
      assert forall i | 0 <= i < |cleaned| - 4 :: r[3 * i .. 3 * i + 3] == GarbledBullet by {
        forall i | 0 <= i < |cleaned| - 4
          ensures r[3 * i .. 3 * i + 3] == GarbledBullet
        {
          FlattenBlock(GarbledBullet, |cleaned| - 4, i);
        }
      }
      r
  }

  /** `unit.repeat(n)` for a string. */
  function Flatten(unit: string, n: nat): (r: string)
    ensures |r| == n * |unit|
  {
    if n == 0 then "" else unit + Flatten(unit, n - 1)
  }

  /** The `i`-th block of `unit.repeat(n)` is `unit`. */
  lemma {:induction false} FlattenBlock(unit: string, n: nat, i: nat)
    requires i < n
    ensures i * |unit| + |unit| <= |Flatten(unit, n)|
    ensures Flatten(unit, n)[i * |unit| .. i * |unit| + |unit|] == unit
  {
    var u := |unit|;
    var rest := Flatten(unit, n - 1);
    assert Flatten(unit, n) == unit + rest;
    if i > 0 {
      FlattenBlock(unit, n - 1, i - 1);
      assert i * u == u + (i - 1) * u;
      assert (unit + rest)[i * u .. i * u + u] == rest[(i - 1) * u .. (i - 1) * u + u];
    }
  }

  /**
   * `maskCardNumber` as intended: fewer than four non-space characters are shown as
   * typed; otherwise one bullet per hidden character, a space and the last four.
   */
  function MaskCardNumber(number: string): (r: string)
    ensures |RemoveSpaces(number)| < 4 ==> r == number
    ensures |RemoveSpaces(number)| >= 4 ==>
              |r| == |RemoveSpaces(number)| + 1
              && r[..|RemoveSpaces(number)| - 4] == Repeat(Bullet, |RemoveSpaces(number)| - 4)
              && r[|RemoveSpaces(number)| - 4] == ' '
              && r[|RemoveSpaces(number)| - 3..] == RemoveSpaces(number)[|RemoveSpaces(number)| - 4..]
  {
    var cleaned := RemoveSpaces(number);
    if |cleaned| < 4 then number
    else Repeat(Bullet, |cleaned| - 4) + " " + TakeLast(cleaned, 4)
  }

  /**
   * The garbled literal triples the hidden part: with more than four characters to
   * mask, the result starts with "â" instead of a bullet and is longer than the
   * intended one (41 characters instead of 17 for a 16-digit number).
   */
  lemma MaskGarbled(number: string)
    requires |RemoveSpaces(number)| > 4
    ensures |MaskCardNumberAsWritten(number)| == 3 * |RemoveSpaces(number)| - 7
    ensures |MaskCardNumber(number)| == |RemoveSpaces(number)| + 1 < |MaskCardNumberAsWritten(number)|
    ensures MaskCardNumberAsWritten(number)[0] == 'â' && MaskCardNumber(number)[0] == Bullet
  {
    var cleaned := RemoveSpaces(number);
    var hidden := Flatten(GarbledBullet, |cleaned| - 4);
    assert hidden == GarbledBullet + Flatten(GarbledBullet, |cleaned| - 5);
    assert MaskCardNumberAsWritten(number) == hidden + " " + TakeLast(cleaned, 4);
    assert MaskCardNumberAsWritten(number)[0] == hidden[0] == GarbledBullet[0];
  }

  // ---------------------------------------------------------------------------
  // The saved cards
  // ---------------------------------------------------------------------------

  /** The number of default cards. */
  function DefaultCount(cards: seq<CreditCard>): (n: nat)
    ensures n <= |cards|
  {
    if cards == [] then 0 else (if cards[0].isDefault then 1 else 0) + DefaultCount(cards[1..])
  }

  predicate UniqueIds(cards: seq<CreditCard>) {
    forall i, j | 0 <= i < j < |cards| :: cards[i].id != cards[j].id
  }

  /** The list the screen keeps: unique ids, and exactly one default unless there are no cards. */
  predicate WellFormed(cards: seq<CreditCard>) {
    UniqueIds(cards) && (cards == [] || DefaultCount(cards) == 1)
  }

  predicate HasId(cards: seq<CreditCard>, id: string) {
    exists i | 0 <= i < |cards| :: cards[i].id == id
  }

  /** `cards.filter(card => card.id !== cardId)`. */
  function WithoutId(cards: seq<CreditCard>, cardId: string): (r: seq<CreditCard>)
    ensures |r| <= |cards|
    ensures forall i | 0 <= i < |r| :: r[i].id != cardId && r[i] in cards
  {
    if cards == [] then []
    else (if cards[0].id != cardId then [cards[0]] else []) + WithoutId(cards[1..], cardId)
  }

  /** `cards.find(c => c.id === cardId)?.isDefault`. */
  function FoundDefault(cards: seq<CreditCard>, cardId: string): bool {
    if cards == [] then false
    else if cards[0].id == cardId then cards[0].isDefault
    else FoundDefault(cards[1..], cardId)
  }

  /** The list after removing a card: the default passes to the first remaining card if the removed one had it. */
  function AfterRemove(cards: seq<CreditCard>, cardId: string): (r: seq<CreditCard>)
    ensures |r| == |WithoutId(cards, cardId)|
    ensures forall i | 0 <= i < |r| :: r[i].id != cardId
  {
    var updated := WithoutId(cards, cardId);
    if FoundDefault(cards, cardId) && |updated| > 0 then updated[0 := updated[0].(isDefault := true)]
    else updated
  }

  /** `cards.map(card => ({...card, isDefault: card.id === cardId}))`. */
  function AfterSetDefault(cards: seq<CreditCard>, cardId: string): (r: seq<CreditCard>)
    ensures |r| == |cards|
    ensures forall i | 0 <= i < |r| :: r[i] == cards[i].(isDefault := cards[i].id == cardId)
  {
    seq(|cards|, i requires 0 <= i < |cards| => cards[i].(isDefault := cards[i].id == cardId))
  }

  /** Removing a card with unique ids takes away its default, if it had it, and no other. */
  lemma {:induction false} WithoutIdCount(cards: seq<CreditCard>, cardId: string)
    requires UniqueIds(cards)
    ensures DefaultCount(WithoutId(cards, cardId)) + (if FoundDefault(cards, cardId) then 1 else 0) == DefaultCount(cards)
    ensures UniqueIds(WithoutId(cards, cardId))
  {
    if cards != [] {
      WithoutIdCount(cards[1..], cardId);
      var rest := WithoutId(cards[1..], cardId);
      if cards[0].id == cardId {
        assert !HasId(cards[1..], cardId) by {
          forall i | 0 <= i < |cards[1..]| ensures cards[1..][i].id != cardId {
            assert cards[1..][i] == cards[i + 1];
          }
        }
        NotFoundNoDefault(cards[1..], cardId);
        assert WithoutId(cards, cardId) == rest;
      } else {
        var r := [cards[0]] + rest;
        assert WithoutId(cards, cardId) == r;
        assert r[1..] == rest;
        forall i, j | 0 <= i < j < |r| ensures r[i].id != r[j].id {
          if i == 0 {
            assert r[j] in cards[1..];
            var k :| 0 <= k < |cards[1..]| && cards[1..][k] == r[j];
            assert cards[k + 1] == r[j];
          } else {
            assert r[i] == rest[i - 1] && r[j] == rest[j - 1];
          }
        }
      }
    }
  }

  /** A card that is not in the list is not found. */
  lemma {:induction false} NotFoundNoDefault(cards: seq<CreditCard>, cardId: string)
    requires !HasId(cards, cardId)
    ensures !FoundDefault(cards, cardId)
    ensures WithoutId(cards, cardId) == cards
  {
    if cards != [] {
      assert cards[0].id != cardId;
      assert !HasId(cards[1..], cardId) by {
        forall i | 0 <= i < |cards[1..]| ensures cards[1..][i].id != cardId {
          assert cards[1..][i] == cards[i + 1];
        }
      }
      NotFoundNoDefault(cards[1..], cardId);
      assert [cards[0]] + cards[1..] == cards;
    }
  }

  /** Setting the first card's flag adds one default when it had none. */
  lemma SetFirstDefault(cards: seq<CreditCard>)
    requires cards != [] && DefaultCount(cards) == 0
    ensures DefaultCount(cards[0 := cards[0].(isDefault := true)]) == 1
  {
    assert cards[0 := cards[0].(isDefault := true)][1..] == cards[1..];
  }

  /** Removing a card keeps the list well formed. */
  lemma RemoveKeepsOneDefault(cards: seq<CreditCard>, cardId: string)
    requires WellFormed(cards)
    ensures WellFormed(AfterRemove(cards, cardId))
  {
    WithoutIdCount(cards, cardId);
    var updated := WithoutId(cards, cardId);
    if FoundDefault(cards, cardId) && |updated| > 0 {
      SetFirstDefault(updated);
      var r := AfterRemove(cards, cardId);
      assert forall i | 1 <= i < |r| :: r[i] == updated[i];
    }
  }

  /** The number of defaults after making `cardId` the default is the number of cards with that id. */
  lemma {:induction false} SetDefaultCount(cards: seq<CreditCard>, cardId: string)
    ensures HasId(cards, cardId) && UniqueIds(cards) ==> DefaultCount(AfterSetDefault(cards, cardId)) == 1
    ensures !HasId(cards, cardId) ==> DefaultCount(AfterSetDefault(cards, cardId)) == 0
  {
    if cards != [] {
      SetDefaultCount(cards[1..], cardId);
      var r := AfterSetDefault(cards, cardId);
      assert r[1..] == AfterSetDefault(cards[1..], cardId);
      assert UniqueIds(cards) ==> UniqueIds(cards[1..]);
      if cards[0].id == cardId && UniqueIds(cards) {
        assert !HasId(cards[1..], cardId) by {
          forall i | 0 <= i < |cards[1..]| ensures cards[1..][i].id != cardId {
            assert cards[1..][i] == cards[i + 1];
          }
        }
      }
      if cards[0].id != cardId && HasId(cards, cardId) {
        var i :| 0 <= i < |cards| && cards[i].id == cardId;
        assert cards[1..][i - 1] == cards[i];
      }
      if !HasId(cards, cardId) {
        assert !HasId(cards[1..], cardId) by {
          forall i | 0 <= i < |cards[1..]| ensures cards[1..][i].id != cardId {
            assert cards[1..][i] == cards[i + 1];
          }
        }
      }
    }
  }

  /** The card the form describes, with the id and whether it becomes the default. */
  function CardOf(c: NewCard, id: string, isDefault: bool): (card: CreditCard)
    ensures card.cardType == CardTypeOf(c.cardNumber) && card.bankIssuer == Some(DetectBankIssuer(c.cardNumber))
  {
    CreditCard(id, c.cardNumber, c.cardholderName, c.expiryMonth, c.expiryYear, c.cvv, isDefault,
               CardTypeOf(c.cardNumber), Some(DetectBankIssuer(c.cardNumber)))
  }

  /** Adding a card with a new id to a well-formed list keeps it well formed. */
  lemma AddKeepsOneDefault(cards: seq<CreditCard>, c: NewCard, id: string)
    requires WellFormed(cards) && !HasId(cards, id)
    ensures WellFormed(cards + [CardOf(c, id, cards == [])])
  {
    var r := cards + [CardOf(c, id, cards == [])];
    AppendCount(cards, CardOf(c, id, cards == []));
    forall i, j | 0 <= i < j < |r| ensures r[i].id != r[j].id {
      if j == |cards| {
        assert r[i] == cards[i];
      }
    }
  }

  lemma {:induction false} AppendCount(cards: seq<CreditCard>, card: CreditCard)
    ensures DefaultCount(cards + [card]) == DefaultCount(cards) + (if card.isDefault then 1 else 0)
  {
    if cards != [] {
      AppendCount(cards[1..], card);
      assert (cards + [card])[1..] == cards[1..] + [card];
    } else {
      assert cards + [card] == [card];
    }
  }

  class CardWallet {
    var cards: seq<CreditCard>
    var showAddCard: bool
    var newCard: NewCard

    constructor()
      ensures cards == [] && !showAddCard && newCard == BlankCard
    {
      cards := [];
      showAddCard := false;
      newCard := BlankCard;
    }

    /**
     * `loadCards` on mount, given what the stored list parsed to: `None` when nothing
     * was stored or reading it failed, and then the list stays as it is.
     */
    method LoadCards(stored: Option<seq<CreditCard>>)
      modifies this
      ensures stored.Some? ==> cards == stored.value
      ensures stored.None? ==> cards == old(cards)
      ensures newCard == old(newCard) && showAddCard == old(showAddCard)
    {
      if stored.Some? {
        cards := stored.value;
      }
    }

    /** The add-card sheet opens. */
    method OpenAddCard()
      modifies this
      ensures showAddCard
      ensures cards == old(cards) && newCard == old(newCard)
    {
      showAddCard := true;
    }

    /** The add-card sheet closes without adding; what was typed stays in the form. */
    method CloseAddCard()
      modifies this
      ensures !showAddCard
      ensures cards == old(cards) && newCard == old(newCard)
    {
      showAddCard := false;
    }

    /** The cardholder field changed: the text is taken as typed. */
    method OnCardholderText(text: string)
      modifies this
      ensures newCard == old(newCard).(cardholderName := text)
      ensures cards == old(cards) && showAddCard == old(showAddCard)
    {
      newCard := newCard.(cardholderName := text);
    }

    /** The card-number field changed. */
    method OnCardNumberText(text: string)
      modifies this
      ensures newCard == old(newCard).(cardNumber := CardNumberInput(text))
      ensures cards == old(cards) && showAddCard == old(showAddCard)
    {
      newCard := newCard.(cardNumber := CardNumberInput(text));
    }

    /** The expiry-month field changed. */
    method OnExpiryMonthText(text: string)
      modifies this
      ensures newCard == old(newCard).(expiryMonth := ExpiryInput(text))
      ensures cards == old(cards) && showAddCard == old(showAddCard)
    {
      newCard := newCard.(expiryMonth := ExpiryInput(text));
    }

    /** The expiry-year field changed. */
    method OnExpiryYearText(text: string)
      modifies this
      ensures newCard == old(newCard).(expiryYear := ExpiryInput(text))
      ensures cards == old(cards) && showAddCard == old(showAddCard)
    {
      newCard := newCard.(expiryYear := ExpiryInput(text));
    }

    /** The CVV field changed. */
    method OnCvvText(text: string)
      modifies this
      ensures newCard == old(newCard).(cvv := CvvInput(text))
      ensures cards == old(cards) && showAddCard == old(showAddCard)
    {
      newCard := newCard.(cvv := CvvInput(text));
    }

    /**
     * `addCard`: an invalid form changes nothing and reports why; a valid one is appended
     * as a card that is the default exactly when the list was empty, and the form resets
     * and closes. `id` stands for the clock-based id.
     */
    method AddCard(id: string) returns (error: Option<string>)
      modifies this
      ensures error == ValidateCard(old(newCard))
      ensures error.Some? ==> cards == old(cards) && newCard == old(newCard) && showAddCard == old(showAddCard)
      ensures error.None? ==> cards == old(cards) + [CardOf(old(newCard), id, old(cards) == [])]
                              && newCard == BlankCard && !showAddCard
      ensures error.None? && WellFormed(old(cards)) && !HasId(old(cards), id) ==> WellFormed(cards)
    {
      error := ValidateCard(newCard);
      if error.Some? {
        return;
      }
      var card := CardOf(newCard, id, |cards| == 0);
      if WellFormed(cards) && !HasId(cards, id) {
        AddKeepsOneDefault(cards, newCard, id);
      }
      cards := cards + [card];
      newCard := BlankCard;
      showAddCard := false;
    }

    /** `removeCard`, once confirmed: the card goes, and its default passes to the first remaining card. */
    method RemoveCard(cardId: string)
      modifies this
      ensures cards == AfterRemove(old(cards), cardId)
      ensures !HasId(cards, cardId)
      ensures WellFormed(old(cards)) ==> WellFormed(cards)
      ensures newCard == old(newCard) && showAddCard == old(showAddCard)
    {
      var updated := WithoutId(cards, cardId);
      if FoundDefault(cards, cardId) && |updated| > 0 {
        updated := updated[0 := updated[0].(isDefault := true)];
      }
      if WellFormed(cards) {
        RemoveKeepsOneDefault(cards, cardId);
      }
      cards := updated;
    }

    /** `setDefaultCard`: exactly the cards with that id become default; an unknown id leaves none. */
    method SetDefaultCard(cardId: string)
      modifies this
      ensures cards == AfterSetDefault(old(cards), cardId)
      ensures HasId(old(cards), cardId) && UniqueIds(old(cards)) ==> WellFormed(cards)
      ensures !HasId(old(cards), cardId) ==> DefaultCount(cards) == 0
      ensures newCard == old(newCard) && showAddCard == old(showAddCard)
    {
      SetDefaultCount(cards, cardId);
      var updated := AfterSetDefault(cards, cardId);
      assert UniqueIds(cards) ==> UniqueIds(updated) by {
        assert forall i | 0 <= i < |updated| :: updated[i].id == cards[i].id;
      }
      cards := updated;
    }
  }
}
