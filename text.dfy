/**
 * The pieces of JavaScript's string and number behaviour that the screens rely on:
 * the `\s` and `\d` character classes, `trim`, ASCII `toLowerCase`/`toUpperCase`,
 * `slice`, `padStart`, `Number(...)` on decimal text, printing of integers, and the
 * UTF-16 code units that `charCodeAt` sees.
 */
module Text {
  import opened Wrappers

  /** JavaScript's `\d`: the ASCII digits only. */
  predicate IsDigit(c: char) {
    '0' <= c <= '9'
  }

  /** JavaScript's `\s` (and the characters `trim` removes): white space and line terminators. */
  predicate IsSpace(c: char) {
    var n := c as int;
    n == 0x20 || n == 0x09 || n == 0x0A || n == 0x0B || n == 0x0C || n == 0x0D
    || n == 0xA0 || n == 0x1680 || (0x2000 <= n <= 0x200A) || n == 0x2028 || n == 0x2029
    || n == 0x202F || n == 0x205F || n == 0x3000 || n == 0xFEFF
  }

  /** The characters that `.` in a JavaScript regular expression does not match. */
  predicate IsLineTerminator(c: char) {
    var n := c as int;
    n == 0x0A || n == 0x0D || n == 0x2028 || n == 0x2029
  }

  /** JavaScript's `\w`, which decides where `\b` stands. */
  predicate IsWordChar(c: char) {
    IsDigit(c) || ('a' <= c <= 'z') || ('A' <= c <= 'Z') || c == '_'
  }

  predicate AllDigits(s: string) {
    forall i | 0 <= i < |s| :: IsDigit(s[i])
  }

  /** JavaScript truthiness of an optional string: present and not empty. */
  predicate Truthy(o: Option<string>) {
    o.Some? && o.value != ""
  }

  /** `a || b` on optional strings. */
  function Or(a: Option<string>, b: Option<string>): Option<string> {
    if Truthy(a) then a else b
  }

  /** `value || ""` on an optional text. */
  function TextOf(o: Option<string>): (r: string)
    ensures Truthy(o) ==> r == o.value
    ensures !Truthy(o) ==> r == ""
  {
    if Truthy(o) then o.value else ""
  }

  /** `s.replace(/[^...]/g, "")`: the characters of `s` that satisfy `keep`, in order. */
  function KeepChars(s: string, keep: char -> bool): (r: string)
    ensures |r| <= |s|
    ensures forall i | 0 <= i < |r| :: keep(r[i])
  {
    if s == [] then []
    else (if keep(s[0]) then [s[0]] else []) + KeepChars(s[1..], keep)
  }

  predicate NotSpace(c: char) {
    !IsSpace(c)
  }

  /** `s.replace(/\D/g, "")` (also `/\D+/g`). */
  function DigitsOf(s: string): string {
    KeepChars(s, IsDigit)
  }

  /** `s.replace(/\s/g, "")` (also `/\s+/g`). */
  function RemoveSpaces(s: string): string {
    KeepChars(s, NotSpace)
  }

  function TrimStart(s: string): string {
    if s != [] && IsSpace(s[0]) then TrimStart(s[1..]) else s
  }

  function TrimEnd(s: string): string {
    if s != [] && IsSpace(s[|s| - 1]) then TrimEnd(s[..|s| - 1]) else s
  }

  /** `s.trim()`. */
  function Trim(s: string): string {
    TrimEnd(TrimStart(s))
  }

  function LowerChar(c: char): char {
    if 'A' <= c <= 'Z' then (c as int + 32) as char else c
  }

  function UpperChar(c: char): char {
    if 'a' <= c <= 'z' then (c as int - 32) as char else c
  }

  /** `TrimEnd` only drops characters from the end: it returns a prefix. */
  lemma {:induction false} TrimEndPrefix(s: string)
    ensures |TrimEnd(s)| <= |s| && TrimEnd(s) == s[..|TrimEnd(s)|]
  {
    if s != [] && IsSpace(s[|s| - 1]) {
      TrimEndPrefix(s[..|s| - 1]);
    }
  }

  /** After `TrimEnd`, the text is empty or ends in a non-space, so a second `TrimEnd` does nothing. */
  lemma {:induction false} TrimEndIdempotent(s: string)
    ensures TrimEnd(s) == [] || !IsSpace(TrimEnd(s)[|TrimEnd(s)| - 1])
    ensures TrimEnd(TrimEnd(s)) == TrimEnd(s)
  {
    if s != [] && IsSpace(s[|s| - 1]) {
      TrimEndIdempotent(s[..|s| - 1]);
    }
  }

  /** After `TrimStart`, the text is empty or starts with a non-space. */
  lemma {:induction false} TrimStartFirst(s: string)
    ensures TrimStart(s) == [] || !IsSpace(TrimStart(s)[0])
  {
    if s != [] && IsSpace(s[0]) {
      TrimStartFirst(s[1..]);
    }
  }

  /** `trim` of a trimmed text changes nothing; a trimmed text starts and ends with a non-space. */
  lemma TrimIdempotent(s: string)
    ensures Trim(Trim(s)) == Trim(s)
    ensures Trim(s) != [] ==> !IsSpace(Trim(s)[0]) && !IsSpace(Trim(s)[|Trim(s)| - 1])
  {
    var a := TrimStart(s);
    TrimStartFirst(s);
    TrimEndPrefix(a);
    TrimEndIdempotent(a);
  }

  /** A text that starts and ends with a non-space is its own `trim`. */
  lemma TrimOfTrimmed(s: string)
    requires s != [] && !IsSpace(s[0]) && !IsSpace(s[|s| - 1])
    ensures TrimStart(s) == s && TrimEnd(s) == s && Trim(s) == s
  {
  }

  /** `s.toLowerCase()` on ASCII letters. */
  function Lower(s: string): (r: string)
    ensures |r| == |s|
  {
    seq(|s|, i requires 0 <= i < |s| => LowerChar(s[i]))
  }

  /** `s.toUpperCase()` on ASCII letters. */
  function Upper(s: string): (r: string)
    ensures |r| == |s|
  {
    seq(|s|, i requires 0 <= i < |s| => UpperChar(s[i]))
  }

  /** `s.startsWith(p)`. */
  predicate StartsWith(s: string, p: string) {
    |p| <= |s| && s[..|p|] == p
  }

  /** `s.includes(q)`. */
  predicate Contains(s: string, q: string) {
    exists i | 0 <= i <= |s| :: OccursAt(s, q, i)
  }

  /** `q` stands in `s` from index `i` on. */
  predicate OccursAt(s: string, q: string, i: int) {
    0 <= i <= |s| - |q| && s[i..i + |q|] == q
  }

  /** `s.slice(0, n)`. */
  function Take(s: string, n: nat): (r: string)
    ensures |r| == if n < |s| then n else |s|
  {
    if n < |s| then s[..n] else s
  }

  /** `s.slice(-n)` for a positive `n`. */
  function TakeLast(s: string, n: nat): (r: string)
    ensures |r| == if n < |s| then n else |s|
  {
    if n < |s| then s[|s| - n..] else s
  }

  /** The mask character, U+2022 BULLET. */
  const Bullet: char := '\U{2022}'

  /** `c.repeat(n)`. */
  function Repeat(c: char, n: nat): (r: string)
    ensures |r| == n && forall i | 0 <= i < n :: r[i] == c
  {
    seq(n, _ => c)
  }

  /** `s.padStart(width, "0")`. */
  function PadStart(s: string, width: nat): (r: string)
  {
    if |s| < width then Repeat('0', width - |s|) + s else s
  }

  function DigitChar(d: nat): char
    requires d < 10
  {
    ('0' as int + d) as char
  }

  function DigitValue(c: char): nat
    requires IsDigit(c)
  {
    c as int - '0' as int
  }

  /** The decimal text JavaScript prints for a non-negative integer. */
  function NatToString(n: nat): (r: string)
    ensures 1 <= |r| && AllDigits(r)
  {
    if n < 10 then [DigitChar(n)] else NatToString(n / 10) + [DigitChar(n % 10)]
  }

  /** The decimal text JavaScript prints for an integer. */
  function IntToString(i: int): string {
    if i < 0 then "-" + NatToString(-i) else NatToString(i)
  }

  /** The value of a string of decimal digits (`parseInt` on all-digit text). */
  function DigitsValue(s: string): nat
    requires AllDigits(s)
  {
    if s == [] then 0 else DigitsValue(s[..|s| - 1]) * 10 + DigitValue(s[|s| - 1])
  }

  /** Printing a number and reading it back gives the number. */
  lemma {:induction false} DigitsValueOfNatToString(n: nat)
    ensures DigitsValue(NatToString(n)) == n
  {
    if n >= 10 {
      var r := NatToString(n);
      assert r[..|r| - 1] == NatToString(n / 10);
      DigitsValueOfNatToString(n / 10);
    }
  }

  /** The printed form has no leading zero, so distinct numbers print differently. */
  lemma NatToStringInjective(a: nat, b: nat)
    requires NatToString(a) == NatToString(b)
    ensures a == b
  {
    DigitsValueOfNatToString(a);
    DigitsValueOfNatToString(b);
  }

  /** `s.split(c)` for a one-character separator: the fields between the separators. */
  function Split(s: string, c: char): (r: seq<string>)
    ensures |r| >= 1
    ensures forall k | 0 <= k < |r| :: c !in r[k]
  {
    if s == [] then [""]
    else
      var rest := Split(s[1..], c);
      if s[0] == c then [""] + rest else [[s[0]] + rest[0]] + rest[1..]
  }

  /** `fields.join(c)`. */
  function Join(fields: seq<string>, c: char): string
    requires |fields| >= 1
  {
    if |fields| == 1 then fields[0] else fields[0] + [c] + Join(fields[1..], c)
  }

  /** Splitting and joining again with the same separator gives the text back. */
  lemma {:induction false} JoinSplit(s: string, c: char)
    ensures Join(Split(s, c), c) == s
  {
    if s != [] {
      JoinSplit(s[1..], c);
      var rest := Split(s[1..], c);
      if s[0] != c {
        if |rest| == 1 {
          assert Split(s, c) == [[s[0]] + rest[0]];
        } else {
          assert Split(s, c)[1..] == rest[1..];
        }
      } else {
        assert Split(s, c)[1..] == rest;
      }
    }
  }

  /** A separator-free prefix followed by the separator is the first field. */
  lemma {:induction false} SplitAfterField(a: string, c: char, b: string)
    requires c !in a
    ensures Split(a + [c] + b, c) == [a] + Split(b, c)
  {
    if a != [] {
      SplitAfterField(a[1..], c, b);
      assert (a + [c] + b)[0] == a[0] && a[0] != c;
      assert (a + [c] + b)[1..] == a[1..] + [c] + b;
      assert [a[0]] + a[1..] == a;
    } else {
      assert (a + [c] + b)[0] == c;
      assert (a + [c] + b)[1..] == b;
    }
  }

  /** Text without the separator is a single field. */
  lemma {:induction false} SplitNoSeparator(s: string, c: char)
    requires c !in s
    ensures Split(s, c) == [s]
  {
    if s != [] {
      SplitNoSeparator(s[1..], c);
      assert s[0] != c;
      assert [s[0]] + s[1..] == s;
    }
  }

  /** A JavaScript number as far as these screens use one: an integer or NaN. */
  datatype Num = Int(value: int) | NaN {
    function ToString(): string {
      match this
      case Int(v) => IntToString(v)
      case NaN => "NaN"
    }
  }

  /**
   * `Number(s)`: surrounding white space is ignored, the empty text is 0, optionally
   * signed decimal digits give their value, anything else is NaN.
   */
  function NumberOf(s: string): (r: Num)
    ensures AllDigits(s) && s != [] ==> r == Int(DigitsValue(s))
  {
    var t := Trim(s);
    if t == "" then Int(0)
    else if AllDigits(t) then Int(DigitsValue(t))
    else if |t| >= 2 && (t[0] == '-' || t[0] == '+') && AllDigits(t[1..]) then
      Int(if t[0] == '-' then -(DigitsValue(t[1..]) as int) else DigitsValue(t[1..]))
    else NaN
  }

  /** The UTF-16 code units of `s`, which is what `charCodeAt` and `split("")` see. */
  function Utf16Units(s: string): (r: seq<int>)
    ensures forall i | 0 <= i < |r| :: 0 <= r[i] < 0x1_0000
    ensures |r| >= |s|
  {
    if s == [] then []
    else
      var n := s[0] as int;
      (if n < 0x1_0000 then [n]
       else [0xD800 + (n - 0x1_0000) / 0x400, 0xDC00 + (n - 0x1_0000) % 0x400])
      + Utf16Units(s[1..])
  }

  /** The leading run of decimal digits of `s`. */
  function LeadingDigits(s: string): (r: string)
    ensures AllDigits(r) && |r| <= |s| && r == s[..|r|]
    ensures |r| < |s| ==> !IsDigit(s[|r|])
  {
    if s != [] && IsDigit(s[0]) then [s[0]] + LeadingDigits(s[1..]) else []
  }

  /**
   * `parseInt(s)` with a decimal radix: leading white space is skipped, a sign is
   * allowed, and the leading digits are read; without digits the result is NaN.
   */
  function ParseInt(s: string): (r: Num)
    ensures AllDigits(s) && s != [] ==> r == Int(DigitsValue(s))
  {
    var t := TrimStart(s);
    var neg := t != [] && t[0] == '-';
    var body := if t != [] && (t[0] == '-' || t[0] == '+') then t[1..] else t;
    var d := LeadingDigits(body);
    if AllDigits(s) && s != [] then
      assert TrimStart(s) == s;
      assert LeadingDigits(s) == s by { LeadingDigitsAll(s); }
      Int(DigitsValue(s))
    else if d == [] then NaN
    else Int(if neg then -(DigitsValue(d) as int) else DigitsValue(d))
  }

  lemma {:induction false} LeadingDigitsAll(s: string)
    requires AllDigits(s)
    ensures LeadingDigits(s) == s
  {
    if s != [] {
      LeadingDigitsAll(s[1..]);
    }
  }

  /** Fewer than four digits are worth less than 1000. */
  lemma {:induction false} DigitsValueBound(s: string)
    requires AllDigits(s)
    ensures |s| <= 3 ==> DigitsValue(s) < 1000
    ensures |s| <= 2 ==> DigitsValue(s) < 100
    ensures |s| <= 1 ==> DigitsValue(s) < 10
  {
    if s != [] {
      DigitsValueBound(s[..|s| - 1]);
    }
  }

  /** `KeepChars` distributes over concatenation. */
  lemma {:induction false} KeepCharsAppend(a: string, b: string, keep: char -> bool)
    ensures KeepChars(a + b, keep) == KeepChars(a, keep) + KeepChars(b, keep)
  {
    if a != [] {
      KeepCharsAppend(a[1..], b, keep);
      assert (a + b)[0] == a[0] && (a + b)[1..] == a[1..] + b;
    } else {
      assert a + b == b;
    }
  }

  /** Text whose every character is kept comes through unchanged. */
  lemma {:induction false} KeepCharsAll(s: string, keep: char -> bool)
    requires forall i | 0 <= i < |s| :: keep(s[i])
    ensures KeepChars(s, keep) == s
  {
    if s != [] {
      KeepCharsAll(s[1..], keep);
      assert [s[0]] + s[1..] == s;
    }
  }

  /** The fields one after another. */
  function Concat(fields: seq<string>): string {
    if fields == [] then "" else fields[0] + Concat(fields[1..])
  }

  /** Joining space-free fields with a space and removing the spaces again gives the fields run together. */
  lemma {:induction false} RemoveSpacesJoin(fields: seq<string>)
    requires |fields| >= 1
    requires forall k, i | 0 <= k < |fields| && 0 <= i < |fields[k]| :: !IsSpace(fields[k][i])
    ensures RemoveSpaces(Join(fields, ' ')) == Concat(fields)
  {
    KeepCharsAll(fields[0], NotSpace);
    if |fields| > 1 {
      RemoveSpacesJoin(fields[1..]);
      KeepCharsAppend(fields[0] + [' '], Join(fields[1..], ' '), NotSpace);
      KeepCharsAppend(fields[0], [' '], NotSpace);
      assert KeepChars([' '], NotSpace) == [];
    } else {
      assert Concat(fields) == fields[0] + Concat([]);
    }
  }

  /** Splitting fields joined with a separator they do not hold gives the fields back. */
  lemma {:induction false} SplitJoin(fields: seq<string>, c: char)
    requires |fields| >= 1
    requires forall k | 0 <= k < |fields| :: c !in fields[k]
    ensures Split(Join(fields, c), c) == fields
  {
    if |fields| == 1 {
      SplitNoSeparator(fields[0], c);
    } else {
      SplitJoin(fields[1..], c);
      SplitAfterField(fields[0], c, Join(fields[1..], c));
      assert [fields[0]] + fields[1..] == fields;
    }
  }

  /** Two texts with the same UTF-16 code units are the same text: the encoding loses nothing. */
  lemma {:induction false} Utf16Injective(a: string, b: string)
    requires Utf16Units(a) == Utf16Units(b)
    ensures a == b
  {
    if a != [] && b != [] {
      var ua, ub := Utf16Units(a), Utf16Units(b);
      var na, nb := a[0] as int, b[0] as int;
      var ka := if na < 0x1_0000 then 1 else 2;
      var kb := if nb < 0x1_0000 then 1 else 2;
      assert ua[0] == ub[0];
      assert ka == kb;
      assert ua[ka..] == Utf16Units(a[1..]);
      assert ub[kb..] == Utf16Units(b[1..]);
      if ka == 2 {
        assert ua[1] == ub[1];
        assert na == nb;
      }
      Utf16Injective(a[1..], b[1..]);
      assert a == [a[0]] + a[1..];
      assert b == [b[0]] + b[1..];
    }
  }

  /** `TrimStart` drops exactly a run of leading white space before a non-space. */
  lemma {:induction false} TrimStartSpaces(sp: string, t: string)
    requires forall i | 0 <= i < |sp| :: IsSpace(sp[i])
    requires t == [] || !IsSpace(t[0])
    ensures TrimStart(sp + t) == t
  {
    if sp == [] {
      assert sp + t == t;
    } else {
      assert (sp + t)[1..] == sp[1..] + t;
      TrimStartSpaces(sp[1..], t);
    }
  }

  /** `TrimStart` returns a suffix, and what it drops is white space. */
  lemma {:induction false} TrimStartSuffix(s: string)
    ensures |TrimStart(s)| <= |s| && TrimStart(s) == s[|s| - |TrimStart(s)|..]
    ensures forall i | 0 <= i < |s| - |TrimStart(s)| :: IsSpace(s[i])
  {
    if s != [] && IsSpace(s[0]) {
      TrimStartSuffix(s[1..]);
    }
  }

  /** When `s` starts with `k` digits, its leading digits start with them, and are them when no digit follows. */
  lemma {:induction false} LeadingDigitsPrefix(s: string, k: nat)
    requires k <= |s| && AllDigits(s[..k])
    ensures k <= |LeadingDigits(s)| && LeadingDigits(s)[..k] == s[..k]
    ensures (k == |s| || !IsDigit(s[k])) ==> LeadingDigits(s) == s[..k]
  {
    if k > 0 {
      assert IsDigit(s[..k][0]);
      assert s[1..][..k - 1] == s[..k][1..];
      LeadingDigitsPrefix(s[1..], k - 1);
    }
  }

  /** Upper-casing leaves the digits of a text as they were. */
  lemma {:induction false} DigitsOfUpper(s: string)
    ensures DigitsOf(Upper(s)) == DigitsOf(s)
  {
    if s != [] {
      assert Upper(s)[1..] == Upper(s[1..]);
      assert IsDigit(Upper(s)[0]) <==> IsDigit(s[0]);
      DigitsOfUpper(s[1..]);
    }
  }

  /** Removing white space leaves the digits of a text as they were. */
  lemma {:induction false} DigitsOfRemoveSpaces(s: string)
    ensures DigitsOf(RemoveSpaces(s)) == DigitsOf(s)
  {
    if s != [] {
      DigitsOfRemoveSpaces(s[1..]);
      var t := RemoveSpaces(s[1..]);
      if NotSpace(s[0]) {
        assert RemoveSpaces(s) == [s[0]] + t;
        assert ([s[0]] + t)[1..] == t;
        assert DigitsOf([s[0]] + t) == (if IsDigit(s[0]) then [s[0]] else []) + DigitsOf(t);
      } else {
        assert RemoveSpaces(s) == t;
        assert !IsDigit(s[0]);
        assert DigitsOf(s) == DigitsOf(s[1..]);
      }
    }
  }
}
