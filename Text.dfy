/** ASCII text helpers with the meaning JavaScript gives them on ASCII input:
    `toLowerCase`, the `\s` character class, `trim`, `includes`, decimal
    rendering of integers in template strings, `parseInt` in base 10, and
    `length`, which counts UTF-16 code units. */
module Text {

  // ---------------------------------------------------------------------------
  // Characters

  /** ASCII members of JavaScript's `\s`: space, tab, line feed, vertical tab,
      form feed and carriage return. */
  predicate IsWhitespace(c: char) {
    c == ' ' || c == '\t' || c == '\n' || c == '\U{B}' || c == '\U{C}' || c == '\r'
  }

  predicate IsUpper(c: char) {
    'A' <= c <= 'Z'
  }

  predicate IsDigit(c: char) {
    '0' <= c <= '9'
  }

  /** `toLowerCase` on one ASCII character; every other character is kept. */
  function LowerChar(c: char): (r: char)
    ensures !IsUpper(r)
    ensures IsWhitespace(r) <==> IsWhitespace(c)
    ensures !IsUpper(c) ==> r == c
  {
    if IsUpper(c) then (c as int + 32) as char else c
  }

  // ---------------------------------------------------------------------------
  // Whole strings

  /** `s.toLowerCase()` restricted to ASCII. */
  function ToLower(s: string): (r: string)
    ensures |r| == |s|
    ensures forall i :: 0 <= i < |s| ==> r[i] == LowerChar(s[i])
  {
    seq(|s|, i requires 0 <= i < |s| => LowerChar(s[i]))
  }

  predicate NoUpper(s: string) {
    forall i :: 0 <= i < |s| ==> !IsUpper(s[i])
  }

  predicate NoWhitespace(s: string) {
    forall i :: 0 <= i < |s| ==> !IsWhitespace(s[i])
  }

  predicate AllWhitespace(s: string) {
    forall i :: 0 <= i < |s| ==> IsWhitespace(s[i])
  }

  /** `s.replace(/\s+/g, '')`: every whitespace character removed, the others kept in order. */
  function StripWhitespace(s: string): (r: string)
    ensures |r| <= |s|
    ensures NoWhitespace(r)
  {
    if s == [] then []
    else (if IsWhitespace(s[0]) then [] else [s[0]]) + StripWhitespace(s[1..])
  }

  /** Leading whitespace removed (the first half of `trim`). */
  function TrimStart(s: string): (r: string)
    ensures |r| <= |s|
    ensures r == [] || !IsWhitespace(r[0])
  {
    if s != [] && IsWhitespace(s[0]) then TrimStart(s[1..]) else s
  }

  /** Trailing whitespace removed (the second half of `trim`). */
  function TrimEnd(s: string): (r: string)
    ensures |r| <= |s|
    ensures r == [] || !IsWhitespace(r[|r| - 1])
  {
    if s != [] && IsWhitespace(s[|s| - 1]) then TrimEnd(s[..|s| - 1]) else s
  }

  /** What `TrimStart` keeps is a suffix of its argument. */
  lemma {:induction false} TrimStartIsSuffix(s: string)
    ensures TrimStart(s) == s[|s| - |TrimStart(s)|..]
  {
    if s != [] && IsWhitespace(s[0]) {
      TrimStartIsSuffix(s[1..]);
    }
  }

  /** What `TrimEnd` keeps is a prefix of its argument. */
  lemma {:induction false} TrimEndIsPrefix(s: string)
    ensures TrimEnd(s) == s[..|TrimEnd(s)|]
  {
    if s != [] && IsWhitespace(s[|s| - 1]) {
      TrimEndIsPrefix(s[..|s| - 1]);
    }
  }

  /** `s.trim()`. */
  function Trim(s: string): string {
    TrimEnd(TrimStart(s))
  }

  /** `p` is a prefix of `s`. */
  predicate StartsWith(s: string, p: string) {
    |p| <= |s| && s[..|p|] == p
  }

  /** `s.includes(sub)`: `sub` occurs in `s` at some position. */
  predicate Contains(s: string, sub: string)
    decreases |s|
  {
    StartsWith(s, sub) || (|s| > 0 && Contains(s[1..], sub))
  }

  // ---------------------------------------------------------------------------
  // String length

  /** A character outside the Basic Multilingual Plane, which UTF-16 writes as a surrogate pair. */
  predicate IsAstral(c: char) {
    c as int >= 0x10000
  }

  /** JavaScript's `s.length`: the number of UTF-16 code units, two for each
      astral character and one for every other. */
  function Utf16Length(s: string): (n: nat)
    ensures |s| <= n <= 2 * |s|
    ensures n == 0 <==> s == []
  {
    if s == [] then 0 else (if IsAstral(s[0]) then 2 else 1) + Utf16Length(s[1..])
  }

  /** Without astral characters, `length` counts characters. */
  lemma {:induction false} Utf16LengthWithoutAstral(s: string)
    requires forall i :: 0 <= i < |s| ==> !IsAstral(s[i])
    ensures Utf16Length(s) == |s|
  {
    if s != [] {
      Utf16LengthWithoutAstral(s[1..]);
    }
  }

  /** A text of astral characters only has twice as many code units as characters. */
  lemma {:induction false} Utf16LengthOfAstral(s: string)
    requires forall i :: 0 <= i < |s| ==> IsAstral(s[i])
    ensures Utf16Length(s) == 2 * |s|
  {
    if s != [] {
      Utf16LengthOfAstral(s[1..]);
    }
  }

  // ---------------------------------------------------------------------------
  // Decimal numerals

  function DigitChar(d: nat): (c: char)
    requires d < 10
    ensures IsDigit(c)
  {
    ('0' as int + d) as char
  }

  function DigitValue(c: char): (d: nat)
    requires IsDigit(c)
    ensures d < 10
  {
    c as int - '0' as int
  }

  predicate AllDigits(s: string) {
    forall i :: 0 <= i < |s| ==> IsDigit(s[i])
  }

  /** How a template string renders a non-negative integer: its shortest decimal numeral. */
  function NatToString(n: nat): (s: string)
    ensures |s| >= 1 && AllDigits(s)
    ensures s[0] == '0' ==> n == 0
    decreases n
  {
    if n < 10 then [DigitChar(n)] else NatToString(n / 10) + [DigitChar(n % 10)]
  }

  /** How a template string renders any integer. */
  function IntToString(i: int): (s: string)
    ensures |s| >= 1
  {
    if i < 0 then "-" + NatToString(-i) else NatToString(i)
  }

  /** The value of a numeral made of decimal digits (the empty numeral is 0). */
  function ParseDecimal(s: string): nat
    requires AllDigits(s)
  {
    if s == [] then 0 else 10 * ParseDecimal(s[..|s| - 1]) + DigitValue(s[|s| - 1])
  }

  /** Reading back a rendered numeral gives the number that was rendered. */
  lemma {:induction false} ParseDecimalOfNatToString(n: nat)
    ensures ParseDecimal(NatToString(n)) == n
    decreases n
  {
    if n >= 10 {
      var s := NatToString(n);
      assert s[..|s| - 1] == NatToString(n / 10);
      ParseDecimalOfNatToString(n / 10);
    }
  }

  /** Different numbers render differently. */
  lemma NatToStringInjective(a: nat, b: nat)
    requires NatToString(a) == NatToString(b)
    ensures a == b
  {
    ParseDecimalOfNatToString(a);
    ParseDecimalOfNatToString(b);
  }

  // ---------------------------------------------------------------------------
  // parseInt

  /** A JavaScript number as it arises from `parseInt`: an integer, or `NaN`. */
  datatype JsNumber = Finite(value: int) | NaN

  /** The longest prefix of `s` made of decimal digits. */
  function DigitPrefix(s: string): (p: string)
    ensures AllDigits(p) && StartsWith(s, p)
    ensures |p| < |s| ==> !IsDigit(s[|p|])
  {
    if s != [] && IsDigit(s[0]) then [s[0]] + DigitPrefix(s[1..]) else []
  }

  /** The value of the longest run of digits at the start of `r`; `NaN` when there is none. */
  function ParseDigits(r: string): JsNumber {
    var digits := DigitPrefix(r);
    if digits == [] then NaN else Finite(ParseDecimal(digits))
  }

  /** One optional sign, then digits. */
  function ParseSigned(t: string): JsNumber {
    if t != [] && t[0] == '-' then
      match ParseDigits(t[1..])
      case NaN => NaN
      case Finite(v) => Finite(-v)
    else if t != [] && t[0] == '+' then ParseDigits(t[1..])
    else ParseDigits(t)
  }

  /** `parseInt(s)` in base 10: leading whitespace is skipped, one sign is
      read, then the longest run of digits; no digits at all gives `NaN`. */
  function ParseInt(s: string): JsNumber {
    ParseSigned(TrimStart(s))
  }

  /** A string made only of digits is its own digit prefix. */
  lemma {:induction false} DigitPrefixOfDigits(s: string)
    requires AllDigits(s)
    ensures DigitPrefix(s) == s
  {
    if s != [] {
      DigitPrefixOfDigits(s[1..]);
    }
  }

  /** A digit prefix ends where the first non-digit starts. */
  lemma {:induction false} DigitPrefixOfDigitsThen(d: string, rest: string)
    requires AllDigits(d)
    requires rest == [] || !IsDigit(rest[0])
    ensures DigitPrefix(d + rest) == d
  {
    if d != [] {
      assert (d + rest)[1..] == d[1..] + rest;
      DigitPrefixOfDigitsThen(d[1..], rest);
    } else {
      assert d + rest == rest;
    }
  }

  /** The digits of a rendered number, followed by anything that is not a digit,
      read back as that number. */
  lemma ParseDigitsOfNatToString(n: nat, rest: string)
    requires rest == [] || !IsDigit(rest[0])
    ensures ParseDigits(NatToString(n) + rest) == Finite(n)
  {
    DigitPrefixOfDigitsThen(NatToString(n), rest);
    ParseDecimalOfNatToString(n);
  }

  /** `parseInt` reads a rendered number back from the start of a string. */
  lemma ParseIntOfNatToString(n: nat, rest: string)
    requires rest == [] || !IsDigit(rest[0])
    ensures ParseInt(NatToString(n) + rest) == Finite(n)
  {
    var numeral := NatToString(n);
    var d := numeral + rest;
    ParseDigitsOfNatToString(n, rest);
    assert d[0] == numeral[0];
    ParseIntAtDigit(d);
  }

  /** A text that starts with a digit is read as its digit prefix. */
  lemma ParseIntAtDigit(d: string)
    requires d != [] && IsDigit(d[0])
    ensures ParseInt(d) == ParseDigits(d)
  {
    assert TrimStart(d) == d && d[0] != '-' && d[0] != '+';
  }

  /** A minus sign negates the digits that follow it. */
  lemma ParseIntOfMinus(d: string, v: int)
    requires ParseDigits(d) == Finite(v)
    ensures ParseInt("-" + d) == Finite(-v)
  {
    var s := "-" + d;
    assert s[0] == '-' && s[1..] == d;
    assert TrimStart(s) == s;
  }

  lemma ParseIntOfNegative(n: nat)
    ensures ParseInt("-" + NatToString(n)) == Finite(-(n as int))
  {
    ParseDigitsOfNatToString(n, []);
    assert NatToString(n) + [] == NatToString(n);
    ParseIntOfMinus(NatToString(n), n);
  }

  lemma ParseIntOfNonNegative(n: nat)
    ensures ParseInt(NatToString(n)) == Finite(n)
  {
    ParseIntOfNatToString(n, []);
    assert NatToString(n) + [] == NatToString(n);
  }

  /** `parseInt` reads back the numeral of every integer. */
  lemma ParseIntOfIntToString(i: int)
    ensures ParseInt(IntToString(i)) == Finite(i)
  {
    if i < 0 {
      var n: nat := -i;
      assert IntToString(i) == "-" + NatToString(n);
      ParseIntOfNegative(n);
    } else {
      var n: nat := i;
      assert IntToString(i) == NatToString(n);
      ParseIntOfNonNegative(n);
    }
  }

  /** An empty field (what a browser number input yields for unreadable text) parses to `NaN`. */
  lemma ParseIntOfEmpty()
    ensures ParseInt("") == NaN
  {
  }

  // ---------------------------------------------------------------------------
  // Lemmas about lower-casing, whitespace and search

  /** `toLowerCase` and removing whitespace commute on ASCII text. */
  lemma {:induction false} LowerStripCommute(s: string)
    ensures ToLower(StripWhitespace(s)) == StripWhitespace(ToLower(s))
  {
    if s != [] {
      LowerStripCommute(s[1..]);
      assert ToLower(s)[1..] == ToLower(s[1..]);
      var head := if IsWhitespace(s[0]) then [] else [s[0]];
      assert ToLower(head + StripWhitespace(s[1..])) == ToLower(head) + ToLower(StripWhitespace(s[1..]));
    }
  }

  /** Lower-casing twice changes nothing more. */
  lemma LowerIdempotent(s: string)
    ensures ToLower(ToLower(s)) == ToLower(s)
  {
  }

  /** Text that is already lower case is left unchanged. */
  lemma LowerOfNoUpper(s: string)
    requires NoUpper(s)
    ensures ToLower(s) == s
  {
  }

  /** Removing whitespace distributes over concatenation. */
  lemma {:induction false} StripAppend(a: string, b: string)
    ensures StripWhitespace(a + b) == StripWhitespace(a) + StripWhitespace(b)
  {
    if a != [] {
      assert (a + b)[1..] == a[1..] + b;
      StripAppend(a[1..], b);
    } else {
      assert a + b == b;
    }
  }

  /** Text without whitespace is left unchanged by the removal. */
  lemma {:induction false} StripOfNoWhitespace(s: string)
    requires NoWhitespace(s)
    ensures StripWhitespace(s) == s
  {
    if s != [] {
      StripOfNoWhitespace(s[1..]);
    }
  }

  /** Removal leaves nothing exactly when the text is whitespace only. */
  lemma {:induction false} StripEmptyIffAllWhitespace(s: string)
    ensures StripWhitespace(s) == [] <==> AllWhitespace(s)
  {
    if s != [] {
      StripEmptyIffAllWhitespace(s[1..]);
      if AllWhitespace(s) {
        assert AllWhitespace(s[1..]);
      }
      if AllWhitespace(s[1..]) && IsWhitespace(s[0]) {
        forall i | 0 <= i < |s| ensures IsWhitespace(s[i]) {
          if i > 0 { assert s[i] == s[1..][i - 1]; }
        }
      }
    }
  }

  /** `s.trim()` is empty exactly when `s` is whitespace only. */
  lemma {:induction false} TrimEmptyIffAllWhitespace(s: string)
    ensures Trim(s) == [] <==> AllWhitespace(s)
  {
    TrimStartEmptyIffAllWhitespace(s);
    var t := TrimStart(s);
    assert TrimEnd(t) == [] <==> t == [] by {
      if t != [] {
        assert !IsWhitespace(t[0]);
        TrimEndKeepsNonWhitespaceHead(t);
      }
    }
  }

  lemma {:induction false} TrimStartEmptyIffAllWhitespace(s: string)
    ensures TrimStart(s) == [] <==> AllWhitespace(s)
  {
    if s != [] {
      TrimStartEmptyIffAllWhitespace(s[1..]);
      if IsWhitespace(s[0]) && AllWhitespace(s[1..]) {
        forall i | 0 <= i < |s| ensures IsWhitespace(s[i]) {
          if i > 0 { assert s[i] == s[1..][i - 1]; }
        }
      }
      if AllWhitespace(s) {
        assert AllWhitespace(s[1..]);
      }
    }
  }

  lemma {:induction false} TrimEndKeepsNonWhitespaceHead(t: string)
    requires t != [] && !IsWhitespace(t[0])
    ensures TrimEnd(t) != []
    decreases |t|
  {
    if IsWhitespace(t[|t| - 1]) {
      TrimEndKeepsNonWhitespaceHead(t[..|t| - 1]);
    }
  }

  /** If `sub` occurs in `s`, so does its first character. */
  lemma {:induction false} ContainsHead(s: string, sub: string)
    requires sub != [] && Contains(s, sub)
    ensures sub[0] in s
    decreases |s|
  {
    if StartsWith(s, sub) {
      assert s[0] == sub[0];
    } else {
      ContainsHead(s[1..], sub);
    }
  }
}
