/** The few pieces of PHP value semantics the plugin's logic depends on:
    `empty()` on strings, `intval()`, the string form of an integer, loose
    `==` between numeric strings (used by `switch` and non-strict
    `in_array`), `trim()`, `str_replace()` with one needle, and the first
    piece of `explode()`. Strings are sequences of characters; byte
    encodings are not modelled. */
module Php {

  datatype Option<T> = None | Some(value: T)

  /** A result or the message of the exception / JSON error the source raises. */
  datatype Result<T> = Ok(value: T) | Err(msg: string)

  /** `empty($s)` for a string value: the empty string and "0" are empty.
      A missing meta key or option reads as "" in this model. */
  predicate Empty(s: string) {
    s == "" || s == "0"
  }

  predicate IsDigit(c: char) {
    '0' <= c <= '9'
  }

  /** A non-empty string of decimal digits only. */
  predicate IsDigits(s: string) {
    |s| > 0 && forall i :: 0 <= i < |s| ==> IsDigit(s[i])
  }

  function DigitValue(c: char): (d: nat)
    requires IsDigit(c)
    ensures d < 10
  {
    (c as int) - ('0' as int)
  }

  function DigitChar(d: nat): (c: char)
    requires d < 10
    ensures IsDigit(c) && DigitValue(c) == d
  {
    (('0' as int) + d) as char
  }

  /** Value of a string of decimal digits, most significant first. */
  function DigitsValue(s: string): nat
    requires forall i :: 0 <= i < |s| ==> IsDigit(s[i])
  {
    if s == [] then 0 else DigitsValue(s[..|s| - 1]) * 10 + DigitValue(s[|s| - 1])
  }

  /** Decimal digits of a natural number, without leading zeros. */
  function NatDigits(n: nat): (s: string)
    ensures IsDigits(s)
    ensures n > 0 ==> s[0] != '0'
    ensures n == 0 ==> s == "0"
  {
    if n < 10 then [DigitChar(n)] else NatDigits(n / 10) + [DigitChar(n % 10)]
  }

  /** PHP's string form of an integer (`(string)$n`, `strval`). */
  function IntToString(n: int): (s: string)
    ensures |s| > 0
    ensures !Empty(s) <==> n != 0
  {
    if n < 0 then "-" + NatDigits(-n) else NatDigits(n)
  }

  /** Longest prefix of decimal digits. */
  function DigitPrefix(s: string): (p: string)
    ensures |p| <= |s| && p == s[..|p|]
    ensures forall i :: 0 <= i < |p| ==> IsDigit(p[i])
    ensures |p| < |s| ==> !IsDigit(s[|p|])
  {
    if s != [] && IsDigit(s[0]) then [s[0]] + DigitPrefix(s[1..]) else []
  }

  predicate IsSpace(c: char) {
    c == ' ' || c == '\t' || c == '\n' || c == '\r' || c as int == 11 || c as int == 12
  }

  function SkipSpaces(s: string): (t: string)
    ensures |t| <= |s| && t == s[|s| - |t|..]
    ensures t != [] ==> !IsSpace(t[0])
  {
    if s != [] && IsSpace(s[0]) then SkipSpaces(s[1..]) else s
  }

  /** `intval($s)` on a string: leading white space, an optional sign and the
      longest run of digits; anything else reads as 0. */
  function IntVal(s: string): int {
    var t := SkipSpaces(s);
    if t != [] && t[0] == '-' then 0 - DigitsValue(DigitPrefix(t[1..]))
    else if t != [] && t[0] == '+' then DigitsValue(DigitPrefix(t[1..]))
    else DigitsValue(DigitPrefix(t))
  }

  /** `absint($s)`: the magnitude of `intval($s)`. */
  function AbsInt(s: string): nat {
    var n := IntVal(s);
    if n < 0 then -n else n
  }

  lemma {:induction false} NatDigitsValue(n: nat)
    ensures DigitsValue(NatDigits(n)) == n
  {
    if n >= 10 {
      NatDigitsValue(n / 10);
      var s := NatDigits(n);
      assert s[..|s| - 1] == NatDigits(n / 10);
    }
  }

  lemma {:induction false} DigitPrefixOfDigits(s: string)
    requires forall i :: 0 <= i < |s| ==> IsDigit(s[i])
    ensures DigitPrefix(s) == s
  {
    if s != [] {
      DigitPrefixOfDigits(s[1..]);
    }
  }

  lemma NatDigitsIntVal(n: nat)
    ensures IntVal(NatDigits(n)) == n
  {
    var d := NatDigits(n);
    NatDigitsValue(n);
    DigitPrefixOfDigits(d);
    assert SkipSpaces(d) == d by { assert !IsSpace(d[0]); }
    assert d[0] != '-' && d[0] != '+';
  }

  lemma NegDigitsIntVal(n: nat)
    requires n > 0
    ensures IntVal("-" + NatDigits(n)) == 0 - n
  {
    var d := NatDigits(n);
    var s := "-" + d;
    NatDigitsValue(n);
    DigitPrefixOfDigits(d);
    assert SkipSpaces(s) == s by { assert s[0] == '-'; }
    assert s[1..] == d;
  }

  /** Reading back an integer that was stored as a string gives the integer:
      the plugin stores timestamps and counters as meta and reads them with
      `intval`. */
  lemma IntValRoundTrip(n: int)
    ensures IntVal(IntToString(n)) == n
  {
    if n < 0 {
      NegDigitsIntVal(-n);
    } else {
      NatDigitsIntVal(n);
    }
  }

  /** Loose `==` between two strings as PHP's `switch` and non-strict
      `in_array` apply it: two plain decimal numerals compare by value,
      everything else compares as text. */
  predicate LooseEq(a: string, b: string) {
    if IsDigits(a) && IsDigits(b) then DigitsValue(a) == DigitsValue(b) else a == b
  }

  lemma {:induction false} LeadingZeroValue(s: string)
    requires IsDigits(s)
    ensures IsDigits("0" + s) && DigitsValue("0" + s) == DigitsValue(s)
  {
    var z := "0" + s;
    assert z[..|z| - 1] == "0" + s[..|s| - 1];
    if |s| > 1 {
      LeadingZeroValue(s[..|s| - 1]);
    } else {
      assert z[..|z| - 1] == "0";
    }
  }

  /** Loose comparison ignores leading zeros of a numeral: "001" == "1". */
  lemma LooseEqLeadingZero(s: string, t: string)
    requires IsDigits(s)
    ensures LooseEq("0" + s, t) <==> LooseEq(s, t)
  {
    LeadingZeroValue(s);
  }

  /** `str_replace($needle, $with, $s)` for one non-empty needle: every
      occurrence, left to right, without overlaps. */
  function ReplaceAll(s: string, needle: string, with: string): string
    requires needle != []
    decreases |s|
  {
    if |s| < |needle| then s
    else if s[..|needle|] == needle then with + ReplaceAll(s[|needle|..], needle, with)
    else [s[0]] + ReplaceAll(s[1..], needle, with)
  }

  /** Text that does not contain the needle's first character is left alone. */
  lemma {:induction false} ReplaceAllAbsent(s: string, needle: string, with: string)
    requires needle != [] && needle[0] !in s
    ensures ReplaceAll(s, needle, with) == s
  {
    if |s| >= |needle| {
      assert s[..|needle|][0] == s[0];
      ReplaceAllAbsent(s[1..], needle, with);
    }
  }

  /** A needle preceded by text free of its first character is replaced in
      place, and the rest is processed on its own. */
  lemma {:induction false} ReplaceAllAfter(a: string, needle: string, with: string, b: string)
    requires needle != [] && needle[0] !in a
    ensures ReplaceAll(a + needle + b, needle, with) == a + with + ReplaceAll(b, needle, with)
  {
    var s := a + needle + b;
    if a == [] {
      assert s == needle + b && s[..|needle|] == needle && s[|needle|..] == b;
    } else {
      assert s[0] == a[0];
      assert s[..|needle|] != needle by { assert s[..|needle|][0] == s[0]; }
      assert ReplaceAll(s, needle, with) == [a[0]] + ReplaceAll(s[1..], needle, with);
      assert s[1..] == a[1..] + needle + b;
      ReplaceAllAfter(a[1..], needle, with, b);
      assert [a[0]] + (a[1..] + with + ReplaceAll(b, needle, with)) == a + with + ReplaceAll(b, needle, with);
    }
  }

  /** Characters PHP's `trim()` removes by default. */
  predicate IsTrimmed(c: char) {
    c == ' ' || c == '\t' || c == '\n' || c == '\r' || c == '\0' || c as int == 11
  }

  function TrimLeft(s: string): (t: string)
    ensures |t| <= |s| && t == s[|s| - |t|..]
    ensures t != [] ==> !IsTrimmed(t[0])
    ensures forall j :: 0 <= j < |s| - |t| ==> IsTrimmed(s[j])
  {
    if s != [] && IsTrimmed(s[0]) then TrimLeft(s[1..]) else s
  }

  function TrimRight(s: string): (t: string)
    ensures |t| <= |s| && t == s[..|t|]
    ensures t != [] ==> !IsTrimmed(t[|t| - 1])
    ensures forall j :: |t| <= j < |s| ==> IsTrimmed(s[j])
  {
    if s != [] && IsTrimmed(s[|s| - 1]) then TrimRight(s[..|s| - 1]) else s
  }

  /** `trim($s)`: a contiguous piece of `s` that neither starts nor ends with
      white space. */
  function Trim(s: string): (t: string)
    ensures |t| <= |s|
    ensures t != [] ==> !IsTrimmed(t[0]) && !IsTrimmed(t[|t| - 1])
    ensures (s == [] || (!IsTrimmed(s[0]) && !IsTrimmed(s[|s| - 1]))) ==> t == s
    ensures exists i :: TrimmedInfix(s, t, i)
  {
    var l := TrimLeft(s);
    var t := TrimRight(l);
    var i := |s| - |l|;
    assert t == s[i..i + |t|];
    assert forall j :: i + |t| <= j < |s| ==> IsTrimmed(s[j]) by {
      forall j | i + |t| <= j < |s| ensures IsTrimmed(s[j]) {
        assert s[j] == l[j - i];
      }
    }
    assert TrimmedInfix(s, t, i);
    t
  }

  /** `t` is the piece of `s` at offset `i`, and everything of `s` around
      it is a character `trim` removes. */
  predicate TrimmedInfix(s: string, t: string, i: int) {
    0 <= i <= |s| - |t| && t == s[i..i + |t|]
    && forall j :: 0 <= j < |s| && (j < i || i + |t| <= j) ==> IsTrimmed(s[j])
  }

  /** `explode($sep, $s)[0]`: the text before the first separator. */
  function BeforeFirst(s: string, sep: string): (r: string)
    requires sep != []
    ensures |r| <= |s| && r == s[..|r|]
    ensures r == s || (|r| + |sep| <= |s| && s[|r|..|r| + |sep|] == sep)
    decreases |s|
  {
    if |s| < |sep| then s
    else if s[..|sep|] == sep then []
    else
      var rest := BeforeFirst(s[1..], sep);
      assert rest != s[1..] ==> s[1..][|rest|..|rest| + |sep|] == s[1 + |rest|..1 + |rest| + |sep|];
      [s[0]] + rest
  }
}
