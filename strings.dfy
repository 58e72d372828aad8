/** Character-string helpers standing in for `std::string::find`, `atoi` and `std::to_string`. */
module Strings {
  /** `s.find(c)`: the first position of `c`, or `|s|` (npos) when `c` does not occur. */
  function IndexOf(s: string, c: char): (r: nat)
    ensures r <= |s|
    ensures r < |s| ==> s[r] == c
    ensures forall i :: 0 <= i < r ==> s[i] != c
  {
    if s == [] then 0
    else if s[0] == c then 0
    else 1 + IndexOf(s[1..], c)
  }

  /** The first occurrence of `c` in `a + [c] + b` is just after `a`, when `a` does not hold `c`. */
  lemma IndexOfAfter(a: string, c: char, b: string)
    requires c !in a
    ensures IndexOf(a + [c] + b, c) == |a|
  {
    var s := a + [c] + b;
    assert s[|a|] == c;
    assert forall i :: 0 <= i < |a| ==> s[i] == a[i];
  }

  /** A string without `c` has no occurrence of it. */
  lemma IndexOfAbsent(a: string, c: char)
    requires c !in a
    ensures IndexOf(a, c) == |a|
  {
  }

  predicate IsDigit(c: char) { '0' <= c <= '9' }

  /** The characters `isspace` accepts in the "C" locale. */
  predicate IsSpace(c: char) { c == ' ' || c == '\t' || c == '\n' || c == '\r' || c == '\U{B}' || c == '\U{C}' }

  function DigitValue(c: char): (d: nat)
    requires IsDigit(c)
    ensures d < 10
  {
    (c as int) - ('0' as int)
  }

  /** The longest prefix of `s` made of decimal digits. */
  function LeadingDigits(s: string): (r: string)
    ensures |r| <= |s| && r == s[..|r|]
    ensures forall i :: 0 <= i < |r| ==> IsDigit(r[i])
    ensures |r| < |s| ==> !IsDigit(s[|r|])
  {
    if s != [] && IsDigit(s[0]) then [s[0]] + LeadingDigits(s[1..]) else []
  }

  /** The value of a string of decimal digits, most significant first. */
  function DigitsValue(ds: string): (n: nat)
    requires forall i :: 0 <= i < |ds| ==> IsDigit(ds[i])
  {
    if ds == [] then 0 else 10 * DigitsValue(ds[..|ds| - 1]) + DigitValue(ds[|ds| - 1])
  }

  function SkipSpaces(s: string): (r: string)
    ensures |r| <= |s| && r == s[|s| - |r|..]
    ensures r != [] ==> !IsSpace(r[0])
  {
    if s != [] && IsSpace(s[0]) then SkipSpaces(s[1..]) else s
  }

  /**
   * `atoi`: skip leading white space, read an optional sign and then as many digits as follow;
   * a string with no digits there gives 0. (Overflow, undefined in C, is not modelled.)
   */
  function Atoi(s: string): (n: int)
    ensures n < 0 ==> SkipSpaces(s) != [] && SkipSpaces(s)[0] == '-'
    ensures SkipSpaces(s) == [] ==> n == 0
  {
    var t := SkipSpaces(s);
    if t != [] && t[0] == '-' then -(DigitsValue(LeadingDigits(t[1..])) as int)
    else if t != [] && t[0] == '+' then DigitsValue(LeadingDigits(t[1..]))
    else DigitsValue(LeadingDigits(t))
  }

  /** `std::to_string` of a natural number: its decimal digits, without sign or leading zeros. */
  function Decimal(n: nat): (r: string)
    ensures r != []
    ensures forall i :: 0 <= i < |r| ==> IsDigit(r[i])
  {
    if n < 10 then [DigitChar(n)] else Decimal(n / 10) + [DigitChar(n % 10)]
  }

  function DigitChar(d: nat): (c: char)
    requires d < 10
    ensures IsDigit(c) && DigitValue(c) == d
  {
    ('0' as int + d) as char
  }

  /** Reading back a rendered number gives the number. */
  lemma {:induction false} DecimalValue(n: nat)
    ensures DigitsValue(Decimal(n)) == n
  {
    if n >= 10 {
      DecimalValue(n / 10);
      var r := Decimal(n);
      assert r[..|r| - 1] == Decimal(n / 10);
    }
  }

  /** A string that is all digits is its own longest digit prefix. */
  lemma {:induction false} LeadingDigitsAll(ds: string)
    requires forall i :: 0 <= i < |ds| ==> IsDigit(ds[i])
    ensures LeadingDigits(ds) == ds
  {
    if ds != [] {
      LeadingDigitsAll(ds[1..]);
    }
  }

  /** `atoi` inverts `Decimal`: `atoi(std::to_string(n)) == n`. */
  lemma AtoiDecimal(n: nat)
    ensures Atoi(Decimal(n)) == n
  {
    var r := Decimal(n);
    AtoiDigits(r);
    DecimalValue(n);
  }

  /** On a non-empty string of digits `atoi` is the digits' value. */
  lemma AtoiDigits(ds: string)
    requires ds != [] && forall i :: 0 <= i < |ds| ==> IsDigit(ds[i])
    ensures Atoi(ds) == DigitsValue(ds)
  {
    assert IsDigit(ds[0]);
    assert !IsSpace(ds[0]);
    assert SkipSpaces(ds) == ds;
    LeadingDigitsAll(ds);
  }

  /** `atoi` reads a leading minus sign: `atoi("-" + std::to_string(n)) == -n`. */
  lemma AtoiNegativeDecimal(n: nat)
    ensures Atoi("-" + Decimal(n)) == -(n as int)
  {
    AtoiNegative(Decimal(n));
    DecimalValue(n);
  }

  /** After a minus sign, `atoi` reads the negated value of the digits. */
  lemma AtoiNegative(ds: string)
    requires forall i :: 0 <= i < |ds| ==> IsDigit(ds[i])
    ensures Atoi("-" + ds) == -(DigitsValue(ds) as int)
  {
    var s := "-" + ds;
    AtoiMinus(s);
    assert s[1..] == ds;
    LeadingDigitsAll(ds);
  }

  /** A string that starts with '-' reads as the negated value of the digits after it. */
  lemma AtoiMinus(s: string)
    requires s != [] && s[0] == '-'
    ensures Atoi(s) == -(DigitsValue(LeadingDigits(s[1..])) as int)
  {
    assert !IsSpace(s[0]);
    assert SkipSpaces(s) == s;
  }

  /** `atoi("-1") == -1`. */
  lemma AtoiMinusOne()
    ensures Atoi("-1") == -1
  {
    assert "-1" == "-" + "1";
    AtoiNegative("1");
    assert DigitsValue("1") == 1;
  }
}
