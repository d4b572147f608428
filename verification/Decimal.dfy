/** Decimal numerals as Python's str() writes them and as a leading run of digits is read back. */
module Decimal {

  predicate IsDigit(c: char) { '0' <= c <= '9' }

  function Digit(d: nat): (c: char)
    requires d < 10
    ensures IsDigit(c) && Value(c) == d
  {
    '0' + d as char
  }

  function Value(c: char): (d: nat)
    requires IsDigit(c)
    ensures d < 10
  {
    (c - '0') as int
  }

  function Decimal(n: nat): (s: string)
    ensures s != [] && forall i :: 0 <= i < |s| ==> IsDigit(s[i])
  {
    if n < 10 then [Digit(n)] else Decimal(n / 10) + [Digit(n % 10)]
  }

  /** The longest prefix of digits. */
  function LeadingDigits(s: string): (p: string)
    ensures |p| <= |s| && p == s[..|p|]
    ensures forall i :: 0 <= i < |p| ==> IsDigit(p[i])
    ensures |p| < |s| ==> !IsDigit(s[|p|])
  {
    if s == [] || !IsDigit(s[0]) then [] else [s[0]] + LeadingDigits(s[1..])
  }

  function Number(s: string): nat
    requires forall i :: 0 <= i < |s| ==> IsDigit(s[i])
  {
    if s == [] then 0 else 10 * Number(s[..|s| - 1]) + Value(s[|s| - 1])
  }

  lemma {:induction false} NumberOfDecimal(n: nat)
    ensures Number(Decimal(n)) == n
  {
    var s := Decimal(n);
    if n < 10 {
      assert s[..|s| - 1] == [];
    } else {
      assert s[..|s| - 1] == Decimal(n / 10);
      NumberOfDecimal(n / 10);
    }
  }

  lemma LeadingDigitsOf(d: string, rest: string)
    requires forall i :: 0 <= i < |d| ==> IsDigit(d[i])
    requires rest == [] || !IsDigit(rest[0])
    ensures LeadingDigits(d + rest) == d
  {
    var p := LeadingDigits(d + rest);
    assert forall i :: 0 <= i < |d| ==> (d + rest)[i] == d[i];
    assert (d + rest)[..|d|] == d;
  }

  /** A numeral followed by a non-digit can be told apart from what follows it. */
  lemma DecimalPrefixInjective(m: nat, n: nat, a: string, b: string)
    requires a == [] || !IsDigit(a[0])
    requires b == [] || !IsDigit(b[0])
    requires Decimal(m) + a == Decimal(n) + b
    ensures m == n && a == b
  {
    LeadingDigitsOf(Decimal(m), a);
    LeadingDigitsOf(Decimal(n), b);
    NumberOfDecimal(m);
    NumberOfDecimal(n);
    assert (Decimal(m) + a)[|Decimal(m)|..] == a;
    assert (Decimal(n) + b)[|Decimal(n)|..] == b;
  }
}
