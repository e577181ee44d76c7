/** Decimal rendering of naturals, as `fmt.Sprintf("%d", n)` writes them, and
    the parse that undoes it. Identifiers such as `auction-7` are built from it. */
module Decimal {

  /** The ASCII digit for `d`. */
  function DigitChar(d: nat): (c: char)
    requires d < 10
    ensures '0' <= c <= '9'
  {
    (48 + d) as char
  }

  /** The value of an ASCII digit character. */
  function DigitValue(c: char): nat
    requires '0' <= c <= '9'
  {
    c as int - 48
  }

  predicate AllDigits(s: string)
  {
    forall i :: 0 <= i < |s| ==> '0' <= s[i] <= '9'
  }

  /** `n` written in base ten, most significant digit first, without leading zeros. */
  function NatToString(n: nat): (s: string)
    ensures AllDigits(s)
    ensures |s| == 1 <==> n < 10
    ensures 1 <= |s|
    decreases n
  {
    if n < 10 then [DigitChar(n)] else NatToString(n / 10) + [DigitChar(n % 10)]
  }

  /** Reads a string of decimal digits back as a natural number. */
  function StringToNat(s: string): nat
    requires AllDigits(s)
    decreases |s|
  {
    if |s| == 0 then 0 else StringToNat(s[..|s| - 1]) * 10 + DigitValue(s[|s| - 1])
  }

  /** Parsing a rendered number gives the number back. */
  lemma {:induction false} StringToNatOfNatToString(n: nat)
    ensures StringToNat(NatToString(n)) == n
    decreases n
  {
    var s := NatToString(n);
    if n < 10 {
      assert s[..0] == [];
    } else {
      var p := NatToString(n / 10);
      assert s == p + [DigitChar(n % 10)];
      assert s[..|s| - 1] == p;
      StringToNatOfNatToString(n / 10);
    }
  }

  /** Distinct numbers render as distinct strings. */
  lemma NatToStringInjective(a: nat, b: nat)
    requires NatToString(a) == NatToString(b)
    ensures a == b
  {
    StringToNatOfNatToString(a);
    StringToNatOfNatToString(b);
  }

  /** `prefix + NatToString(n)` determines `n`, so identifiers that share a
      prefix and differ in their number are distinct. */
  lemma PrefixedInjective(prefix: string, a: nat, b: nat)
    requires prefix + NatToString(a) == prefix + NatToString(b)
    ensures a == b
  {
    var sa := prefix + NatToString(a);
    var sb := prefix + NatToString(b);
    assert sa[|prefix|..] == NatToString(a);
    assert sb[|prefix|..] == NatToString(b);
    NatToStringInjective(a, b);
  }
}
