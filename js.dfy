/**
 * The two pieces of JavaScript semantics the client code leans on: ToBoolean on a
 * nullable string (section 7.1.2 of ECMA-262: `null`, `undefined` and the empty
 * string are falsy), the `||` operator built on it, and Number::toString for
 * integer values (section 6.1.6.1.20 of ECMA-262), used when JSX renders a number.
 */
module Js {
  import opened Wrappers

  /** ToBoolean of a `string | null` or `string | undefined` value. */
  predicate Truthy(s: Option<string>) {
    s.Some? && s.value != ""
  }

  /**
   * `a || b` for a nullable string `a` and a string `b`: the result is one of the two
   * operands, and it is truthy exactly when one of the operands is.
   */
  function OrElse(a: Option<string>, b: string): (r: string)
    ensures (a.Some? && r == a.value) || r == b
    ensures Truthy(Some(r)) <==> Truthy(a) || b != ""
  {
    if Truthy(a) then a.value else b
  }

  function DigitChar(d: nat): (c: char)
    requires d < 10
    ensures '0' <= c <= '9'
  {
    "0123456789"[d]
  }

  function DigitValue(c: char): nat {
    if '0' <= c <= '9' then (c as int - '0' as int) as nat else 0
  }

  /** Decimal digits of `n`, most significant first, with no leading zero. */
  function NatToDecimal(n: nat): (s: string)
    ensures |s| >= 1
    ensures forall i :: 0 <= i < |s| ==> '0' <= s[i] <= '9'
    ensures s[0] == '0' ==> n == 0
  {
    if n < 10 then [DigitChar(n)] else NatToDecimal(n / 10) + [DigitChar(n % 10)]
  }

  /**
   * Number::toString of an integer value: a `-` sign for negatives, then the
   * decimal digits. This is JavaScript's text only while the integer is exactly a
   * double, |n| <= 2^53; beyond that the number itself is rounded (see README).
   */
  function IntegerToString(n: int): string {
    if n < 0 then "-" + NatToDecimal(-n) else NatToDecimal(n)
  }

  /** Reads a string of decimal digits back as a number. */
  function ParseNat(s: string): nat {
    if s == [] then 0 else ParseNat(s[..|s| - 1]) * 10 + DigitValue(s[|s| - 1])
  }

  /** Reads an optional `-` sign followed by decimal digits. */
  function ParseInteger(s: string): int {
    if |s| > 0 && s[0] == '-' then -(ParseNat(s[1..]) as int) else ParseNat(s)
  }

  lemma {:induction false} ParseNatToDecimal(n: nat)
    ensures ParseNat(NatToDecimal(n)) == n
  {
    if n >= 10 {
      var s := NatToDecimal(n);
      assert s[..|s| - 1] == NatToDecimal(n / 10);
      ParseNatToDecimal(n / 10);
      assert DigitValue(DigitChar(n % 10)) == n % 10;
    } else {
      assert DigitValue(DigitChar(n)) == n;
    }
  }

  /** The printed text of an integer determines it: reading it back gives the number. */
  lemma IntegerToStringRoundTrip(n: int)
    ensures ParseInteger(IntegerToString(n)) == n
  {
    if n < 0 {
      ParseNatToDecimal(-n);
      assert IntegerToString(n)[1..] == NatToDecimal(-n);
    } else {
      ParseNatToDecimal(n);
    }
  }

  /** Different integers print differently. */
  lemma IntegerToStringInjective(m: int, n: int)
    requires IntegerToString(m) == IntegerToString(n)
    ensures m == n
  {
    IntegerToStringRoundTrip(m);
    IntegerToStringRoundTrip(n);
  }
}
