/**
 * Subscription tokens. The dispatcher issues the token `(++subUid).toString()`,
 * where `subUid` is a non-negative integer counter; for such a number the
 * string is its plain decimal numeral without leading zeros. This module
 * models that conversion and proves it injective, so distinct counter values
 * give distinct tokens.
 */
module Tokens {

  predicate IsDigit(c: char) {
    '0' <= c <= '9'
  }

  /** The numeral character of a single decimal digit. */
  function DigitChar(d: nat): (c: char)
    requires d < 10
    ensures IsDigit(c)
  {
    (48 + d) as char
  }

  /** The value of a numeral character. */
  function DigitValue(c: char): (d: nat)
    requires IsDigit(c)
    ensures d < 10
  {
    c as int - 48
  }

  /**
   * The decimal numeral of `n`, as `Number.prototype.toString` writes a
   * non-negative integer: at least one digit, only digits, and a leading
   * zero only for zero itself.
   */
  function DecimalString(n: nat): (s: string)
    ensures |s| >= 1
    ensures forall i :: 0 <= i < |s| ==> IsDigit(s[i])
    ensures s[0] == '0' <==> n == 0
    decreases n
  {
    if n < 10 then [DigitChar(n)] else DecimalString(n / 10) + [DigitChar(n % 10)]
  }

  /** Reads a string of digits back as a number (most significant digit first). */
  function ParseDecimal(s: string): nat
    requires forall i :: 0 <= i < |s| ==> IsDigit(s[i])
  {
    if s == [] then 0 else ParseDecimal(s[..|s| - 1]) * 10 + DigitValue(s[|s| - 1])
  }

  /** Parsing a token gives back the counter value it was made from. */
  lemma {:induction false} ParseDecimalString(n: nat)
    ensures ParseDecimal(DecimalString(n)) == n
    decreases n
  {
    var s := DecimalString(n);
    if n < 10 {
      assert s[..0] == [];
    } else {
      var p := DecimalString(n / 10);
      ParseDecimalString(n / 10);
      assert s[..|s| - 1] == p;
    }
  }

  /** Two counter values give the same token exactly when they are equal. */
  lemma DecimalStringInjective(m: nat, n: nat)
    ensures DecimalString(m) == DecimalString(n) <==> m == n
  {
    ParseDecimalString(m);
    ParseDecimalString(n);
  }
}
