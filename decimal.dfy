/**
 * The decimal text of BigInt values: `${n}` / `n.toString()` when printing, `BigInt(text)`
 * when reading back, and the ledger's `<n>field` literal.
 */
module Decimal {
  import opened Wrappers

  predicate IsDigit(c: char)
  {
    '0' <= c <= '9'
  }

  predicate AllDigits(s: string)
  {
    forall i :: 0 <= i < |s| ==> IsDigit(s[i])
  }

  function DigitChar(d: nat): (c: char)
    requires d < 10
    ensures IsDigit(c) && c as int - '0' as int == d
  {
    ('0' as int + d) as char
  }

  /** The value a string of decimal digits denotes; the empty string denotes 0. */
  function DecimalValue(s: string): nat
    requires AllDigits(s)
  {
    if s == [] then 0
    else DecimalValue(s[..|s| - 1]) * 10 + (s[|s| - 1] as int - '0' as int)
  }

  /** `n.toString()`: canonical decimal digits, no sign, no leading zero. */
  function NatToDecimal(n: nat): (s: string)
    ensures |s| >= 1 && AllDigits(s)
    ensures s[0] == '0' ==> n == 0 && s == "0"
  {
    if n < 10 then [DigitChar(n)]
    else NatToDecimal(n / 10) + [DigitChar(n % 10)]
  }

  /** `n.toString()` for a JavaScript integer that may be negative. */
  function IntToDecimal(i: int): (s: string)
    ensures |s| >= 1 && (s[0] == '-' <==> i < 0)
    ensures i >= 0 ==> ParseBigInt(s) == Some(i)
    ensures i < 0 ==> ParseBigInt(s[1..]) == Some(-i)
    ensures i >= 0 && s[0] == '0' ==> s == "0"
    ensures i < 0 ==> |s| >= 2 && s[1] != '0'
  {
    if i < 0 then
      DecimalRoundTrip(-i);
      assert ("-" + NatToDecimal(-i))[1..] == NatToDecimal(-i);
      assert ("-" + NatToDecimal(-i))[1] == NatToDecimal(-i)[0];
      "-" + NatToDecimal(-i)
    else
      DecimalRoundTrip(i);
      NatToDecimal(i)
  }

  /**
   * `BigInt(s)` for strings made of decimal digits only (the empty string gives 0n,
   * as in JavaScript). Any other text is reported as the SyntaxError BigInt throws.
   */
  function ParseBigInt(s: string): (r: Option<nat>)
    ensures r.Some? <==> AllDigits(s)
  {
    if AllDigits(s) then Some(DecimalValue(s)) else None
  }

  /** How a `<digits>field` literal is read back; anything else is not a field literal. */
  function ParseFieldLiteral(s: string): (r: Option<nat>)
    ensures r.Some? ==> |s| > 5 && s[|s| - 5..] == "field"
  {
    if |s| > 5 && s[|s| - 5..] == "field" && AllDigits(s[..|s| - 5])
    then Some(DecimalValue(s[..|s| - 5]))
    else None
  }

  /** The ledger literal `${n}field`, which reads back as the value it was printed from. */
  function FieldLiteral(n: nat): (r: string)
    ensures ParseFieldLiteral(r) == Some(n)
  {
    var d := NatToDecimal(n);
    DecimalRoundTrip(n);
    assert (d + "field")[..|d + "field"| - 5] == d;
    d + "field"
  }

  /** Printing a BigInt and reading it back gives the same value. */
  lemma {:induction false} DecimalRoundTrip(n: nat)
    ensures ParseBigInt(NatToDecimal(n)) == Some(n)
  {
    var s := NatToDecimal(n);
    if n >= 10 {
      DecimalRoundTrip(n / 10);
      assert s[..|s| - 1] == NatToDecimal(n / 10);
      assert s[|s| - 1] == DigitChar(n % 10);
      assert DecimalValue(s) == (n / 10) * 10 + n % 10;
    }
  }
}
