/** The small value types and text conversions the package relies on:
    an optional value, the decimal rendering of a non-negative integer
    (as `int.ToString()` gives it) and the rendering of a Boolean
    (as `bool.ToString()` gives it). */
module Formatting {

  datatype Option<+T> = None | Some(value: T)

  /** The character of the decimal digit `d`. */
  function DigitChar(d: nat): (c: char)
    requires d < 10
    ensures '0' <= c <= '9'
    ensures c as int - '0' as int == d
  {
    ('0' as int + d) as char
  }

  /** The value of the decimal digit character `c`. */
  function DigitValue(c: char): (d: nat)
    requires '0' <= c <= '9'
    ensures d < 10
  {
    c as int - '0' as int
  }

  predicate AllDigits(s: string) {
    forall k :: 0 <= k < |s| ==> '0' <= s[k] <= '9'
  }

  /** Decimal rendering of `n`, most significant digit first. */
  function NatToString(n: nat): string
    decreases n
  {
    if n < 10 then [DigitChar(n)] else NatToString(n / 10) + [DigitChar(n % 10)]
  }

  /** A rendered number has one digit at least, digits only, and no leading
      zero except for the number zero itself. */
  lemma {:induction false} NatToStringIsDecimal(n: nat)
    ensures var s := NatToString(n);
      && |s| > 0 && AllDigits(s)
      && (s[0] == '0' <==> n == 0)
      && (s[0] == '0' ==> |s| == 1)
    decreases n
  {
    if n >= 10 {
      NatToStringIsDecimal(n / 10);
      var p := NatToString(n / 10);
      assert NatToString(n) == p + [DigitChar(n % 10)];
    }
  }

  /** The number a string of decimal digits denotes (the inverse of NatToString). */
  function ParseDecimal(s: string): (n: nat)
    requires AllDigits(s)
    decreases |s|
  {
    if |s| == 0 then 0 else ParseDecimal(s[..|s| - 1]) * 10 + DigitValue(s[|s| - 1])
  }

  /** Reading back a rendered number gives the number. */
  lemma {:induction false} ParseNatToString(n: nat)
    ensures AllDigits(NatToString(n)) && ParseDecimal(NatToString(n)) == n
    decreases n
  {
    NatToStringIsDecimal(n);
    var s := NatToString(n);
    if n >= 10 {
      var p := NatToString(n / 10);
      assert s[..|s| - 1] == p;
      ParseNatToString(n / 10);
    } else {
      assert s[..|s| - 1] == [];
    }
  }

  /** Different numbers are rendered differently. */
  lemma NatToStringInjective(m: nat, n: nat)
    ensures NatToString(m) == NatToString(n) ==> m == n
  {
    ParseNatToString(m);
    ParseNatToString(n);
  }

  /** `bool.ToString()`. */
  function BoolToString(b: bool): string {
    if b then "True" else "False"
  }

  /** The inverse of BoolToString: exactly "True" or "False", None otherwise. */
  function ParseBool(s: string): Option<bool> {
    if s == "True" then Some(true) else if s == "False" then Some(false) else None
  }

  /** A rendered Boolean reads back as itself, so "True" and "False" tell the
      two values apart. */
  lemma ParseBoolToString(b: bool)
    ensures ParseBool(BoolToString(b)) == Some(b)
  {
    if !b {
      assert "False" != "True";
    }
  }
}
