/** Shared vocabulary: the Python exceptions the modelled code raises, the
    usual Option/Result/Outcome wrappers, and the decimal rendering used by
    the `%d` format directive. */
module Common {

  /** The exception kinds the modelled code can raise. */
  datatype PyError =
    | ValueError(message: string)
    | AttributeError(attribute: string)   // attribute access on None or on an object without it
    | IndexError                          // list index out of range
    | KeyError(key: string)               // missing dictionary key

  datatype Option<+T> = None | Some(value: T)

  /** A call that returns a value or raises. */
  datatype Result<+T> = Ok(value: T) | Err(error: PyError)

  /** A call that returns nothing or raises. */
  datatype Outcome = Pass | Fail(error: PyError)

  function DigitChar(d: nat): (c: char)
    requires d < 10
  {
    ('0' as int + d) as char
  }

  predicate IsDigit(c: char) {
    '0' <= c <= '9'
  }

  /** Value of a string of decimal digits. */
  function DigitsValue(s: string): nat
    requires forall i :: 0 <= i < |s| ==> IsDigit(s[i])
  {
    if s == [] then 0
    else
      assert IsDigit(s[|s| - 1]);
      10 * DigitsValue(s[..|s| - 1]) + (s[|s| - 1] as int - '0' as int)
  }

  /** Decimal rendering of a natural number, as `%d` prints it. */
  function NatToString(n: nat): (s: string)
    ensures s != [] && forall i :: 0 <= i < |s| ==> IsDigit(s[i])
    ensures |s| > 1 ==> s[0] != '0'
  {
    if n < 10 then [DigitChar(n)] else NatToString(n / 10) + [DigitChar(n % 10)]
  }

  /** Reading the digits back gives the number: `%d` loses nothing. */
  lemma {:induction false} NatToStringRoundTrip(n: nat)
    ensures DigitsValue(NatToString(n)) == n
  {
    if n >= 10 {
      var s := NatToString(n);
      assert s[..|s| - 1] == NatToString(n / 10);
      NatToStringRoundTrip(n / 10);
    }
  }

  /** Value of a decimal numeral with an optional leading '-'. */
  function SignedValue(s: string): int
    requires s != [] && (s[0] == '-' || IsDigit(s[0]))
    requires forall k :: 0 < k < |s| ==> IsDigit(s[k])
  {
    if s[0] == '-' then -(DigitsValue(s[1..]) as int) else DigitsValue(s)
  }

  /** Decimal rendering of an integer, as `%d` prints it: a '-' exactly
      for a negative number, then digits, and reading it back gives the
      number. */
  function IntToString(i: int): (s: string)
    ensures s != [] && (s[0] == '-' <==> i < 0)
    ensures s[0] == '-' || IsDigit(s[0])
    ensures forall k :: 0 < k < |s| ==> IsDigit(s[k])
    ensures SignedValue(s) == i
    ensures var ds := if i < 0 then s[1..] else s; ds != [] && (|ds| > 1 ==> ds[0] != '0')
  {
    if i < 0 then
      var t := NatToString(-i);
      NatToStringRoundTrip(-i);
      assert (['-'] + t)[1..] == t;
      ['-'] + t
    else
      NatToStringRoundTrip(i);
      NatToString(i)
  }
}
