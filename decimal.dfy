/**
 * The `%d` conversion of `g_strdup_printf`, used to spell request tokens
 * ("pythonMss%d", "pythonMss_%d", "pythonMss_session%d") and session paths
 * ("%s/%d"), together with a parser that inverts it.
 */
module Decimal {
  import opened PortalTypes

  predicate IsDigit(c: char) {
    '0' <= c <= '9'
  }

  predicate AllDigits(s: string) {
    forall i :: 0 <= i < |s| ==> IsDigit(s[i])
  }

  function DigitChar(d: nat): (c: char)
    requires d < 10
    ensures IsDigit(c)
  {
    ['0', '1', '2', '3', '4', '5', '6', '7', '8', '9'][d]
  }

  function DigitValue(c: char): (d: nat)
    requires IsDigit(c)
    ensures d < 10
  {
    (c as int - '0' as int) as nat
  }

  /** Decimal digits of `n`, most significant first, without leading zeros. */
  function NatDigits(n: nat): (s: string)
    ensures |s| >= 1 && AllDigits(s)
    ensures |s| > 1 ==> s[0] != '0'
    decreases n
  {
    if n < 10 then [DigitChar(n)] else NatDigits(n / 10) + [DigitChar(n % 10)]
  }

  /** What `%d` prints for a C `int`. */
  function Render(n: int32): (s: string)
    ensures |s| >= 1 && CString(s)
    ensures s[0] == '-' <==> n < 0
    ensures n >= 0 ==> AllDigits(s)
  {
    if n < 0 then "-" + NatDigits(-(n as int)) else NatDigits(n as int)
  }

  /** The value of a run of decimal digits; the empty run is worth 0. */
  function DigitsValue(s: string): (v: nat)
    requires AllDigits(s)
  {
    if s == [] then 0 else DigitsValue(s[..|s| - 1]) * 10 + DigitValue(s[|s| - 1])
  }

  /** Reads back an optionally signed decimal number; `None` for anything else. */
  function Parse(s: string): (r: Option<int>)
    ensures r.Some? ==> |s| >= 1
  {
    if |s| >= 2 && s[0] == '-' && AllDigits(s[1..]) then Some(0 - DigitsValue(s[1..]) as int)
    else if |s| >= 1 && AllDigits(s) then Some(DigitsValue(s))
    else None
  }

  lemma {:induction false} DigitsValueOfNatDigits(n: nat)
    ensures DigitsValue(NatDigits(n)) == n
    decreases n
  {
    if n >= 10 {
      var prefix := NatDigits(n / 10);
      var s := NatDigits(n);
      assert s == prefix + [DigitChar(n % 10)];
      assert s[..|s| - 1] == prefix;
      DigitsValueOfNatDigits(n / 10);
    }
  }

  /** Parsing what `%d` printed gives back the number. */
  lemma ParseRender(n: int32)
    ensures Parse(Render(n)) == Some(n as int)
  {
    var s := Render(n);
    if n < 0 {
      var digits := NatDigits(-(n as int));
      assert s == "-" + digits;
      assert s[1..] == digits;
      DigitsValueOfNatDigits(-(n as int));
    } else {
      var digits := NatDigits(n as int);
      assert s == digits;
      assert s[0] != '-';
      DigitsValueOfNatDigits(n as int);
    }
  }

  /** Distinct numbers are printed differently. */
  lemma RenderInjective(a: int32, b: int32)
    ensures Render(a) == Render(b) ==> a == b
  {
    ParseRender(a);
    ParseRender(b);
  }

  /** `%d` after a fixed prefix still determines the number. */
  lemma PrefixedRenderInjective(prefix: string, a: int32, b: int32)
    ensures prefix + Render(a) == prefix + Render(b) ==> a == b
  {
    if prefix + Render(a) == prefix + Render(b) {
      assert Render(a) == (prefix + Render(a))[|prefix|..];
      assert Render(b) == (prefix + Render(b))[|prefix|..];
      RenderInjective(a, b);
    }
  }
}
