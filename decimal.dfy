/** How a template literal such as `${numStars}` renders a whole number: its
    shortest decimal numeral, with a leading '-' when negative.  The parser
    below is the inverse that shows the rendering loses nothing. */
module Decimal {
  import opened Js

  predicate IsDigit(c: char)
  {
    '0' <= c <= '9'
  }

  predicate AllDigits(s: string)
  {
    forall i :: 0 <= i < |s| ==> IsDigit(s[i])
  }

  function DigitChar(d: nat): (c: char)
    requires d < 10
    ensures IsDigit(c) && c as int - '0' as int == d
  {
    "0123456789"[d]
  }

  function DigitValue(c: char): nat
    requires IsDigit(c)
  {
    c as int - '0' as int
  }

  /** The decimal numeral of `n`: non-empty, digits only, no leading zero. */
  function NatToString(n: nat): (s: string)
    ensures |s| > 0 && AllDigits(s)
    ensures |s| > 1 ==> s[0] != '0'
    decreases n
  {
    if n < 10 then [DigitChar(n)] else NatToString(n / 10) + [DigitChar(n % 10)]
  }

  /** `${n}` for an integer `n`. */
  function IntToString(n: int): (s: string)
    ensures |s| > 0 && (AllDigits(s) || (s[0] == '-' && AllDigits(s[1..])))
    ensures '/' !in s && ' ' !in s
  {
    if n < 0 then "-" + NatToString(-n) else NatToString(n)
  }

  /** The value of a string of decimal digits, read left to right. */
  function ParseNat(s: string): nat
    requires AllDigits(s)
  {
    if s == "" then 0 else ParseNat(s[..|s| - 1]) * 10 + DigitValue(s[|s| - 1])
  }

  /** Reads an optionally negative decimal numeral; `None` for anything else. */
  function ParseInt(s: string): Option<int>
  {
    if |s| > 1 && s[0] == '-' && AllDigits(s[1..]) then Some(0 - ParseNat(s[1..]) as int)
    else if |s| > 0 && AllDigits(s) then Some(ParseNat(s))
    else None
  }

  lemma {:induction false} ParseNatToString(n: nat)
    ensures ParseNat(NatToString(n)) == n
    decreases n
  {
    if n >= 10 {
      var s := NatToString(n);
      assert s[..|s| - 1] == NatToString(n / 10);
      ParseNatToString(n / 10);
    }
  }

  /** Rendering an integer and reading it back gives the integer. */
  lemma IntToStringRoundTrip(n: int)
    ensures ParseInt(IntToString(n)) == Some(n)
  {
    var s := IntToString(n);
    if n < 0 {
      var m: nat := -n;
      assert s == "-" + NatToString(m) && s[1..] == NatToString(m);
      ParseNatToString(m);
      assert ParseInt(s) == Some(0 - ParseNat(s[1..]) as int);
    } else {
      ParseNatToString(n);
      assert ParseInt(s) == Some(ParseNat(s));
    }
  }

  /** `${a}/${b}`, the score fragment of the finish screen. */
  function Fraction(a: int, b: int): string
  {
    IntToString(a) + "/" + IntToString(b)
  }

  /** Splits `s` at its first `c`: the part before and the part after. */
  function SplitAt(s: string, c: char): (r: Option<(string, string)>)
    ensures r.Some? <==> c in s
    ensures r.Some? ==> s == r.value.0 + [c] + r.value.1 && c !in r.value.0
  {
    if s == "" then None
    else if s[0] == c then Some(([], s[1..]))
    else match SplitAt(s[1..], c)
      case None => None
      case Some(p) => Some(([s[0]] + p.0, p.1))
  }

  /** Reads a fraction `a/b` back into its two integers. */
  function ParseFraction(s: string): Option<(int, int)>
  {
    match SplitAt(s, '/')
    case None => None
    case Some(p) =>
      match (ParseInt(p.0), ParseInt(p.1))
      case (Some(a), Some(b)) => Some((a, b))
      case _ => None
  }

  lemma {:induction false} SplitAtFirst(a: string, c: char, b: string)
    requires c !in a
    ensures SplitAt(a + [c] + b, c) == Some((a, b))
  {
    if a != [] {
      var s := a + [c] + b;
      assert s[0] == a[0] != c;
      assert s[1..] == a[1..] + [c] + b;
      SplitAtFirst(a[1..], c, b);
      assert [a[0]] + a[1..] == a;
    }
  }

  /** The score fragment determines the score: both numbers can be read back. */
  lemma FractionRoundTrip(a: int, b: int)
    ensures ParseFraction(Fraction(a, b)) == Some((a, b))
  {
    SplitAtFirst(IntToString(a), '/', IntToString(b));
    IntToStringRoundTrip(a);
    IntToStringRoundTrip(b);
  }
}
