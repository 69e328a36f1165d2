/** String helpers shared by the server and the client model: decimal
    rendering of integers, fixed-width zero padding and PHP's implode. */
module Text {

  predicate IsDigit(c: char) { '0' <= c <= '9' }

  predicate AllDigits(s: string) { forall i :: 0 <= i < |s| ==> IsDigit(s[i]) }

  function DigitChar(d: nat): (c: char)
    requires d < 10
    ensures IsDigit(c) && c as int - '0' as int == d
  {
    ('0' as int + d) as char
  }

  function DigitValue(c: char): nat
    requires IsDigit(c)
  {
    c as int - '0' as int
  }

  function Pow10(n: nat): (p: nat)
    ensures p >= 1
  {
    if n == 0 then 1 else 10 * Pow10(n - 1)
  }

  /** The number a string of decimal digits denotes. */
  function ParseDigits(s: string): nat
    requires AllDigits(s)
  {
    if s == [] then 0 else 10 * ParseDigits(s[..|s| - 1]) + DigitValue(s[|s| - 1])
  }

  /** The shortest decimal representation of n, as PHP and JavaScript print
      a non-negative integer: no leading zero unless n is zero. */
  function NatToString(n: nat): (s: string)
    ensures |s| > 0 && AllDigits(s)
    ensures s[0] == '0' <==> n == 0
    decreases n
  {
    if n < 10 then [DigitChar(n)] else NatToString(n / 10) + [DigitChar(n % 10)]
  }

  /** An integer as PHP's string conversion and JavaScript's template
      literals print it. */
  function IntToString(i: int): (s: string)
    ensures |s| > 0
    ensures s[0] == '-' <==> i < 0
  {
    if i < 0 then "-" + NatToString(-i) else NatToString(i)
  }

  lemma {:induction false} NatToStringRoundTrip(n: nat)
    ensures ParseDigits(NatToString(n)) == n
    decreases n
  {
    if n >= 10 {
      var s := NatToString(n / 10);
      NatToStringRoundTrip(n / 10);
      assert (s + [DigitChar(n % 10)])[..|s|] == s;
    }
  }

  /** n written with exactly `width` digits, zero-padded on the left; the
      digits of PHP's date format characters 'Y', 'm', 'd', 'H', 'i', 's'. */
  function Pad(n: nat, width: nat): (s: string)
    ensures |s| == width && AllDigits(s)
  {
    if width == 0 then [] else Pad(n / 10, width - 1) + [DigitChar(n % 10)]
  }

  /** Padding loses nothing when the number fits in the width. */
  lemma {:induction false} PadRoundTrip(n: nat, width: nat)
    requires n < Pow10(width)
    ensures ParseDigits(Pad(n, width)) == n
  {
    if width > 0 {
      var s := Pad(n / 10, width - 1);
      PadRoundTrip(n / 10, width - 1);
      assert (s + [DigitChar(n % 10)])[..|s|] == s;
    }
  }

  /** A digit string is the padding of the number it denotes: padded forms
      are canonical. */
  lemma {:induction false} PadCanonical(s: string)
    requires AllDigits(s)
    ensures ParseDigits(s) < Pow10(|s|)
    ensures Pad(ParseDigits(s), |s|) == s
  {
    if s != [] {
      var init := s[..|s| - 1];
      var d := DigitValue(s[|s| - 1]);
      PadCanonical(init);
      var n := ParseDigits(s);
      assert n == 10 * ParseDigits(init) + d;
      assert n / 10 == ParseDigits(init) && n % 10 == d;
      assert s == init + [s[|s| - 1]];
    }
  }

  /** PHP's implode(sep, xs). */
  function Join(sep: string, xs: seq<string>): string
  {
    if xs == [] then []
    else if |xs| == 1 then xs[0]
    else xs[0] + sep + Join(sep, xs[1..])
  }
}
