/** Decimal digit strings, shared by the timestamp and the number recognisers. */
module Digits {

  predicate IsDigit(c: char) { '0' <= c <= '9' }

  function DigitValue(c: char): (d: int)
    requires IsDigit(c)
    ensures 0 <= d <= 9
  {
    c as int - '0' as int
  }

  function DigitChar(d: int): (c: char)
    requires 0 <= d <= 9
    ensures IsDigit(c) && DigitValue(c) == d
  {
    ('0' as int + d) as char
  }

  function Pow10(n: nat): (p: nat)
    ensures p >= 1
  {
    if n == 0 then 1 else 10 * Pow10(n - 1)
  }

  predicate AllDigits(s: string) { forall k :: 0 <= k < |s| ==> IsDigit(s[k]) }

  /** The number a string of decimal digits spells. */
  function DigitsValue(s: string): (n: nat)
    requires AllDigits(s)
    ensures n < Pow10(|s|)
  {
    if s == [] then 0 else 10 * DigitsValue(s[..|s| - 1]) + DigitValue(s[|s| - 1])
  }

  /** n written with exactly `width` digits, zero-padded on the left (strftime's %Y and %m). */
  function Pad(n: nat, width: nat): (s: string)
    requires n < Pow10(width)
    ensures |s| == width && AllDigits(s) && DigitsValue(s) == n
  {
    if width == 0 then ""
    else
      var s := Pad(n / 10, width - 1) + [DigitChar(n % 10)];
      assert s[..|s| - 1] == Pad(n / 10, width - 1);
      s
  }

  /** Appending a digit d to the number a in base ten, read back by division and remainder. */
  lemma DivMod10(a: nat, d: nat)
    requires d < 10
    ensures (10 * a + d) / 10 == a && (10 * a + d) % 10 == d
  {
  }

  /** A string of digits is its own zero-padded spelling: Pad is the inverse of DigitsValue at a
      fixed width. */
  lemma PadDigits(ds: string)
    requires AllDigits(ds)
    ensures Pad(DigitsValue(ds), |ds|) == ds
  {
    DigitsInjective(Pad(DigitsValue(ds), |ds|), ds);
  }

  /** Two digit strings of one length that spell the same number are the same string. */
  lemma {:induction false} DigitsInjective(x: string, y: string)
    requires AllDigits(x) && AllDigits(y) && |x| == |y| && DigitsValue(x) == DigitsValue(y)
    ensures x == y
  {
    if x != [] {
      var x0, y0 := x[..|x| - 1], y[..|y| - 1];
      var cx, cy := x[|x| - 1], y[|y| - 1];
      assert AllDigits(x0) by {
        assert forall k :: 0 <= k < |x0| ==> x0[k] == x[k];
      }
      assert AllDigits(y0) by {
        assert forall k :: 0 <= k < |y0| ==> y0[k] == y[k];
      }
      DivMod10(DigitsValue(x0), DigitValue(cx));
      DivMod10(DigitsValue(y0), DigitValue(cy));
      DigitsInjective(x0, y0);
      assert cx == cy;
      assert x == x0 + [cx] && y == y0 + [cy];
    }
  }



}
