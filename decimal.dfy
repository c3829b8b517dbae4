/** The part of Python's float(str) that the model recognises: an optional sign, then decimal
    digits with at most one '.', at least one digit in all ("12", "-0.5", ".5", "5."). */
module Decimal {
  import opened Wrappers
  import opened Digits

  /** The index of the first '.' of s, or |s| when there is none. */
  function DotIndex(s: string): (p: nat)
    ensures p <= |s|
    ensures forall k :: 0 <= k < p ==> s[k] != '.'
    ensures p < |s| ==> s[p] == '.'
  {
    if s == [] then 0 else if s[0] == '.' then 0 else 1 + DotIndex(s[1..])
  }

  /** An unsigned decimal: digits, optionally a '.' and more digits. */
  function Magnitude(s: string): (r: Option<real>)
    ensures AllDigits(s) && s != "" ==> r == Some(DigitsValue(s) as real)
  {
    var p := DotIndex(s);
    assert AllDigits(s) ==> p == |s| && s[..p] == s by {
      if AllDigits(s) {
        DigitsHaveNoDot(s);
      }
    }
    var whole := s[..p];
    var frac := if p < |s| then s[p + 1..] else "";
    if AllDigits(whole) && AllDigits(frac) && |whole| + |frac| >= 1 then
      Some(DigitsValue(whole) as real + DigitsValue(frac) as real / Pow10(|frac|) as real)
    else None
  }

  /** float(s) on the strings this model recognises; None where float raises ValueError. */
  function ParseDecimal(s: string): (r: Option<real>)
    ensures s == "" ==> r.None?
    ensures AllDigits(s) && s != "" ==> r == Some(DigitsValue(s) as real)
  {
    if |s| > 0 && s[0] == '-' then
      match Magnitude(s[1..])
      case Some(m) => Some(-m)
      case None => None
    else if |s| > 0 && s[0] == '+' then Magnitude(s[1..])
    else Magnitude(s)
  }

  /** str(n) for a natural number. */
  function NatToString(n: nat): (s: string)
    ensures |s| >= 1
  {
    if n < 10 then [DigitChar(n)] else NatToString(n / 10) + [DigitChar(n % 10)]
  }

  /** str(i) for an integer, as Python writes it. */
  function IntToString(i: int): string {
    if i < 0 then "-" + NatToString(-i) else NatToString(i)
  }

  lemma {:induction false} NatToStringDigits(n: nat)
    ensures AllDigits(NatToString(n)) && DigitsValue(NatToString(n)) == n
  {
    var s := NatToString(n);
    if n >= 10 {
      NatToStringDigits(n / 10);
      assert s[..|s| - 1] == NatToString(n / 10);
    } else {
      assert s[..0] == "";
    }
  }

  lemma DigitsHaveNoDot(s: string)
    requires AllDigits(s)
    ensures DotIndex(s) == |s|
  {
    if DotIndex(s) < |s| {
      assert IsDigit(s[DotIndex(s)]);
    }
  }

  /** float(str(i)) == i: the number recogniser reads back every integer Python prints. */
  lemma IntRoundTrip(i: int)
    ensures ParseDecimal(IntToString(i)) == Some(i as real)
  {
    if i < 0 {
      NegativeRoundTrip(i);
    } else {
      NatMagnitude(i);
      NatToStringDigits(i);
      assert IsDigit(NatToString(i)[0]);
    }
  }

  lemma NegativeRoundTrip(i: int)
    requires i < 0
    ensures ParseDecimal(IntToString(i)) == Some(i as real)
  {
    NatToStringDigits(-i);
    NegativeDigits(NatToString(-i), -i);
  }

  /** A minus sign before a digit string negates its value. */
  lemma NegativeDigits(t: string, n: nat)
    requires AllDigits(t) && t != "" && DigitsValue(t) == n
    ensures ParseDecimal("-" + t) == Some(-(n as real))
  {
    var s := "-" + t;
    assert s[0] == '-' && s[1..] == t;
    assert Magnitude(t) == Some(n as real);
  }

  /** The unsigned recogniser reads back every natural number str writes. */
  lemma NatMagnitude(n: nat)
    ensures Magnitude(NatToString(n)) == Some(n as real)
  {
    NatToStringDigits(n);
  }

  /** "12.5" is 12.5 and "abc" is refused. */
  lemma DecimalExamples()
    ensures ParseDecimal("12.5") == Some(12.5)
    ensures ParseDecimal("abc").None?
  {
    assert DotIndex("12.5") == 2 by {
      assert "12.5"[1..] == "2.5" && "2.5"[1..] == ".5";
    }
    assert "12.5"[..2] == "12" && "12.5"[3..] == "5";
    assert DigitsValue("12") == 12 by { assert "12"[..1] == "1" && "1"[..0] == ""; }
    assert DigitsValue("5") == 5 by { assert "5"[..0] == ""; }
    assert DotIndex("abc") == 3 by {
      assert "abc"[1..] == "bc" && "bc"[1..] == "c" && "c"[1..] == "";
    }
    assert !IsDigit("abc"[..3][0]);
  }
}
