// Round trips between the number-to-text conversions and the two parsers
// of JavaScript text the content API relies on: parseInt and the number
// conversion of the validation library.
module JsValueFacts {
  import opened Wrappers
  import opened Strings
  import opened JsValue

  lemma {:induction false} RadixValueDecimal(s: string)
    requires forall i :: 0 <= i < |s| ==> IsDigit(s[i])
    ensures RadixValue(s, false) == DigitsValue(s)
  {
    if s != [] { RadixValueDecimal(s[..|s| - 1]); }
  }

  lemma {:induction false} DigitRunAll(t: string)
    requires forall k :: 0 <= k < |t| ==> IsDigit(t[k])
    ensures DigitRun(t, false) == |t|
  {
    if t != [] { DigitRunAll(t[1..]); }
  }

  lemma MagnitudeOfDigits(t: string)
    requires |t| >= 1 && forall k :: 0 <= k < |t| ==> IsDigit(t[k])
    requires |t| > 1 ==> t[0] != '0'
    ensures ParseMagnitude(t) == Some(DigitsValue(t))
  {
    DigitRunAll(t);
    assert t[..|t|] == t;
    RadixValueDecimal(t);
  }

  lemma MagnitudeOfNatText(n: nat)
    ensures ParseMagnitude(NatText(n)) == Some(n)
  {
    DigitsValueOfNatText(n);
    MagnitudeOfDigits(NatText(n));
  }

  lemma ParseIntUnsigned(t: string, v: nat)
    requires |t| >= 1 && ParseMagnitude(t) == Some(v)
    requires !IsSpace(t[0]) && t[0] != '-' && t[0] != '+'
    ensures ParseInt(t) == Some(v)
  {
    assert TrimStart(t) == t;
  }

  lemma ParseIntNegative(t: string, v: nat)
    requires |t| >= 1 && ParseMagnitude(t) == Some(v)
    ensures ParseInt("-" + t) == Some(-(v as int))
  {
    var m := "-" + t;
    assert m[0] == '-' && !IsSpace(m[0]);
    assert TrimStart(m) == m;
    assert m[1..] == t;
  }

  lemma ParseIntOfNatText(n: nat)
    ensures ParseInt(NatText(n)) == Some(n as int)
  {
    var t := NatText(n);
    MagnitudeOfNatText(n);
    assert IsDigit(t[0]);
    ParseIntUnsigned(t, n);
  }

  lemma ParseIntOfNegativeNatText(n: nat)
    ensures ParseInt("-" + NatText(n)) == Some(-(n as int))
  {
    MagnitudeOfNatText(n);
    ParseIntNegative(NatText(n), n);
  }

  /** parseInt of the decimal text of an integer gives that integer back. */
  lemma ParseIntOfIntText(i: int)
    ensures ParseInt(IntText(i)) == Some(i)
  {
    if i < 0 { ParseIntOfNegativeNatText(-i); } else { ParseIntOfNatText(i); }
  }

  lemma UnsignedDecimalOfDigits(t: string)
    requires forall k :: 0 <= k < |t| ==> IsDigit(t[k])
    requires |t| >= 1
    ensures UnsignedDecimal(t) == Some(DigitsValue(t) as real)
  {
    DigitRunAll(t);
  }

  lemma DecimalValueOfDigits(t: string)
    requires forall k :: 0 <= k < |t| ==> IsDigit(t[k])
    requires |t| >= 1
    ensures DecimalValue(t) == Some(DigitsValue(t) as real)
  {
    UnsignedDecimalOfDigits(t);
    assert !IsSpace(t[0]) && !IsSpace(t[|t| - 1]);
    TrimmedIff(t);
    DecimalValueUnsigned(t, DigitsValue(t) as real);
  }

  lemma DecimalValueUnsigned(t: string, x: real)
    requires Trim(t) == t && UnsignedDecimal(t) == Some(x)
    requires t == [] || (t[0] != '-' && t[0] != '+')
    ensures DecimalValue(t) == Some(x)
  {
  }

  /** The conversion reads back the decimal text of every natural number. */
  lemma DecimalValueOfNatText(n: nat)
    ensures DecimalValue(NatText(n)) == Some(n as real)
  {
    DigitsValueOfNatText(n);
    DecimalValueOfDigits(NatText(n));
  }
}
