/**
 * Amounts and the text of amount cells. The source's floats are modelled as exact decimals; the
 * one numeric test it applies to cells, `s.replace('.', '', 1).isdigit()`, and `float(s)` of a
 * cell that passes it are defined here, together with the text a number is written as.
 */
module Decimals {
  import opened Text

  function Pow10(n: nat): (r: nat)
    ensures r >= 1
  {
    if n == 0 then 1 else 10 * Pow10(n - 1)
  }

  /** The number mantissa / 10^exponent. */
  datatype Decimal = Decimal(mantissa: int, exponent: nat) {
    function Value(): real {
      mantissa as real / Pow10(exponent) as real
    }
  }

  lemma ValueSign(d: Decimal)
    ensures d.Value() > 0.0 <==> d.mantissa > 0
    ensures d.Value() >= 0.0 <==> d.mantissa >= 0
  {
    QuotientSign(d.mantissa as real, Pow10(d.exponent) as real);
  }

  lemma QuotientSign(m: real, p: real)
    requires p > 0.0
    ensures m / p > 0.0 <==> m > 0.0
    ensures m / p >= 0.0 <==> m >= 0.0
  {
    var v := m / p;
    assert v * p == m;
    if v > 0.0 { assert v * p > 0.0; }
    if v < 0.0 { assert v * p < 0.0; }
  }

  predicate AllDigits(s: string) {
    forall i :: 0 <= i < |s| ==> IsAsciiDigit(s[i])
  }

  function DigitValue(c: char): nat
    requires IsAsciiDigit(c)
  {
    c as int - '0' as int
  }

  function DigitChar(n: nat): (c: char)
    requires n < 10
    ensures IsAsciiDigit(c) && DigitValue(c) == n
  {
    ('0' as int + n) as char
  }

  /** The value of a string of ASCII digits, most significant first ("" is 0). */
  function DigitsValue(s: string): nat
    requires AllDigits(s)
  {
    if s == [] then 0 else DigitsValue(s[..|s| - 1]) * 10 + DigitValue(s[|s| - 1])
  }

  /**
   * The numeric-cell test `s.replace('.', '', 1).isdigit()`: after removing the first dot,
   * the text is non-empty and all digits. Only ASCII digits are accepted.
   */
  predicate IsNumericCell(s: string) {
    var t := RemoveFirst(s, '.');
    t != [] && AllDigits(t)
  }

  /** The text after the first `c`, or "" when there is none. */
  function AfterFirst(s: string, c: char): string {
    var b := BeforeFirst(s, c);
    if |b| < |s| then s[|b| + 1..] else []
  }

  /** Removing the first `c` joins what stands before it to what stands after it. */
  lemma {:induction false} RemoveFirstSplits(s: string, c: char)
    ensures RemoveFirst(s, c) == BeforeFirst(s, c) + AfterFirst(s, c)
  {
    if s != [] && s[0] != c {
      RemoveFirstSplits(s[1..], c);
      var b := BeforeFirst(s[1..], c);
      assert BeforeFirst(s, c) == [s[0]] + b;
      if |b| < |s[1..]| {
        assert s[|b| + 2..] == s[1..][|b| + 1..];
      }
    }
  }

  lemma NumericCellParts(s: string)
    requires IsNumericCell(s)
    ensures AllDigits(BeforeFirst(s, '.')) && AllDigits(AfterFirst(s, '.'))
  {
    RemoveFirstSplits(s, '.');
    var b, a := BeforeFirst(s, '.'), AfterFirst(s, '.');
    assert forall i :: 0 <= i < |a| ==> a[i] == (b + a)[|b| + i];
    assert forall i :: 0 <= i < |b| ==> b[i] == (b + a)[i];
  }

  /** `float(s)` of a numeric cell: the integer part plus the fraction after the dot. */
  function CellNumber(s: string): (r: real)
    requires IsNumericCell(s)
    ensures r >= 0.0
  {
    NumericCellParts(s);
    var whole, frac := BeforeFirst(s, '.'), AfterFirst(s, '.');
    DigitsValue(whole) as real + DigitsValue(frac) as real / Pow10(|frac|) as real
  }

  /** `float(s) if s.replace('.', '', 1).isdigit() else 0`, the amount the core reads from a cell. */
  function CellAmount(s: string): (r: real)
    ensures r >= 0.0
    ensures !IsNumericCell(s) ==> r == 0.0
  {
    if IsNumericCell(s) then CellNumber(s) else 0.0
  }

  /** Decimal digits of n, without leading zeros ("0" for zero). */
  function NatText(n: nat): (r: string)
    ensures r != [] && AllDigits(r)
  {
    if n < 10 then [DigitChar(n)] else NatText(n / 10) + [DigitChar(n % 10)]
  }

  lemma {:induction false} NatTextValue(n: nat)
    ensures DigitsValue(NatText(n)) == n
  {
    if n >= 10 {
      NatTextValue(n / 10);
      var t := NatText(n);
      assert t[..|t| - 1] == NatText(n / 10);
    }
  }

  lemma {:induction false} NatTextLength(n: nat, k: nat)
    requires 1 <= k && n < Pow10(k)
    ensures |NatText(n)| <= k
  {
    if n >= 10 {
      NatTextLength(n / 10, k - 1);
    }
  }

  function Zeros(n: nat): (r: string)
    ensures |r| == n && AllDigits(r)
    ensures forall i :: 0 <= i < n ==> r[i] == '0'
  {
    if n == 0 then [] else Zeros(n - 1) + ['0']
  }

  lemma {:induction false} LeadingZeros(z: nat, s: string)
    requires AllDigits(s)
    ensures DigitsValue(Zeros(z) + s) == DigitsValue(s)
  {
    if s == [] {
      assert Zeros(z) + s == Zeros(z);
      ZerosValue(z);
    } else {
      var t := Zeros(z) + s;
      assert t[..|t| - 1] == Zeros(z) + s[..|s| - 1];
      LeadingZeros(z, s[..|s| - 1]);
    }
  }

  lemma {:induction false} ZerosValue(z: nat)
    ensures DigitsValue(Zeros(z)) == 0
  {
    if z > 0 {
      assert Zeros(z)[..z - 1] == Zeros(z - 1);
      ZerosValue(z - 1);
    }
  }

  /** Left-pads a digit string with zeros up to `width` characters. */
  function PadDigits(s: string, width: nat): (r: string)
    ensures |r| == if |s| < width then width else |s|
  {
    if |s| < width then Zeros(width - |s|) + s else s
  }

  /** The text of n / 10^e: the integer part and, when e > 0, a dot and exactly e fraction digits. */
  function UnsignedText(n: nat, e: nat): string {
    if e == 0 then NatText(n)
    else
      var p := Pow10(e);
      DivModNat(n, p);
      NatText(n / p) + "." + PadDigits(NatText(n % p), e)
  }

  lemma DivModNat(n: nat, p: nat)
    requires p >= 1
    ensures 0 <= n / p && 0 <= n % p < p
  {
  }

  /** The text a number is written as: an optional "-" and the text of its magnitude. */
  function DecimalText(d: Decimal): string {
    if d.mantissa < 0 then "-" + UnsignedText(-d.mantissa, d.exponent)
    else UnsignedText(d.mantissa, d.exponent)
  }

  /** The text `a + [c] + b` splits at its first `c` into `a` and `b` when `a` holds no `c`. */
  lemma SplitAtFirst(a: string, c: char, b: string)
    requires c !in a
    ensures BeforeFirst(a + [c] + b, c) == a && AfterFirst(a + [c] + b, c) == b
  {
    var s := a + [c] + b;
    assert s[|a| + 1..] == b;
  }

  lemma DivModReal(n: nat, p: nat)
    requires p >= 1
    ensures (n / p) as real + (n % p) as real / p as real == n as real / p as real
  {
    var q, r := n / p, n % p;
    assert n == q * p + r;
    assert n as real == q as real * p as real + r as real;
  }

  /**
   * Row codec round trip for amounts: the text written for a non-negative decimal passes the
   * numeric-cell test and reads back as exactly that decimal's value.
   */
  lemma {:induction false} DecimalTextRoundTrip(d: Decimal)
    requires d.mantissa >= 0
    ensures IsNumericCell(DecimalText(d))
    ensures CellAmount(DecimalText(d)) == d.Value()
  {
    var n := d.mantissa;
    var text := DecimalText(d);
    NatTextValue(n);
    if d.exponent == 0 {
      assert text == NatText(n);
      assert '.' !in text by { assert AllDigits(text); }
      assert BeforeFirst(text, '.') == text && AfterFirst(text, '.') == [];
    } else {
      var p := Pow10(d.exponent);
      var whole := NatText(n / p);
      var fracDigits := NatText(n % p);
      NatTextLength(n % p, d.exponent);
      var frac := PadDigits(fracDigits, d.exponent);
      assert frac == Zeros(d.exponent - |fracDigits|) + fracDigits;
      assert text == whole + ['.'] + frac;
      FractionDigits(whole, frac);
      assert '.' !in whole by { assert AllDigits(whole); }
      SplitAtFirst(whole, '.', frac);
      RemoveFirstSplits(text, '.');
      NatTextValue(n / p);
      NatTextValue(n % p);
      LeadingZeros(d.exponent - |fracDigits|, fracDigits);
      assert |frac| == d.exponent;
      DivModReal(n, p);
    }
  }

  lemma FractionDigits(whole: string, frac: string)
    requires AllDigits(whole) && AllDigits(frac)
    ensures AllDigits(whole + frac)
  {
    assert forall i :: 0 <= i < |whole + frac| ==> (whole + frac)[i] == if i < |whole| then whole[i] else frac[i - |whole|];
  }
}
