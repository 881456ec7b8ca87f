/**
 * JavaScript numbers as the storefront uses them for money: exact decimal
 * values (binary floating-point rounding is not modelled) or NaN, with the
 * three conversions the code relies on — `parseFloat`, `toFixed(2)` and
 * `Math.round`.
 */
module Numbers {
  import opened Text

  /** A JavaScript number: an exact value, or the NaN that a failed `parseFloat` yields. */
  datatype Num = Finite(value: real) | NaN

  /** `a + b`: NaN is absorbing. */
  function Plus(a: Num, b: Num): (r: Num)
    ensures r.Finite? <==> a.Finite? && b.Finite?
    ensures r.Finite? ==> r.value == a.value + b.value
  {
    if a.Finite? && b.Finite? then Finite(a.value + b.value) else NaN
  }

  /** `a * q` for an integer quantity `q`: NaN is absorbing. */
  function Times(a: Num, q: int): (r: Num)
    ensures r.Finite? <==> a.Finite?
    ensures r.Finite? ==> r.value == a.value * q as real
  {
    if a.Finite? then Finite(a.value * q as real) else NaN
  }

  lemma PlusCommutes(a: Num, b: Num)
    ensures Plus(a, b) == Plus(b, a)
  {
  }

  lemma PlusAssociates(a: Num, b: Num, c: Num)
    ensures Plus(Plus(a, b), c) == Plus(a, Plus(b, c))
  {
  }

  function Pow10(k: nat): (p: nat)
    ensures p >= 1
  {
    if k == 0 then 1 else 10 * Pow10(k - 1)
  }

  /** The amount `c` cents, as a value in currency units. */
  function Cents(c: int): real
  {
    c as real / 100.0
  }

  /** A value with no fraction of a cent. */
  predicate WholeCents(v: real)
  {
    (v * 100.0).Floor as real == v * 100.0
  }

  /** `Math.round(x)`: the nearest integer, halves rounded upward. */
  function MathRound(x: real): (n: int)
    ensures x - 0.5 < n as real <= x + 0.5
  {
    (x + 0.5).Floor
  }

  /** The whole number of cents `toFixed(2)` shows for a non-negative value: halves round up. */
  function HalfUpCents(v: real): (n: nat)
    requires v >= 0.0
    ensures v * 100.0 - 0.5 < n as real <= v * 100.0 + 0.5
  {
    (v * 100.0 + 0.5).Floor
  }

  /** The text `<n div 100>.<two digits>` of `n` cents. */
  function CentsText(n: nat): (r: string)
    ensures |r| >= 4 && r[|r| - 3] == '.' && IsDigit(r[|r| - 2]) && IsDigit(r[|r| - 1])
    ensures IsDigit(r[0])
  {
    NatToString(n / 100) + "." + [DigitChar(n % 100 / 10), DigitChar(n % 100 % 10)]
  }

  /**
   * `x.toFixed(2)`: "NaN" for NaN; otherwise a "-" for negative values, the
   * integer part, a point and exactly two decimals of |x| rounded to the cent.
   */
  function ToFixed2(x: Num): (r: string)
    ensures x.NaN? ==> r == "NaN"
    ensures x.Finite? ==> |r| >= 4 && r[|r| - 3] == '.' && IsDigit(r[|r| - 2]) && IsDigit(r[|r| - 1])
    ensures x.Finite? ==> (r[0] == '-' <==> x.value < 0.0)
  {
    match x
    case NaN => "NaN"
    case Finite(v) =>
      if v < 0.0 then "-" + CentsText(HalfUpCents(-v)) else CentsText(HalfUpCents(v))
  }

  /** The value that `toFixed(2)` displays: `v` rounded to the cent, halves away from zero. */
  function RoundToCents(v: real): (r: real)
    ensures -0.005 <= r - v <= 0.005
  {
    if v < 0.0 then -(HalfUpCents(-v) as real / 100.0) else HalfUpCents(v) as real / 100.0
  }

  /** A value in whole cents is displayed exactly. */
  lemma RoundToCentsExact(v: real)
    requires WholeCents(v)
    ensures RoundToCents(v) == v
  {
    var k := (v * 100.0).Floor;
    if v < 0.0 {
      assert (-v) * 100.0 + 0.5 == (-k) as real + 0.5;
      assert HalfUpCents(-v) == -k;
    } else {
      assert v * 100.0 + 0.5 == k as real + 0.5;
      assert HalfUpCents(v) == k;
    }
  }

  lemma CentsAreWhole(c: int)
    ensures WholeCents(Cents(c))
  {
    assert Cents(c) * 100.0 == c as real;
  }

  /** Sums of whole-cent amounts are whole cents. */
  lemma WholeCentsSum(a: real, b: real)
    requires WholeCents(a) && WholeCents(b)
    ensures WholeCents(a + b)
  {
    var ka, kb := (a * 100.0).Floor, (b * 100.0).Floor;
    assert (a + b) * 100.0 == (ka + kb) as real;
  }

  /**
   * `parseFloat`: leading whitespace is skipped, an optional sign is read,
   * then the longest decimal prefix `digits [. digits]` (at least one digit);
   * without one the result is NaN. Trailing text is ignored.
   */
  function ParseFloat(s: string): (r: Num)
    ensures AllSpace(s) ==> r == NaN
    ensures r.Finite? && r.value < 0.0 ==> LeadingSpace(s) < |s| && s[LeadingSpace(s)] == '-'
  {
    var t := s[LeadingSpace(s)..];
    if t != [] && (t[0] == '+' || t[0] == '-') then
      var u := ParseUnsigned(t[1..]);
      if t[0] == '-' && u.Finite? then Finite(-u.value) else u
    else ParseUnsigned(t)
  }

  function ParseUnsigned(t: string): (r: Num)
    ensures r.Finite? ==> r.value >= 0.0
    ensures t == [] || !(IsDigit(t[0]) || t[0] == '.') ==> r == NaN
  {
    var ip := DigitPrefix(t);
    var rest := t[|ip|..];
    var fp := if rest != [] && rest[0] == '.' then DigitPrefix(rest[1..]) else [];
    assert t == [] || !(IsDigit(t[0]) || t[0] == '.') ==> ip == [] && fp == [] by {
      if t != [] && !IsDigit(t[0]) {
        assert ip == [];
        assert rest == t;
      }
    }
    if ip == [] && fp == [] then NaN
    else
      var fraction := DigitsValue(fp) as real / Pow10(|fp|) as real;
      assert fraction >= 0.0;
      Finite(DigitsValue(ip) as real + fraction)
  }

  lemma DigitRoundTrip(d: nat)
    requires d < 10
    ensures DigitValue(DigitChar(d)) == d
  {
  }

  /** Two decimal digits read back as their two-digit value. */
  lemma TwoDigitsValue(a: nat, b: nat)
    requires a < 10 && b < 10
    ensures DigitsValue([DigitChar(a), DigitChar(b)]) == 10 * a + b
  {
    var s := [DigitChar(a), DigitChar(b)];
    DigitRoundTrip(a);
    DigitRoundTrip(b);
    assert s[..1] == [DigitChar(a)];
    assert [DigitChar(a)][..0] == [];
    assert DigitsValue([DigitChar(a)]) == a;
    assert DigitsValue(s) == 10 * DigitsValue(s[..1]) + DigitValue(s[1]);
  }

  /** Digits, a point and two more digits parse as the integer part plus hundredths. */
  lemma {:induction false} ParseUnsignedCents(q: string, frac: string)
    requires |q| >= 1 && AllDigits(q) && |frac| == 2 && AllDigits(frac)
    ensures ParseUnsigned(q + "." + frac) == Finite(DigitsValue(q) as real + DigitsValue(frac) as real / 100.0)
  {
    var tail := "." + frac;
    assert q + "." + frac == q + tail;
    DigitPrefixOf(q, tail);
    assert (q + tail)[|q|..] == tail;
    assert tail[1..] == frac + [];
    DigitPrefixOf(frac, []);
    assert Pow10(2) == 100;
  }

  /** The text of `n` cents reads back as `n` cents. */
  lemma CentsTextParsesBack(n: nat)
    ensures ParseUnsigned(CentsText(n)) == Finite(Cents(n))
  {
    var a, b := n % 100 / 10, n % 100 % 10;
    var frac := [DigitChar(a), DigitChar(b)];
    assert CentsText(n) == NatToString(n / 100) + "." + frac;
    ParseUnsignedCents(NatToString(n / 100), frac);
    NatToStringRoundTrip(n / 100);
    TwoDigitsValue(a, b);
    CentsSplit(n);
  }

  /** `n` cents are `n / 100` units and `n % 100` hundredths. */
  lemma CentsSplit(n: nat)
    ensures (n / 100) as real + (10 * (n % 100 / 10) + n % 100 % 10) as real / 100.0 == Cents(n)
  {
    var q, r := n / 100, n % 100;
    assert 10 * (r / 10) + r % 10 == r;
    assert n == 100 * q + r;
    assert n as real == 100.0 * q as real + r as real;
  }

  /** A text that starts with a digit is parsed without sign or whitespace handling. */
  lemma ParseFloatOfDigitStart(c: string)
    requires c != [] && IsDigit(c[0])
    ensures ParseFloat(c) == ParseUnsigned(c)
    ensures ParseFloat("-" + c) == (var u := ParseUnsigned(c); if u.Finite? then Finite(-u.value) else u)
  {
    assert !IsJsSpace(c[0]) && c[0] != '+' && c[0] != '-';
    assert LeadingSpace(c) == 0;
    assert c[0..] == c;
    var m := "-" + c;
    assert m[0] == '-' && !IsJsSpace(m[0]);
    assert LeadingSpace(m) == 0;
    assert m[0..] == m && m[1..] == c;
  }

  /** A text that starts with neither whitespace, a sign, a digit nor a point is not a number. */
  lemma ParseFloatOfOtherStart(c: string)
    requires c != [] && !IsJsSpace(c[0]) && c[0] != '+' && c[0] != '-' && !IsDigit(c[0]) && c[0] != '.'
    ensures ParseFloat(c) == NaN
  {
    assert LeadingSpace(c) == 0;
    assert c[0..] == c;
  }

  /** Between the optional sign and the point, `toFixed(2)` shows only digits, at least one. */
  lemma ToFixed2Digits(x: Num)
    requires x.Finite?
    ensures var r := ToFixed2(x); var k := if x.value < 0.0 then 1 else 0;
      k < |r| - 3 && AllDigits(r[k..|r| - 3])
  {
    var v := x.value;
    var n := if v < 0.0 then HalfUpCents(-v) else HalfUpCents(v);
    var q := NatToString(n / 100);
    var c := CentsText(n);
    assert c == q + "." + [DigitChar(n % 100 / 10), DigitChar(n % 100 % 10)];
    assert c[..|c| - 3] == q;
    var r := ToFixed2(x);
    if v < 0.0 {
      assert r == "-" + c;
      assert r[1..|r| - 3] == c[..|c| - 3];
    } else {
      assert r == c;
    }
  }

  /** `parseFloat` reads the text of `n` cents back as `n` cents. */
  lemma CentsTextParsesAsFloat(n: nat)
    ensures ParseFloat(CentsText(n)) == Finite(Cents(n))
  {
    CentsTextParsesBack(n);
    ParseFloatOfDigitStart(CentsText(n));
  }

  /** `parseFloat` reads "-" and the text of `n` cents back as minus `n` cents. */
  lemma NegativeCentsTextParses(n: nat)
    ensures ParseFloat("-" + CentsText(n)) == Finite(-Cents(n))
  {
    CentsTextParsesBack(n);
    ParseFloatOfDigitStart(CentsText(n));
  }

  /** The rounded value is the signed count of cents `toFixed(2)` shows. */
  lemma RoundToCentsIsShownCents(v: real)
    ensures v < 0.0 ==> RoundToCents(v) == -Cents(HalfUpCents(-v))
    ensures v >= 0.0 ==> RoundToCents(v) == Cents(HalfUpCents(v))
  {
  }

  /** What `toFixed(2)` shows reads back, through `parseFloat`, as the value rounded to the cent. */
  lemma ToFixed2ParsesBack(v: real)
    ensures ParseFloat(ToFixed2(Finite(v))) == Finite(RoundToCents(v))
  {
    RoundToCentsIsShownCents(v);
    if v < 0.0 {
      var n := HalfUpCents(-v);
      assert ToFixed2(Finite(v)) == "-" + CentsText(n);
      NegativeCentsTextParses(n);
    } else {
      var n := HalfUpCents(v);
      assert ToFixed2(Finite(v)) == CentsText(n);
      CentsTextParsesAsFloat(n);
    }
  }

  /** Whole-cent amounts survive the `toFixed(2)` / `parseFloat` round trip unchanged. */
  lemma ToFixed2RoundTrip(v: real)
    requires WholeCents(v)
    ensures ParseFloat(ToFixed2(Finite(v))) == Finite(v)
  {
    ToFixed2ParsesBack(v);
    RoundToCentsExact(v);
  }
}
