/** Exact decimal numbers in the shape java.math.BigDecimal gives them: an
    unscaled integer together with a scale, standing for unscaled / 10^scale.
    Only the operations the bank-account core uses are modelled: add,
    subtract, compareTo and the scale-sensitive equals. */
module Decimal {

  /** unscaled / 10^scale.  One number has many representations:
      Dec(25, 0) and Dec(2500, 2) both stand for 25, spelt "25" and "25.00". */
  datatype Dec = Dec(unscaled: int, scale: nat)

  /** BigDecimal.ZERO, whose scale is 0. */
  const Zero: Dec := Dec(0, 0)

  lemma ZeroValue()
    ensures Value(Zero) == 0.0
  {
    ValueAsQuotient(Zero);
  }

  function Max(a: nat, b: nat): (m: nat)
    ensures m >= a && m >= b && (m == a || m == b)
  {
    if a < b then b else a
  }

  function Pow10(n: nat): (r: nat)
    ensures r >= 1
  {
    if n <= 0 then 1 else 10 * Pow10(n - 1)
  }

  lemma {:induction false} Pow10Add(m: nat, n: nat)
    ensures Pow10(m + n) == Pow10(m) * Pow10(n)
  {
    if n > 0 {
      Pow10Add(m, n - 1);
      assert Pow10(m + n) == 10 * Pow10(m + n - 1);
    }
  }

  /** x / 10^n, one decimal place at a time. */
  ghost function Shift(x: real, n: nat): real
  {
    if n <= 0 then x else Shift(x, n - 1) / 10.0
  }

  /** The number a decimal stands for: the reference meaning of every
      operation below. */
  ghost function Value(d: Dec): real
  {
    Shift(d.unscaled as real, d.scale)
  }

  lemma {:induction false} ShiftIsDivision(x: real, n: nat)
    ensures Shift(x, n) == x / (Pow10(n) as real)
  {
    if n > 0 {
      ShiftIsDivision(x, n - 1);
      var p := Pow10(n - 1) as real;
      assert Pow10(n) as real == 10.0 * p;
      assert (x / p) / 10.0 == x / (10.0 * p);
    }
  }

  lemma ValueAsQuotient(d: Dec)
    ensures Value(d) == (d.unscaled as real) / (Pow10(d.scale) as real)
  {
    ShiftIsDivision(d.unscaled as real, d.scale);
  }

  /** Two representations at the same scale stand for the same number
      exactly when they are the same representation. */
  lemma ValueInjectiveAtScale(a: Dec, b: Dec)
    requires a.scale == b.scale
    ensures Value(a) == Value(b) <==> a == b
  {
    ValueAsQuotient(a);
    ValueAsQuotient(b);
    var p := Pow10(a.scale) as real;
    if Value(a) == Value(b) {
      assert a.unscaled as real == Value(a) * p;
      assert b.unscaled as real == Value(b) * p;
    }
  }

  lemma CancelFactor(u: int, p: nat, k: nat)
    requires p > 0 && k > 0
    ensures ((u * k) as real) / ((p * k) as real) == (u as real) / (p as real)
  {
  }

  lemma SplitSum(x: int, y: int, p: real)
    requires p > 0.0
    ensures ((x + y) as real) / p == (x as real) / p + (y as real) / p
  {
  }

  lemma SplitDifference(x: int, y: int, p: real)
    requires p > 0.0
    ensures ((x - y) as real) / p == (x as real) / p - (y as real) / p
  {
  }

  lemma OrderAtScale(x: int, y: int, p: real)
    requires p > 0.0
    ensures x < y <==> (x as real) / p < (y as real) / p
    ensures x == y <==> (x as real) / p == (y as real) / p
  {
    assert (x as real) == ((x as real) / p) * p;
    assert (y as real) == ((y as real) / p) * p;
  }

  /** The same number written at a scale at least as large: appends zeros
      to the unscaled value, which is how BigDecimal aligns operands. */
  function Rescale(d: Dec, s: nat): (r: Dec)
    requires d.scale <= s
    ensures r.scale == s
  {
    if s == d.scale then d else Dec(AppendZeros(d.unscaled, s - d.scale), s)
  }

  /** u followed by n decimal zeros, one at a time. */
  function AppendZeros(u: int, n: nat): int
  {
    if n <= 0 then u else 10 * AppendZeros(u, n - 1)
  }

  lemma {:induction false} AppendZerosIsProduct(u: int, n: nat)
    ensures AppendZeros(u, n) == u * Pow10(n)
  {
    if n > 0 {
      AppendZerosIsProduct(u, n - 1);
      assert 10 * (u * Pow10(n - 1)) == u * (10 * Pow10(n - 1));
    }
  }

  lemma RescaleValue(d: Dec, s: nat)
    requires d.scale <= s
    ensures Value(Rescale(d, s)) == Value(d)
  {
    AppendZerosIsProduct(d.unscaled, s - d.scale);
    ValueAsQuotient(d);
    ValueAsQuotient(Rescale(d, s));
    Pow10Add(d.scale, s - d.scale);
    CancelFactor(d.unscaled, Pow10(d.scale), Pow10(s - d.scale));
  }

  /** BigDecimal.add: at the larger of the two scales. */
  function Add(a: Dec, b: Dec): (r: Dec)
    ensures r.scale == Max(a.scale, b.scale)
  {
    var s := Max(a.scale, b.scale);
    Dec(Rescale(a, s).unscaled + Rescale(b, s).unscaled, s)
  }

  /** Add is exact. */
  lemma AddValue(a: Dec, b: Dec)
    ensures Value(Add(a, b)) == Value(a) + Value(b)
  {
    var s := Max(a.scale, b.scale);
    RescaleValue(a, s);
    RescaleValue(b, s);
    ValueAsQuotient(Rescale(a, s));
    ValueAsQuotient(Rescale(b, s));
    ValueAsQuotient(Add(a, b));
    SplitSum(Rescale(a, s).unscaled, Rescale(b, s).unscaled, Pow10(s) as real);
  }

  /** BigDecimal.subtract: at the larger of the two scales. */
  function Subtract(a: Dec, b: Dec): (r: Dec)
    ensures r.scale == Max(a.scale, b.scale)
  {
    var s := Max(a.scale, b.scale);
    Dec(Rescale(a, s).unscaled - Rescale(b, s).unscaled, s)
  }

  /** Subtract is exact. */
  lemma SubtractValue(a: Dec, b: Dec)
    ensures Value(Subtract(a, b)) == Value(a) - Value(b)
  {
    var s := Max(a.scale, b.scale);
    RescaleValue(a, s);
    RescaleValue(b, s);
    ValueAsQuotient(Rescale(a, s));
    ValueAsQuotient(Rescale(b, s));
    ValueAsQuotient(Subtract(a, b));
    SplitDifference(Rescale(a, s).unscaled, Rescale(b, s).unscaled, Pow10(s) as real);
  }

  /** BigDecimal.compareTo: compares the aligned unscaled values and answers
      -1, 0 or 1. */
  function CompareTo(a: Dec, b: Dec): (r: int)
    ensures -1 <= r <= 1
  {
    var s := Max(a.scale, b.scale);
    var x, y := Rescale(a, s).unscaled, Rescale(b, s).unscaled;
    if x < y then -1 else if x == y then 0 else 1
  }

  /** compareTo orders numbers, whatever their scales. */
  lemma CompareToValue(a: Dec, b: Dec)
    ensures CompareTo(a, b) == -1 <==> Value(a) < Value(b)
    ensures CompareTo(a, b) == 0 <==> Value(a) == Value(b)
    ensures CompareTo(a, b) == 1 <==> Value(a) > Value(b)
  {
    var s := Max(a.scale, b.scale);
    RescaleValue(a, s);
    RescaleValue(b, s);
    ValueAsQuotient(Rescale(a, s));
    ValueAsQuotient(Rescale(b, s));
    OrderAtScale(Rescale(a, s).unscaled, Rescale(b, s).unscaled, Pow10(s) as real);
  }

  /** BigDecimal.equals compares representations, not numbers: equal means
      the same number AND the same scale. */
  lemma EqualsMeansValueAndScale(a: Dec, b: Dec)
    ensures a == b <==> Value(a) == Value(b) && a.scale == b.scale
  {
    if Value(a) == Value(b) && a.scale == b.scale {
      ValueInjectiveAtScale(a, b);
    }
  }

  /** Subtracting and adding back the same amount gives back the same
      number, but the result carries the larger scale, so it equals the
      original representation only when the amount's scale is not larger. */
  lemma SubtractThenAdd(a: Dec, b: Dec)
    ensures Value(Add(Subtract(a, b), b)) == Value(a)
    ensures Add(Subtract(a, b), b) == a <==> b.scale <= a.scale
  {
    var r := Add(Subtract(a, b), b);
    SubtractValue(a, b);
    AddValue(Subtract(a, b), b);
    if b.scale <= a.scale {
      ValueInjectiveAtScale(r, a);
    }
  }
}
