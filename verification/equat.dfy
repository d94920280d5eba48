/** The Varshni law for the temperature dependence of a band gap. */
module Equat {
  import RealArith

  /** Band gap at absolute temperature `temp` from its zero-kelvin value `eg`
      and the Varshni constants `a` (eV/K) and `b` (K):
      eg - a * temp^2 / (temp + b). The source divides by `temp + b`
      unguarded, so a zero denominator is excluded here and reported as an
      error by the callers that look the constants up. */
  function Varshni(temp: real, eg: real, a: real, b: real): (r: real)
    requires temp + b != 0.0
    // the drop below `eg`, scaled by the denominator, is a * temp^2
    ensures (eg - r) * (temp + b) == a * temp * temp
    ensures temp == 0.0 ==> r == eg
    ensures a == 0.0 ==> r == eg
    ensures 0.0 <= temp && 0.0 <= a && 0.0 < b ==> r <= eg
  {
    eg - a * (temp * temp) / (temp + b)
  }

  /** Shifting the zero-kelvin gap shifts the gap at every temperature by
      the same amount. */
  lemma VarshniShift(temp: real, eg: real, d: real, a: real, b: real)
    requires temp + b != 0.0
    ensures Varshni(temp, eg + d, a, b) == Varshni(temp, eg, a, b) + d
  {
  }

  /** With physical constants the gap never grows as the crystal warms. */
  lemma VarshniNonIncreasing(t1: real, t2: real, eg: real, a: real, b: real)
    requires 0.0 <= t1 <= t2
    requires 0.0 <= a && 0.0 < b
    ensures Varshni(t2, eg, a, b) <= Varshni(t1, eg, a, b)
  {
    SquareRatioGrows(t1, t2, b);
    RealArith.ScaleOrder(a, t1 * t1 / (t1 + b), t2 * t2 / (t2 + b));
    assert a * (t1 * t1) / (t1 + b) == a * (t1 * t1 / (t1 + b));
    assert a * (t2 * t2) / (t2 + b) == a * (t2 * t2 / (t2 + b));
  }

  /** The Varshni correction term t^2 / (t + b) grows with t >= 0 when b > 0. */
  lemma SquareRatioGrows(t1: real, t2: real, b: real)
    requires 0.0 <= t1 <= t2 && 0.0 < b
    ensures t1 * t1 / (t1 + b) <= t2 * t2 / (t2 + b)
  {
    var d1 := t1 + b;
    var d2 := t2 + b;
    var q1 := t1 * t1 / d1;
    var q2 := t2 * t2 / d2;
    // cross-multiplied: t1^2 (t2 + b) <= t2^2 (t1 + b)
    var gap := (t2 - t1) * (t1 * t2 + b * (t1 + t2));
    assert t2 * t2 * d1 - t1 * t1 * d2 == gap;
    RealArith.ScaleOrder(t1, 0.0, t2);
    RealArith.ScaleOrder(b, 0.0, t1 + t2);
    RealArith.ScaleOrder(t2 - t1, 0.0, t1 * t2 + b * (t1 + t2));
    assert q1 * d1 == t1 * t1;
    assert q2 * d2 == t2 * t2;
    var k := d1 * d2;
    RealArith.PositiveProduct(d1, d2);
    assert q1 * k == t1 * t1 * d2;
    assert q2 * k == t2 * t2 * d1;
    RealArith.QuotientOrder(q1, q2, k);
  }
}
