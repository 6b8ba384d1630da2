/**
 * The ratio, F1 and mean arithmetic shared by the two evaluation scripts, over
 * exact reals.
 */
module Stats {

  /** `part / whole`, or 0 when `whole` is 0. */
  function Ratio(part: nat, whole: nat): (r: real)
    ensures whole == 0 ==> r == 0.0
    ensures whole > 0 ==> r * (whole as real) == part as real
    ensures 0.0 <= r
    ensures part <= whole ==> r <= 1.0
    ensures whole > 0 && part == whole ==> r == 1.0
  {
    if whole > 0 then (part as real) / (whole as real) else 0.0
  }

  /** The harmonic mean of precision and recall, or 0 when both are 0. */
  function F1(precision: real, recall: real): (f: real)
    ensures precision + recall <= 0.0 ==> f == 0.0
    ensures precision + recall > 0.0 ==> f * (precision + recall) == 2.0 * (precision * recall)
  {
    if precision + recall > 0.0 then 2.0 * (precision * recall) / (precision + recall) else 0.0
  }

  /** F1 of two non-negative scores lies between them. */
  lemma F1Between(precision: real, recall: real)
    requires 0.0 <= precision && 0.0 <= recall
    ensures 0.0 <= F1(precision, recall)
    ensures F1(precision, recall) <= precision || F1(precision, recall) <= recall
    ensures precision <= F1(precision, recall) || recall <= F1(precision, recall)
  {
    if precision + recall > 0.0 {
      HarmonicBetween(precision, recall, F1(precision, recall));
    }
  }

  /** Dividing both sides of an inequality by a positive factor. */
  lemma CancelPositive(a: real, b: real, c: real)
    requires c > 0.0 && a * c <= b * c
    ensures a <= b
  {
    var d := b - a;
    assert d * c == b * c - a * c;
    assert d == (d * c) / c;
  }

  /** The harmonic mean of two non-negative numbers lies between them. */
  lemma HarmonicBetween(p: real, r: real, f: real)
    requires 0.0 <= p && 0.0 <= r && p + r > 0.0
    requires f * (p + r) == 2.0 * (p * r)
    ensures 0.0 <= f && (f <= p || f <= r) && (p <= f || r <= f)
  {
    var s := p + r;
    assert 0.0 <= f by {
      assert 0.0 <= p * r;
      assert f == (f * s) / s;
    }
    if p <= r {
      assert 2.0 * (p * r) <= r * s by { assert p * r <= r * r; }
      assert p * s <= 2.0 * (p * r) by { assert p * p <= p * r; }
      CancelPositive(f, r, s);
      CancelPositive(p, f, s);
    } else {
      assert 2.0 * (p * r) <= p * s by { assert p * r <= p * p; }
      assert r * s <= 2.0 * (p * r) by { assert r * r <= p * r; }
      CancelPositive(f, p, s);
      CancelPositive(r, f, s);
    }
  }

  /** F1 of two scores in [0, 1] lies in [0, 1]. */
  lemma F1Bounded(precision: real, recall: real)
    requires 0.0 <= precision <= 1.0 && 0.0 <= recall <= 1.0
    ensures 0.0 <= F1(precision, recall) <= 1.0
  {
    F1Between(precision, recall);
  }

  /** The sum of a list of reals. */
  function Sum(xs: seq<real>): real {
    if |xs| == 0 then 0.0 else Sum(xs[..|xs| - 1]) + xs[|xs| - 1]
  }

  /** The arithmetic mean of a list of reals, or 0 for an empty list. */
  function Mean(xs: seq<real>): (m: real)
    ensures |xs| == 0 ==> m == 0.0
    ensures |xs| > 0 ==> m * (|xs| as real) == Sum(xs)
  {
    if |xs| == 0 then 0.0 else Sum(xs) / (|xs| as real)
  }

  /** A sum of values in [0, 1] lies between 0 and the number of values. */
  lemma {:induction false} SumBounded(xs: seq<real>)
    requires forall k :: 0 <= k < |xs| ==> 0.0 <= xs[k] <= 1.0
    ensures 0.0 <= Sum(xs) <= |xs| as real
  {
    if |xs| > 0 {
      SumBounded(xs[..|xs| - 1]);
    }
  }

  /** A mean of values in [0, 1] lies in [0, 1]. */
  lemma MeanBounded(xs: seq<real>)
    requires forall k :: 0 <= k < |xs| ==> 0.0 <= xs[k] <= 1.0
    ensures 0.0 <= Mean(xs) <= 1.0
  {
    SumBounded(xs);
  }
}
