/** Precision and recall from the confusion counts (calculate_precision_recall), and the mean IoU. */
module Metrics {
  import opened Wrappers
  import opened Geometry

  /** The default `eps` of calculate_precision_recall, 1e-6. */
  const Eps: real := 0.000001

  datatype Scores = Scores(precision: real, recall: real)

  /**
   * tp / (tp + fp + eps) and tp / (tp + fn + eps). A zero denominator raises
   * ZeroDivisionError; with a positive eps that cannot happen and both values lie in
   * [0, 1), each zero exactly when there is no true positive.
   */
  function PrecisionRecall(tp: nat, fp: nat, fn: nat, eps: real): (r: Result<Scores, EvalError>)
    ensures r.Failure? <==> tp as real + fp as real + eps == 0.0 || tp as real + fn as real + eps == 0.0
    ensures r.Failure? ==> r.error == ZeroDivisionError
    ensures eps > 0.0 ==>
              && r.Success?
              && 0.0 <= r.value.precision < 1.0 && 0.0 <= r.value.recall < 1.0
              && (r.value.precision == 0.0 <==> tp == 0)
              && (r.value.recall == 0.0 <==> tp == 0)
  {
    var pDen, rDen := tp as real + fp as real + eps, tp as real + fn as real + eps;
    if pDen == 0.0 || rDen == 0.0 then
      Failure(ZeroDivisionError)
    else
      if eps > 0.0 then
        RatioBelowOne(tp as real, pDen);
        RatioBelowOne(tp as real, rDen);
        Success(Scores(tp as real / pDen, tp as real / rDen))
      else
        Success(Scores(tp as real / pDen, tp as real / rDen))
  }

  /** 0 <= x / d < 1 when 0 <= x < d, and x / d is zero exactly when x is. */
  lemma RatioBelowOne(x: real, d: real)
    requires 0.0 <= x < d
    ensures 0.0 <= x / d < 1.0
    ensures x / d == 0.0 <==> x == 0.0
  {
    DivNonneg(x, d);
    DivAtMostOne(x, d);
    var q := x / d;
    assert q * d == x;
    assert q != 1.0 by {
      assert 1.0 * d == d;
    }
  }

  /**
   * The eps in the denominator only pulls precision below the exact ratio
   * tp / (tp + fp), and by no more than eps / (tp + fp).
   */
  lemma PrecisionNearExactRatio(tp: nat, fp: nat, eps: real)
    requires eps > 0.0 && tp + fp > 0
    ensures var a, p := (tp + fp) as real, PrecisionRecall(tp, fp, 0, eps).value.precision;
      p <= tp as real / a && tp as real / a - p <= eps / a
  {
    var t, a := tp as real, (tp + fp) as real;
    var p := t / (a + eps);
    assert p == PrecisionRecall(tp, fp, 0, eps).value.precision;
    assert p * (a + eps) == t;
    var q := t / a;
    assert q * a == t;
    // q - p == q * eps / (a + eps), and q <= 1
    assert (q - p) * (a + eps) == q * eps by {
      assert q * (a + eps) == q * a + q * eps;
    }
    assert q <= 1.0 by {
      assert t <= a;
    }
    QuotientBound(q - p, a + eps, q * eps, eps, a);
  }

  /** If y * d == z with d > a > 0 and 0 <= z <= e, then 0 <= y <= e / a. */
  lemma QuotientBound(y: real, d: real, z: real, e: real, a: real)
    requires y * d == z && d > a > 0.0 && 0.0 <= z <= e
    ensures 0.0 <= y <= e / a
  {
    assert y == z / d;
    assert z / d <= z / a;
    assert z / a <= e / a;
  }

  function Sum(xs: seq<real>): real {
    if xs == [] then 0.0 else Sum(xs[..|xs| - 1]) + xs[|xs| - 1]
  }

  /** sum(ious) / len(ious); an empty list raises ZeroDivisionError. */
  function MeanIou(xs: seq<real>): (r: Result<real, EvalError>)
    ensures r.Failure? <==> xs == []
    ensures r.Failure? ==> r.error == ZeroDivisionError
  {
    if xs == [] then Failure(ZeroDivisionError) else Success(Sum(xs) / |xs| as real)
  }

  lemma {:induction false} SumConcat(a: seq<real>, b: seq<real>)
    ensures Sum(a + b) == Sum(a) + Sum(b)
    decreases |b|
  {
    if b == [] {
      assert a + b == a;
    } else {
      assert (a + b)[..|a + b| - 1] == a + b[..|b| - 1];
      SumConcat(a, b[..|b| - 1]);
    }
  }

  lemma {:induction false} SumBounds(xs: seq<real>, lo: real, hi: real)
    requires forall i :: 0 <= i < |xs| ==> lo <= xs[i] <= hi
    ensures |xs| as real * lo <= Sum(xs) <= |xs| as real * hi
  {
    if xs != [] {
      SumBounds(xs[..|xs| - 1], lo, hi);
    }
  }

  /** The mean of a non-empty list lies between any bounds of its entries. */
  lemma MeanWithinBounds(xs: seq<real>, lo: real, hi: real)
    requires xs != []
    requires forall i :: 0 <= i < |xs| ==> lo <= xs[i] <= hi
    ensures lo <= MeanIou(xs).value <= hi
  {
    SumBounds(xs, lo, hi);
    var n := |xs| as real;
    var m := Sum(xs) / n;
    assert m * n == Sum(xs);
    if m < lo {
      assert m * n < lo * n;
    }
    if m > hi {
      assert m * n > hi * n;
    }
  }
}
