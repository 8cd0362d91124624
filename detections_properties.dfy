/** What evaluate_detections guarantees, proved about its specification functions. */
module DetectionsProperties {
  import opened Wrappers
  import opened Geometry
  import opened Annotations
  import opened Matching
  import opened MatchingProperties
  import opened Metrics
  import opened Detections

  // ---------------------------------------------------------------------------
  // Which images are visited
  // ---------------------------------------------------------------------------

  /** `s[:n]` is always a prefix of `s`, all of it once n reaches the length. */
  lemma SliceIsPrefix<T>(s: seq<T>, n: int)
    ensures SliceTo(s, n) <= s
    ensures n >= |s| ==> SliceTo(s, n) == s
  {
  }

  /** Zipping prefixes gives a prefix of the zip. */
  lemma ZipOfPrefixes<A, B>(a: seq<A>, b: seq<B>, a': seq<A>, b': seq<B>)
    requires a' <= a && b' <= b
    ensures Zip(a', b') == Zip(a, b)[..|Zip(a', b')|]
  {
  }

  /**
   * The images visited are the first pairs of the zip of the two whole lists; with the
   * default N = -1 the last pair is left out, whichever list is longer.
   */
  lemma {:induction false} ImagesDefaultDropsLast(detections: seq<seq<PredBox>>, anns: seq<seq<TrueBox>>)
    requires Zip(detections, anns) != []
    ensures Images(detections, anns, -1) == Zip(detections, anns)[..|Zip(detections, anns)| - 1]
  {
    var d, a := SliceTo(detections, -1), SliceTo(anns, -1);
    assert d == detections[..|detections| - 1];
    assert a == anns[..|anns| - 1];
    ZipOfPrefixes(detections, anns, d, a);
  }

  /** With a nonnegative N, exactly the first N pairs of the zip are visited (or all of them). */
  lemma ImagesNonNegative(detections: seq<seq<PredBox>>, anns: seq<seq<TrueBox>>, n: int)
    requires n >= 0
    ensures Images(detections, anns, n) == Zip(detections, anns)[..MinLength(n, |Zip(detections, anns)|)]
  {
    SliceIsPrefix(detections, n);
    SliceIsPrefix(anns, n);
    ZipOfPrefixes(detections, anns, SliceTo(detections, n), SliceTo(anns, n));
  }

  // ---------------------------------------------------------------------------
  // Sums
  // ---------------------------------------------------------------------------

  /** Number of predicted boxes in the first n images. */
  function PredCount(pairs: seq<ImagePair>, n: nat): nat
    requires n <= |pairs|
  {
    if n == 0 then 0 else PredCount(pairs, n - 1) + |pairs[n - 1].0|
  }

  /** Number of true boxes in the first n images. */
  function TruthCount(pairs: seq<ImagePair>, n: nat): nat
    requires n <= |pairs|
  {
    if n == 0 then 0 else TruthCount(pairs, n - 1) + |pairs[n - 1].1|
  }

  /**
   * Over the images, every predicted box is a true or false positive with one IoU
   * entry, and every true box is a true positive's match or a false negative.
   */
  lemma {:induction false} TotalsCounts(cfg: Config, pairs: seq<ImagePair>, n: nat)
    requires n <= |pairs| && TotalsUpTo(cfg, pairs, n).Success?
    ensures var t := TotalsUpTo(cfg, pairs, n).value;
      && t.tp + t.fp == PredCount(pairs, n)
      && |t.ious| == PredCount(pairs, n)
      && t.tp + t.fn == TruthCount(pairs, n)
  {
    if n > 0 {
      assert TotalsUpTo(cfg, pairs, n - 1).Success?;
      TotalsCounts(cfg, pairs, n - 1);
      ImageCounts(cfg, pairs[n - 1].0, pairs[n - 1].1);
    }
  }

  /** Two results combined as evaluate_detections combines images: the first error wins. */
  function Join(x: Result<Totals, EvalError>, y: Result<Totals, EvalError>): Result<Totals, EvalError> {
    match x
    case Failure(e) => Failure(e)
    case Success(s) =>
      match y
      case Failure(e) => Failure(e)
      case Success(t) => Success(Plus(s, t))
  }

  lemma {:induction false} TotalsOfPrefix(cfg: Config, a: seq<ImagePair>, b: seq<ImagePair>, m: nat)
    requires m <= |a|
    ensures TotalsUpTo(cfg, a + b, m) == TotalsUpTo(cfg, a, m)
  {
    if m > 0 {
      TotalsOfPrefix(cfg, a, b, m - 1);
      assert (a + b)[m - 1] == a[m - 1];
    }
  }

  lemma JoinExtend(x: Result<Totals, EvalError>, y: Result<Totals, EvalError>, r: Result<ImageResult, EvalError>)
    ensures Join(x, Extend(y, r)) == Extend(Join(x, y), r)
  {
    if x.Success? && y.Success? && r.Success? {
      var s, t, v := x.value, y.value, r.value;
      assert s.ious + (t.ious + v.ious) == (s.ious + t.ious) + v.ious;
    }
  }

  /**
   * Images are evaluated independently: evaluating two batches one after the other gives
   * the sums of the two evaluations, the IoU lists one after the other.
   */
  lemma {:induction false} TotalsConcat(cfg: Config, a: seq<ImagePair>, b: seq<ImagePair>, k: nat)
    requires k <= |b|
    ensures TotalsUpTo(cfg, a + b, |a| + k) == Join(TotalsOf(cfg, a), TotalsUpTo(cfg, b, k))
  {
    if k == 0 {
      TotalsOfPrefix(cfg, a, b, |a|);
      if TotalsOf(cfg, a).Success? {
        assert TotalsOf(cfg, a).value.ious + [] == TotalsOf(cfg, a).value.ious;
      }
    } else {
      TotalsConcat(cfg, a, b, k - 1);
      assert (a + b)[|a| + k - 1] == b[k - 1];
      JoinExtend(TotalsOf(cfg, a), TotalsUpTo(cfg, b, k - 1), MatchBoxes(cfg, b[k - 1].0, b[k - 1].1));
    }
  }

  /**
   * The IoU entries of two batches evaluated in sequence add up to the IoU sums of the
   * two evaluations, so the mean IoU of the whole is their length-weighted mean.
   */
  lemma ConcatIouSum(cfg: Config, a: seq<ImagePair>, b: seq<ImagePair>)
    requires TotalsOf(cfg, a + b).Success?
    ensures TotalsOf(cfg, a).Success? && TotalsOf(cfg, b).Success?
    ensures var whole, x, y := TotalsOf(cfg, a + b).value, TotalsOf(cfg, a).value, TotalsOf(cfg, b).value;
      && |whole.ious| == |x.ious| + |y.ious|
      && Sum(whole.ious) == Sum(x.ious) + Sum(y.ious)
  {
    TotalsConcat(cfg, a, b, |b|);
    SumConcat(TotalsOf(cfg, a).value.ious, TotalsOf(cfg, b).value.ious);
  }

  /** With a positive threshold no image raises, so evaluate_detections always returns. */
  lemma {:induction false} PositiveThresholdTotals(cfg: Config, pairs: seq<ImagePair>, n: nat)
    requires n <= |pairs| && cfg.iouThreshold > 0.0
    ensures TotalsUpTo(cfg, pairs, n).Success?
  {
    if n > 0 {
      PositiveThresholdTotals(cfg, pairs, n - 1);
      ExcludedCountAsFalseNegatives(cfg, pairs[n - 1].0, pairs[n - 1].1);
    }
  }

  lemma PositiveThresholdEvaluates(cfg: Config, detections: seq<seq<PredBox>>, anns: seq<seq<TrueBox>>, n: int, confusion: bool)
    requires cfg.iouThreshold > 0.0
    ensures EvaluationOf(cfg, detections, anns, n, confusion).Success?
    ensures EvaluationOf(cfg, detections, anns, n, confusion).value.Confusion? <==> confusion
  {
    var pairs := Images(detections, anns, n);
    PositiveThresholdTotals(cfg, pairs, |pairs|);
  }

  // ---------------------------------------------------------------------------
  // Scores and IoU
  // ---------------------------------------------------------------------------

  /**
   * Precision and recall of evaluate_detections lie in [0, 1) and are zero together,
   * exactly when no true positive was found.
   */
  lemma SummaryInRange(cfg: Config, detections: seq<seq<PredBox>>, anns: seq<seq<TrueBox>>, n: int)
    requires EvaluationOf(cfg, detections, anns, n, false).Success?
    ensures var s := EvaluationOf(cfg, detections, anns, n, false).value;
      && s.Summary?
      && 0.0 <= s.precision < 1.0 && 0.0 <= s.recall < 1.0
      && (s.precision == 0.0 <==> s.recall == 0.0)
      && (s.precision == 0.0 <==> EvaluationOf(cfg, detections, anns, n, true).value.tp == 0)
  {
  }

  /** Every IoU entry of the concatenated list lies in [0, 1], whatever the boxes and scales. */
  lemma {:induction false} TotalsIousInUnitInterval(cfg: Config, pairs: seq<ImagePair>, n: nat)
    requires n <= |pairs|
    requires TotalsUpTo(cfg, pairs, n).Success?
    ensures var ious := TotalsUpTo(cfg, pairs, n).value.ious;
      forall k :: 0 <= k < |ious| ==> 0.0 <= ious[k] <= 1.0
  {
    if n > 0 {
      assert TotalsUpTo(cfg, pairs, n - 1).Success?;
      TotalsIousInUnitInterval(cfg, pairs, n - 1);
      var p := pairs[n - 1];
      IousInUnitInterval(cfg, p.0, p.1, |p.0|);
    }
  }

  /** The images visited come from the two input lists, pair by pair. */
  lemma ImagesFromInputs(detections: seq<seq<PredBox>>, anns: seq<seq<TrueBox>>, n: int)
    ensures var pairs := Images(detections, anns, n);
      forall i :: 0 <= i < |pairs| ==> i < |detections| && i < |anns| && pairs[i] == (detections[i], anns[i])
  {
    SliceIsPrefix(detections, n);
    SliceIsPrefix(anns, n);
  }

  /**
   * The mean IoU (sum(ious) / len(ious)) of evaluate_detections lies in [0, 1], whatever
   * the boxes and scales, and it raises ZeroDivisionError exactly when no predicted box
   * was visited.
   */
  lemma MeanIouInUnitInterval(cfg: Config, detections: seq<seq<PredBox>>, anns: seq<seq<TrueBox>>, n: int, confusion: bool)
    requires EvaluationOf(cfg, detections, anns, n, confusion).Success?
    ensures var pairs, ious := Images(detections, anns, n), EvaluationOf(cfg, detections, anns, n, confusion).value.ious;
      && (MeanIou(ious).Failure? <==> PredCount(pairs, |pairs|) == 0)
      && (MeanIou(ious).Success? ==> 0.0 <= MeanIou(ious).value <= 1.0)
  {
    var pairs := Images(detections, anns, n);
    TotalsIousInUnitInterval(cfg, pairs, |pairs|);
    TotalsCounts(cfg, pairs, |pairs|);
    var ious := TotalsOf(cfg, pairs).value.ious;
    if ious != [] {
      MeanWithinBounds(ious, 0.0, 1.0);
    }
  }
}
