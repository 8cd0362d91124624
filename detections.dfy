/**
 * Evaluation over many images (evaluate_detections): the per-image detections and
 * annotations are cut with `[:N]`, zipped, matched image by image, and the counts and
 * IoU lists summed up in order.
 */
module Detections {
  import opened Wrappers
  import opened Annotations
  import opened Matching
  import opened Metrics

  /** Python's `s[:n]`: a negative n counts from the end, and the cut never goes past either end. */
  function SliceTo<T>(s: seq<T>, n: int): seq<T> {
    var end := if n < 0 then n + |s| else n;
    if end <= 0 then [] else if end >= |s| then s else s[..end]
  }

  function MinLength(a: nat, b: nat): nat { if a <= b then a else b }

  /** Python's `zip`: pairs up the two lists, stopping at the shorter. */
  function Zip<A, B>(a: seq<A>, b: seq<B>): (r: seq<(A, B)>)
    ensures |r| == MinLength(|a|, |b|)
    ensures forall i :: 0 <= i < |r| ==> r[i].0 == a[i] && r[i].1 == b[i]
  {
    seq(MinLength(|a|, |b|), i requires 0 <= i < MinLength(|a|, |b|) => (a[i], b[i]))
  }

  /** One image: its predicted boxes and its true boxes. */
  type ImagePair = (seq<PredBox>, seq<TrueBox>)

  /** The running sums of evaluate_detections. */
  datatype Totals = Totals(tp: nat, fp: nat, fn: nat, ious: seq<real>)

  /** Two sets of sums added up: the counts added, the IoU lists one after the other. */
  function Plus(s: Totals, t: Totals): Totals {
    Totals(s.tp + t.tp, s.fp + t.fp, s.fn + t.fn, s.ious + t.ious)
  }

  /** One image's result added to the running sums (`tp += tp_`, ..., `ious.extend(ious_)`). */
  function AddImage(acc: Totals, r: ImageResult): Totals {
    Plus(acc, Totals(r.tp, r.fp, r.fn, r.ious))
  }

  /** One more image added to a running result; an error, earlier or from this image, ends the loop. */
  function Extend(acc: Result<Totals, EvalError>, image: Result<ImageResult, EvalError>): Result<Totals, EvalError> {
    match acc
    case Failure(e) => Failure(e)
    case Success(t) =>
      match image
      case Failure(e) => Failure(e)
      case Success(r) => Success(AddImage(t, r))
  }

  /** The sums after the first n images. */
  function TotalsUpTo(cfg: Config, pairs: seq<ImagePair>, n: nat): Result<Totals, EvalError>
    requires n <= |pairs|
  {
    if n == 0 then Success(Totals(0, 0, 0, []))
    else Extend(TotalsUpTo(cfg, pairs, n - 1), MatchBoxes(cfg, pairs[n - 1].0, pairs[n - 1].1))
  }

  function TotalsOf(cfg: Config, pairs: seq<ImagePair>): Result<Totals, EvalError> {
    TotalsUpTo(cfg, pairs, |pairs|)
  }

  /** The images evaluate_detections visits: both lists cut with `[:N]`, then zipped. */
  function Images(detections: seq<seq<PredBox>>, anns: seq<seq<TrueBox>>, n: int): seq<ImagePair> {
    Zip(SliceTo(detections, n), SliceTo(anns, n))
  }

  /** What evaluate_detections returns: the raw sums, or precision, recall and the IoU list. */
  datatype Evaluation =
    | Confusion(tp: nat, fp: nat, fn: nat, ious: seq<real>)
    | Summary(precision: real, recall: real, ious: seq<real>)

  function EvaluationOf(cfg: Config, detections: seq<seq<PredBox>>, anns: seq<seq<TrueBox>>, n: int, confusion: bool)
    : Result<Evaluation, EvalError>
  {
    match TotalsOf(cfg, Images(detections, anns, n))
    case Failure(e) => Failure(e)
    case Success(t) =>
      if confusion then Success(Confusion(t.tp, t.fp, t.fn, t.ious))
      else
        var s := PrecisionRecall(t.tp, t.fp, t.fn, Eps).value;
        Success(Summary(s.precision, s.recall, t.ious))
  }

  lemma TotalsUpToNext(cfg: Config, pairs: seq<ImagePair>, n: nat)
    requires n < |pairs| && TotalsUpTo(cfg, pairs, n).Success?
    ensures TotalsUpTo(cfg, pairs, n + 1)
         == Extend(TotalsUpTo(cfg, pairs, n), MatchBoxes(cfg, pairs[n].0, pairs[n].1))
  {
  }

  /** Once an image has raised, the whole evaluation has raised the same error. */
  lemma {:induction false} TotalsFailureSticks(cfg: Config, pairs: seq<ImagePair>, n: nat)
    requires n <= |pairs| && TotalsUpTo(cfg, pairs, n).Failure?
    ensures TotalsOf(cfg, pairs) == TotalsUpTo(cfg, pairs, n)
    decreases |pairs| - n
  {
    if n < |pairs| {
      TotalsFailureSticks(cfg, pairs, n + 1);
    }
  }

  /**
   * One iteration of the loop of evaluate_detections: evaluate_bboxes on the image,
   * with its true boxes handed over as a list of their own, then the sums.
   */
  method EvaluateImage(cfg: Config, pair: ImagePair, tp: nat, fp: nat, fn: nat, ious: seq<real>)
    returns (r: Result<Totals, EvalError>)
    ensures r == Extend(Success(Totals(tp, fp, fn, ious)), MatchBoxes(cfg, pair.0, pair.1))
  {
    var trueBoxes := new TrueBoxList(pair.1);
    var image := EvaluateBboxes(pair.0, trueBoxes, cfg);
    if image.Failure? {
      return Failure(image.error);
    }
    r := Success(Totals(tp + image.value.tp, fp + image.value.fp, fn + image.value.fn, ious + image.value.ious));
  }

  /** evaluate_detections: the sums over the images visited, or precision and recall from them. */
  method EvaluateDetections(detections: seq<seq<PredBox>>, anns: seq<seq<TrueBox>>, cfg: Config, n: int, returnConfusion: bool)
    returns (r: Result<Evaluation, EvalError>)
    ensures r == EvaluationOf(cfg, detections, anns, n, returnConfusion)
  {
    var pairs := Zip(SliceTo(detections, n), SliceTo(anns, n));
    var tp: nat, fp: nat, fn: nat := 0, 0, 0;
    var ious: seq<real> := [];
    for i := 0 to |pairs|
      invariant TotalsUpTo(cfg, pairs, i) == Success(Totals(tp, fp, fn, ious))
    {
      TotalsUpToNext(cfg, pairs, i);
      var step := EvaluateImage(cfg, pairs[i], tp, fp, fn, ious);
      if step.Failure? {
        TotalsFailureSticks(cfg, pairs, i + 1);
        return Failure(step.error);
      }
      tp, fp, fn, ious := step.value.tp, step.value.fp, step.value.fn, step.value.ious;
    }
    if returnConfusion {
      return Success(Confusion(tp, fp, fn, ious));
    }
    var scores := PrecisionRecall(tp, fp, fn, Eps);
    r := Success(Summary(scores.value.precision, scores.value.recall, ious));
  }
}
