/**
 * Per-image greedy one-to-one matching of predicted boxes against ground truth
 * (evaluate_bboxes). The specification functions describe the two loops step by
 * step; the method EvaluateBboxes runs them and is proved equal to them.
 */
module Matching {
  import opened Wrappers
  import opened Geometry
  import opened Annotations

  /** A detector output row (x1, y1, x2, y2, confidence, class). The class comes as a number and is cut to an int. */
  datatype PredBox = PredBox(box: Box, confidence: real, classValue: real)

  /**
   * The keyword options of evaluate_bboxes. An absent `id_map` is the empty map,
   * an absent `one_idx` is None; `many_idx` and `exclude_ids` are only tested for membership.
   */
  datatype Config = Config(
    iouThreshold: real,
    idMap: map<int, int>,
    oneIdx: Option<int>,
    manyIdx: set<int>,
    excludeIds: set<int>,
    xScale: real,
    yScale: real)

  /** The defaults of evaluate_bboxes. */
  function DefaultConfig(): Config {
    Config(0.5, map[], None, {}, {}, 1.0, 1.0)
  }

  /** Python's int() on a number: truncation toward zero. */
  function TruncToInt(x: real): (n: int)
    ensures 0.0 <= x ==> n as real <= x < n as real + 1.0
    ensures x < 0.0 ==> n as real - 1.0 < x <= n as real
  {
    if x >= 0.0 then x.Floor else -((-x).Floor)
  }

  /** One true-box coordinate rescaled and truncated: int(coord * scale). */
  function ScaleCoord(coord: real, scale: real): int {
    TruncToInt(coord * scale)
  }

  /** The true box's coordinates rescaled: even positions (x) by xScale, odd positions (y) by yScale. */
  function ScaleBox(b: Box, xScale: real, yScale: real): Box {
    Box(ScaleCoord(b.x1, xScale) as real, ScaleCoord(b.y1, yScale) as real,
        ScaleCoord(b.x2, xScale) as real, ScaleCoord(b.y2, yScale) as real)
  }

  /** Remapping through id_map; ids absent from the map pass through. */
  function RemapClass(idMap: map<int, int>, cls: int): int {
    if cls in idMap then idMap[cls] else cls
  }

  /** The class a predicted box starts its scan with. */
  function PredClass(cfg: Config, p: PredBox): int {
    RemapClass(cfg.idMap, TruncToInt(p.classValue))
  }

  /** The coarse/fine rule: the coarse class `one_idx` takes the class of a true box listed in `many_idx`. */
  function Coerce(cfg: Config, cls: int, trueClass: int): int {
    if cfg.oneIdx == Some(cls) && trueClass in cfg.manyIdx then trueClass else cls
  }

  /** State of the inner scan: the (possibly coerced) predicted class, best IoU so far, its index or -1. */
  datatype ScanState = ScanState(predClass: int, bestIou: real, bestIndex: int)

  /** One iteration of the inner loop, on the true box `t` at index `i`. */
  function ScanStep(cfg: Config, coords: Box, st: ScanState, t: TrueBox, i: int): ScanState {
    var cls := Coerce(cfg, st.predClass, t.classId);
    if t.classId in cfg.excludeIds then
      st.(predClass := cls)
    else
      var iou := Iou(coords, ScaleBox(t.box, cfg.xScale, cfg.yScale));
      if iou > st.bestIou && cls == t.classId then ScanState(cls, iou, i)
      else st.(predClass := cls)
  }

  /** The inner scan after the first n true boxes. */
  function ScanUpTo(cfg: Config, coords: Box, cls0: int, truth: seq<TrueBox>, n: nat): ScanState
    requires n <= |truth|
  {
    if n == 0 then ScanState(cls0, 0.0, -1)
    else ScanStep(cfg, coords, ScanUpTo(cfg, coords, cls0, truth, n - 1), truth[n - 1], n - 1)
  }

  /** The whole inner scan of one predicted box over the remaining true boxes. */
  function Scan(cfg: Config, p: PredBox, truth: seq<TrueBox>): ScanState {
    ScanUpTo(cfg, p.box, PredClass(cfg, p), truth, |truth|)
  }

  /** Python's `del s[idx]`: negative indices count from the end; out of range is an IndexError. */
  function DeleteAt<T>(s: seq<T>, idx: int): (r: Option<seq<T>>)
    ensures r.Some? <==> -|s| <= idx < |s|
    ensures r.Some? ==> |r.value| == |s| - 1
    ensures r.Some? ==>
      var k := if idx < 0 then idx + |s| else idx;
      && (forall j :: 0 <= j < k ==> r.value[j] == s[j])
      && (forall j :: k <= j < |r.value| ==> r.value[j] == s[j + 1])
  {
    var k := if idx < 0 then idx + |s| else idx;
    if 0 <= k < |s| then Some(s[..k] + s[k + 1..]) else None
  }

  /** State of the outer loop: counters, IoU entries, and the true boxes not yet claimed. */
  datatype MatchState = MatchState(tp: nat, fp: nat, ious: seq<real>, remaining: seq<TrueBox>)

  /** One iteration of the outer loop, on predicted box `p`. */
  function MatchStep(cfg: Config, st: MatchState, p: PredBox): Result<MatchState, EvalError> {
    var sc := Scan(cfg, p, st.remaining);
    if sc.bestIou >= cfg.iouThreshold then
      match DeleteAt(st.remaining, sc.bestIndex)
      case None => Failure(IndexError)
      case Some(rest) => Success(MatchState(st.tp + 1, st.fp, st.ious + [sc.bestIou], rest))
    else
      Success(MatchState(st.tp, st.fp + 1, st.ious + [sc.bestIou], st.remaining))
  }

  /** The outer loop after the first n predicted boxes; the first failing `del` ends it. */
  function MatchUpTo(cfg: Config, preds: seq<PredBox>, truth: seq<TrueBox>, n: nat): Result<MatchState, EvalError>
    requires n <= |preds|
  {
    if n == 0 then Success(MatchState(0, 0, [], truth))
    else
      match MatchUpTo(cfg, preds, truth, n - 1)
      case Failure(e) => Failure(e)
      case Success(st) => MatchStep(cfg, st, preds[n - 1])
  }

  lemma MatchUpToNext(cfg: Config, preds: seq<PredBox>, truth: seq<TrueBox>, n: nat)
    requires n < |preds| && MatchUpTo(cfg, preds, truth, n).Success?
    ensures MatchUpTo(cfg, preds, truth, n + 1) == MatchStep(cfg, MatchUpTo(cfg, preds, truth, n).value, preds[n])
  {
  }

  /** Once a `del` has failed, the outer loop stays failed. */
  lemma {:induction false} MatchFailureSticks(cfg: Config, preds: seq<PredBox>, truth: seq<TrueBox>, n: nat)
    requires 0 < n <= |preds|
    requires MatchUpTo(cfg, preds, truth, n).Failure?
    ensures MatchUpTo(cfg, preds, truth, |preds|) == MatchUpTo(cfg, preds, truth, n)
    decreases |preds| - n
  {
    if n < |preds| {
      MatchFailureSticks(cfg, preds, truth, n + 1);
    }
  }

  /** What evaluate_bboxes returns, together with the true boxes left in the caller's list. */
  datatype ImageResult = ImageResult(tp: nat, fp: nat, fn: nat, ious: seq<real>, remaining: seq<TrueBox>)

  /** The result of evaluate_bboxes: fn is the number of true boxes still in the list. */
  function MatchBoxes(cfg: Config, preds: seq<PredBox>, truth: seq<TrueBox>): Result<ImageResult, EvalError> {
    match MatchUpTo(cfg, preds, truth, |preds|)
    case Failure(e) => Failure(e)
    case Success(st) => Success(ImageResult(st.tp, st.fp, |st.remaining|, st.ious, st.remaining))
  }

  /**
   * The inner loop of evaluate_bboxes: scans the remaining true boxes for the
   * class-compatible one of strictly greatest IoU, coercing the predicted class on the way.
   */
  method FindBestMatch(cfg: Config, coords: Box, startClass: int, remaining: seq<TrueBox>)
    returns (predClass: int, bestIou: real, bestIndex: int)
    ensures ScanState(predClass, bestIou, bestIndex) == ScanUpTo(cfg, coords, startClass, remaining, |remaining|)
    ensures -1 <= bestIndex < |remaining| && 0.0 <= bestIou
    ensures bestIndex == -1 <==> bestIou == 0.0
  {
    predClass := startClass;
    bestIou := 0.0;
    bestIndex := -1;
    for i := 0 to |remaining|
      invariant ScanUpTo(cfg, coords, startClass, remaining, i) == ScanState(predClass, bestIou, bestIndex)
      invariant -1 <= bestIndex < i && 0.0 <= bestIou
      invariant bestIndex == -1 <==> bestIou == 0.0
    {
      var t := remaining[i];
      var trueCoords := ScaleBox(t.box, cfg.xScale, cfg.yScale);
      if cfg.oneIdx == Some(predClass) && t.classId in cfg.manyIdx {
        predClass := t.classId;
      }
      if t.classId in cfg.excludeIds {
        continue;
      }
      var iou := Iou(coords, trueCoords);
      if iou > bestIou && predClass == t.classId {
        bestIou := iou;
        bestIndex := i;
      }
    }
  }

  /** The caller's list of true boxes, which evaluate_bboxes shrinks in place. */
  class TrueBoxList {
    var boxes: seq<TrueBox>

    constructor(boxes: seq<TrueBox>)
      ensures this.boxes == boxes
    {
      this.boxes := boxes;
    }

    /** `del boxes[idx]`: false, with the list unchanged, when Python raises IndexError. */
    method Delete(idx: int) returns (ok: bool)
      modifies this
      ensures ok <==> DeleteAt(old(boxes), idx).Some?
      ensures ok ==> boxes == DeleteAt(old(boxes), idx).value
      ensures !ok ==> boxes == old(boxes)
    {
      var k := if idx < 0 then idx + |boxes| else idx;
      if 0 <= k < |boxes| {
        boxes := boxes[..k] + boxes[k + 1..];
        ok := true;
      } else {
        ok := false;
      }
    }
  }

  /**
   * The part of one outer iteration that precedes the threshold test: the predicted
   * class through id_map, then the inner scan over the boxes still in the list.
   */
  method ScanPrediction(cfg: Config, p: PredBox, remaining: seq<TrueBox>) returns (bestIou: real, bestIndex: int)
    ensures Scan(cfg, p, remaining).bestIou == bestIou && Scan(cfg, p, remaining).bestIndex == bestIndex
    ensures -1 <= bestIndex < |remaining|
  {
    var coords := p.box;
    var predClass := TruncToInt(p.classValue);
    if predClass in cfg.idMap {
      predClass := cfg.idMap[predClass];
    }
    predClass, bestIou, bestIndex := FindBestMatch(cfg, coords, predClass, remaining);
  }

  /**
   * One iteration of the outer loop of evaluate_bboxes on predicted box `p`: a true
   * positive deletes its match from the caller's list, a false positive leaves the list
   * alone; a `del` can only raise on an empty list.
   */
  method ProcessPrediction(cfg: Config, p: PredBox, trueBoxes: TrueBoxList, tp: nat, fp: nat, ious: seq<real>)
    returns (r: Result<MatchState, EvalError>)
    modifies trueBoxes
    ensures r == MatchStep(cfg, MatchState(tp, fp, ious, old(trueBoxes.boxes)), p)
    ensures r.Success? ==> trueBoxes.boxes == r.value.remaining
    ensures r.Failure? ==> trueBoxes.boxes == []
  {
    var bestIou, bestIndex := ScanPrediction(cfg, p, trueBoxes.boxes);
    if bestIou >= cfg.iouThreshold {
      var ok := trueBoxes.Delete(bestIndex);
      if !ok {
        return Failure(IndexError);
      }
      r := Success(MatchState(tp + 1, fp, ious + [bestIou], trueBoxes.boxes));
    } else {
      r := Success(MatchState(tp, fp + 1, ious + [bestIou], trueBoxes.boxes));
    }
  }

  /**
   * evaluate_bboxes: each predicted box in turn is a true positive, whose match is
   * deleted from the caller's list, or a false positive. Whatever stays in the list is
   * the false negatives; a `del` that raises leaves the list empty.
   */
  method EvaluateBboxes(preds: seq<PredBox>, trueBoxes: TrueBoxList, cfg: Config)
    returns (r: Result<ImageResult, EvalError>)
    modifies trueBoxes
    ensures r == MatchBoxes(cfg, preds, old(trueBoxes.boxes))
    ensures r.Success? ==> trueBoxes.boxes == r.value.remaining
    ensures r.Failure? ==> trueBoxes.boxes == []
  {
    ghost var truth := trueBoxes.boxes;
    var tp, fp := 0, 0;
    var ious: seq<real> := [];
    for k := 0 to |preds|
      invariant MatchUpTo(cfg, preds, truth, k) == Success(MatchState(tp, fp, ious, trueBoxes.boxes))
    {
      MatchUpToNext(cfg, preds, truth, k);
      var step := ProcessPrediction(cfg, preds[k], trueBoxes, tp, fp, ious);
      if step.Failure? {
        MatchFailureSticks(cfg, preds, truth, k + 1);
        return Failure(step.error);
      }
      tp, fp, ious := step.value.tp, step.value.fp, step.value.ious;
    }
    r := Success(ImageResult(tp, fp, |trueBoxes.boxes|, ious, trueBoxes.boxes));
  }
}
