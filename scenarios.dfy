/**
 * Single-prediction cases of evaluate_bboxes, including the behaviours that
 * follow from the code as written: the sticky coarse/fine coercion and `del`
 * at index -1 when the threshold is not positive.
 */
module Scenarios {
  import opened Wrappers
  import opened Geometry
  import opened Annotations
  import opened Matching
  import opened MatchingProperties

  /** With a single predicted box, evaluate_bboxes is one step of its outer loop. */
  lemma OnePrediction(cfg: Config, p: PredBox, truth: seq<TrueBox>, st: MatchState)
    requires MatchStep(cfg, MatchState(0, 0, [], truth), p) == Success(st)
    ensures MatchBoxes(cfg, [p], truth) == Success(ImageResult(st.tp, st.fp, |st.remaining|, st.ious, st.remaining))
  {
    assert MatchUpTo(cfg, [p], truth, 0) == Success(MatchState(0, 0, [], truth));
  }

  /** A first predicted box whose scan stays below the threshold is a false positive. */
  lemma MissStep(cfg: Config, p: PredBox, truth: seq<TrueBox>, sc: ScanState)
    requires Scan(cfg, p, truth) == sc && sc.bestIou < cfg.iouThreshold
    ensures MatchStep(cfg, MatchState(0, 0, [], truth), p) == Success(MatchState(0, 1, [sc.bestIou], truth))
  {
    assert [] + [sc.bestIou] == [sc.bestIou];
  }

  /** A first predicted box whose scan reaches the threshold deletes the true box at its best index. */
  lemma ClaimStep(cfg: Config, p: PredBox, truth: seq<TrueBox>, sc: ScanState, rest: seq<TrueBox>)
    requires Scan(cfg, p, truth) == sc && sc.bestIou >= cfg.iouThreshold
    requires DeleteAt(truth, sc.bestIndex) == Some(rest)
    ensures MatchStep(cfg, MatchState(0, 0, [], truth), p) == Success(MatchState(1, 0, [sc.bestIou], rest))
  {
    assert [] + [sc.bestIou] == [sc.bestIou];
  }

  /** `del s[-1]` drops the last element. */
  lemma DeleteLast<T>(s: seq<T>)
    requires s != []
    ensures DeleteAt(s, -1) == Some(s[..|s| - 1])
  {
    assert s[..|s| - 1] + s[|s|..] == s[..|s| - 1];
  }

  /**
   * A predicted box that covers its only true box exactly (after rescaling), and whose
   * class is, or is coerced to, the true class, is a true positive with IoU 1 and
   * leaves no false negative.
   */
  lemma ExactMatch(cfg: Config, p: PredBox, t: TrueBox)
    requires p.box.x1 < p.box.x2 && p.box.y1 < p.box.y2
    requires ScaleBox(t.box, cfg.xScale, cfg.yScale) == p.box
    requires t.classId !in cfg.excludeIds && Coerce(cfg, PredClass(cfg, p), t.classId) == t.classId
    requires cfg.iouThreshold <= 1.0
    ensures MatchBoxes(cfg, [p], [t]) == Success(ImageResult(1, 0, 0, [1.0], []))
  {
    IouSelf(p.box);
    assert ScanUpTo(cfg, p.box, PredClass(cfg, p), [t], 0) == ScanState(PredClass(cfg, p), 0.0, -1);
    assert Scan(cfg, p, [t]) == ScanState(t.classId, 1.0, 0);
    assert DeleteAt([t], 0) == Some([]);
    ClaimStep(cfg, p, [t], ScanState(t.classId, 1.0, 0), []);
    OnePrediction(cfg, p, [t], MatchState(1, 0, [1.0], []));
  }

  /**
   * The coercion sticks for the rest of the scan. The first true box `a` has a fine class
   * listed in many_idx and excluded: it is skipped, but it turns the coarse predicted
   * class into its own. The second box `b`, of another fine class, is then no longer a
   * candidate, whatever its overlap, although on its own it would have been coerced to;
   * when it overlaps the prediction enough, on its own it would have been a true positive.
   */
  lemma StickyCoercion(cfg: Config, p: PredBox, a: TrueBox, b: TrueBox)
    requires cfg.oneIdx == Some(PredClass(cfg, p)) && cfg.iouThreshold > 0.0
    requires a.classId in cfg.manyIdx && a.classId in cfg.excludeIds && a.classId != PredClass(cfg, p)
    requires b.classId in cfg.manyIdx && b.classId !in cfg.excludeIds && b.classId != a.classId
    ensures Coerce(cfg, PredClass(cfg, p), b.classId) == b.classId
    ensures MatchBoxes(cfg, [p], [a, b]) == Success(ImageResult(0, 1, 2, [0.0], [a, b]))
    ensures Iou(p.box, ScaleBox(b.box, cfg.xScale, cfg.yScale)) >= cfg.iouThreshold ==>
      MatchBoxes(cfg, [p], [b]) == Success(ImageResult(1, 0, 0, [Iou(p.box, ScaleBox(b.box, cfg.xScale, cfg.yScale))], []))
  {
    var cls := PredClass(cfg, p);
    var truth := [a, b];
    assert ScanUpTo(cfg, p.box, cls, truth, 0) == ScanState(cls, 0.0, -1);
    assert ScanUpTo(cfg, p.box, cls, truth, 1) == ScanState(a.classId, 0.0, -1);
    assert ScanUpTo(cfg, p.box, cls, truth, 2) == ScanState(a.classId, 0.0, -1);
    MissStep(cfg, p, truth, ScanState(a.classId, 0.0, -1));
    OnePrediction(cfg, p, truth, MatchState(0, 1, [0.0], truth));
    var iou := Iou(p.box, ScaleBox(b.box, cfg.xScale, cfg.yScale));
    if iou >= cfg.iouThreshold {
      assert ScanUpTo(cfg, p.box, cls, [b], 0) == ScanState(cls, 0.0, -1);
      assert ScanUpTo(cfg, p.box, cls, [b], 1) == ScanState(b.classId, iou, 0);
      assert DeleteAt([b], 0) == Some([]);
      ClaimStep(cfg, p, [b], ScanState(b.classId, iou, 0), []);
      OnePrediction(cfg, p, [b], MatchState(1, 0, [iou], []));
    }
  }

  /**
   * With a threshold that is not positive, a predicted box with no candidate still counts
   * as a true positive with IoU 0, and `del true_boxes[-1]` removes the last true box
   * whatever its class, or raises IndexError when the list is empty.
   */
  lemma NonPositiveThresholdDeletesLast(cfg: Config, p: PredBox, truth: seq<TrueBox>)
    requires cfg.iouThreshold <= 0.0
    requires forall j :: 0 <= j < |truth| ==> truth[j].classId != PredClass(cfg, p)
    requires forall j :: 0 <= j < |truth| ==> !(cfg.oneIdx == Some(PredClass(cfg, p)) && truth[j].classId in cfg.manyIdx)
    ensures truth == [] ==> MatchBoxes(cfg, [p], truth) == Failure(IndexError)
    ensures truth != [] ==>
      MatchBoxes(cfg, [p], truth) == Success(ImageResult(1, 0, |truth| - 1, [0.0], truth[..|truth| - 1]))
  {
    var cls := PredClass(cfg, p);
    ScanNoCandidate(cfg, p.box, cls, truth, |truth|);
    assert MatchUpTo(cfg, [p], truth, 0) == Success(MatchState(0, 0, [], truth));
    if truth != [] {
      DeleteLast(truth);
      ClaimStep(cfg, p, truth, ScanState(cls, 0.0, -1), truth[..|truth| - 1]);
      OnePrediction(cfg, p, truth, MatchState(1, 0, [0.0], truth[..|truth| - 1]));
    }
  }

  /** The box used in the concrete cases below. */
  const Square: Box := Box(0.0, 0.0, 10.0, 10.0)

  /** Same box, same class, default options: one true positive with IoU 1. */
  lemma ScenarioSameClass()
    ensures MatchBoxes(DefaultConfig(), [PredBox(Square, 0.9, 1.0)], [TrueBox(Square, 1)])
         == Success(ImageResult(1, 0, 0, [1.0], []))
  {
    assert TruncToInt(1.0) == 1;
    ScaleUnit(Square);
    ExactMatch(DefaultConfig(), PredBox(Square, 0.9, 1.0), TrueBox(Square, 1));
  }

  /** one_idx = 2, many_idx = {1}: the coarse class 2 is coerced to 1 and matches. */
  lemma ScenarioCoarseClass()
    ensures MatchBoxes(DefaultConfig().(oneIdx := Some(2), manyIdx := {1}),
                       [PredBox(Square, 0.9, 2.0)], [TrueBox(Square, 1)])
         == Success(ImageResult(1, 0, 0, [1.0], []))
  {
    assert TruncToInt(2.0) == 2;
    ScaleUnit(Square);
    ExactMatch(DefaultConfig().(oneIdx := Some(2), manyIdx := {1}), PredBox(Square, 0.9, 2.0), TrueBox(Square, 1));
  }

  /** Scales 2.0: the true box (0, 0, 5, 5) is compared as (0, 0, 10, 10) and matches the square. */
  lemma ScenarioRescaled()
    ensures MatchBoxes(DefaultConfig().(xScale := 2.0, yScale := 2.0),
                       [PredBox(Square, 0.9, 1.0)], [TrueBox(Box(0.0, 0.0, 5.0, 5.0), 1)])
         == Success(ImageResult(1, 0, 0, [1.0], []))
  {
    assert ScaleCoord(0.0, 2.0) == 0 && ScaleCoord(5.0, 2.0) == 10;
    assert TruncToInt(1.0) == 1;
    ExactMatch(DefaultConfig().(xScale := 2.0, yScale := 2.0),
               PredBox(Square, 0.9, 1.0), TrueBox(Box(0.0, 0.0, 5.0, 5.0), 1));
  }

  /** Same box, different class and no id_map: a false positive with IoU 0 and a false negative. */
  lemma ScenarioOtherClass()
    ensures MatchBoxes(DefaultConfig(), [PredBox(Square, 0.9, 2.0)], [TrueBox(Square, 1)])
         == Success(ImageResult(0, 1, 1, [0.0], [TrueBox(Square, 1)]))
  {
    assert TruncToInt(2.0) == 2;
    NoSharedClassNoMatch(DefaultConfig(), [PredBox(Square, 0.9, 2.0)], [TrueBox(Square, 1)]);
    assert Zeros(1) == [0.0];
  }
}
