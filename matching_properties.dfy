/** What the greedy matching of evaluate_bboxes guarantees, proved about its specification functions. */
module MatchingProperties {
  import opened Wrappers
  import opened Geometry
  import opened Annotations
  import opened Sequences
  import opened Matching

  // ---------------------------------------------------------------------------
  // The inner scan
  // ---------------------------------------------------------------------------

  /** The predicted class after the coarse/fine coercions of the true boxes in `s`, applied in order. */
  function ClassAfter(cfg: Config, cls0: int, s: seq<TrueBox>): int
    decreases |s|
  {
    if s == [] then cls0 else Coerce(cfg, ClassAfter(cfg, cls0, s[..|s| - 1]), s[|s| - 1].classId)
  }

  /** IoU of the predicted coordinates with the rescaled true box at index j. */
  function IouAt(cfg: Config, coords: Box, s: seq<TrueBox>, j: int): real
    requires 0 <= j < |s|
  {
    Iou(coords, ScaleBox(s[j].box, cfg.xScale, cfg.yScale))
  }

  /**
   * The true box at index j is a candidate: its class is not excluded and equals the
   * predicted class as it stands when that box is compared (after the coercion it triggers).
   */
  predicate Eligible(cfg: Config, cls0: int, s: seq<TrueBox>, j: int)
    requires 0 <= j < |s|
  {
    s[j].classId !in cfg.excludeIds && ClassAfter(cfg, cls0, s[..j + 1]) == s[j].classId
  }

  /**
   * What the scan over the first n true boxes has found: the coerced class, and the
   * eligible box of strictly greatest positive IoU, the first one on ties; with no
   * eligible box of positive IoU, index -1 and IoU 0.
   */
  predicate ScanFound(cfg: Config, coords: Box, cls0: int, s: seq<TrueBox>, n: nat, st: ScanState)
    requires n <= |s|
  {
    && st.predClass == ClassAfter(cfg, cls0, s[..n])
    && -1 <= st.bestIndex < n
    && (st.bestIndex == -1 ==>
          st.bestIou == 0.0 && forall j :: 0 <= j < n && Eligible(cfg, cls0, s, j) ==> IouAt(cfg, coords, s, j) == 0.0)
    && (st.bestIndex >= 0 ==>
          && Eligible(cfg, cls0, s, st.bestIndex)
          && st.bestIou == IouAt(cfg, coords, s, st.bestIndex) > 0.0
          && (forall j :: 0 <= j < n && Eligible(cfg, cls0, s, j) ==> IouAt(cfg, coords, s, j) <= st.bestIou)
          && (forall j :: 0 <= j < st.bestIndex && Eligible(cfg, cls0, s, j) ==> IouAt(cfg, coords, s, j) < st.bestIou))
  }

  /** The inner scan finds what ScanFound describes, after any number of true boxes. */
  lemma {:induction false} ScanCharacterization(cfg: Config, coords: Box, cls0: int, s: seq<TrueBox>, n: nat)
    requires n <= |s|
    ensures ScanFound(cfg, coords, cls0, s, n, ScanUpTo(cfg, coords, cls0, s, n))
  {
    if n == 0 {
      assert s[..0] == [];
    } else {
      ScanCharacterization(cfg, coords, cls0, s, n - 1);
      ScanStepFinds(cfg, coords, cls0, s, n, ScanUpTo(cfg, coords, cls0, s, n - 1));
    }
  }

  lemma ScanStepFinds(cfg: Config, coords: Box, cls0: int, s: seq<TrueBox>, n: nat, prev: ScanState)
    requires 0 < n <= |s| && ScanFound(cfg, coords, cls0, s, n - 1, prev)
    ensures ScanFound(cfg, coords, cls0, s, n, ScanStep(cfg, coords, prev, s[n - 1], n - 1))
  {
    var t := s[n - 1];
    assert s[..n][..n - 1] == s[..n - 1];
    var cls := Coerce(cfg, prev.predClass, t.classId);
    assert ClassAfter(cfg, cls0, s[..n]) == cls;
    assert Eligible(cfg, cls0, s, n - 1) <==> t.classId !in cfg.excludeIds && cls == t.classId;
  }

  /** The scan's best IoU lies in [0, 1], whatever the boxes and scales. */
  lemma ScanIouBounded(cfg: Config, coords: Box, cls0: int, s: seq<TrueBox>)
    ensures 0.0 <= ScanUpTo(cfg, coords, cls0, s, |s|).bestIou <= 1.0
  {
    ScanCharacterization(cfg, coords, cls0, s, |s|);
  }

  /** When the predicted class never meets its own class and the coarse rule never fires, nothing is picked. */
  lemma {:induction false} ScanNoCandidate(cfg: Config, coords: Box, cls0: int, s: seq<TrueBox>, n: nat)
    requires n <= |s|
    requires forall j :: 0 <= j < |s| ==> s[j].classId != cls0
    requires forall j :: 0 <= j < |s| ==> !(cfg.oneIdx == Some(cls0) && s[j].classId in cfg.manyIdx)
    ensures ScanUpTo(cfg, coords, cls0, s, n) == ScanState(cls0, 0.0, -1)
  {
    if n > 0 {
      ScanNoCandidate(cfg, coords, cls0, s, n - 1);
    }
  }

  // ---------------------------------------------------------------------------
  // The outer loop
  // ---------------------------------------------------------------------------

  /** How many entries of `xs` are at least `t`. */
  function CountAtLeast(xs: seq<real>, t: real): (c: nat)
    ensures c <= |xs|
  {
    if xs == [] then 0
    else CountAtLeast(xs[..|xs| - 1], t) + (if xs[|xs| - 1] >= t then 1 else 0)
  }

  /** The loop state reached after n predicted boxes, when no `del` failed before. */
  predicate MatchInvariant(cfg: Config, truth: seq<TrueBox>, n: nat, st: MatchState) {
    && st.tp + st.fp == n
    && |st.ious| == n
    && st.tp + |st.remaining| == |truth|
    && IsSubsequence(st.remaining, truth)
    && CountAtLeast(st.ious, cfg.iouThreshold) == st.tp
  }

  /**
   * Each predicted box adds one counter increment and one IoU entry; each true positive
   * removes exactly one true box, the others keeping their order; and the true positives
   * are exactly the IoU entries at or above the threshold.
   */
  lemma {:induction false} MatchCounts(cfg: Config, preds: seq<PredBox>, truth: seq<TrueBox>, n: nat)
    requires n <= |preds|
    requires MatchUpTo(cfg, preds, truth, n).Success?
    ensures MatchInvariant(cfg, truth, n, MatchUpTo(cfg, preds, truth, n).value)
  {
    if n == 0 {
      SubsequenceReflexive(truth);
    } else {
      MatchCounts(cfg, preds, truth, n - 1);
      MatchStepKeepsInvariant(cfg, truth, n - 1, MatchUpTo(cfg, preds, truth, n - 1).value, preds[n - 1]);
    }
  }

  lemma MatchStepKeepsInvariant(cfg: Config, truth: seq<TrueBox>, n: nat, st: MatchState, p: PredBox)
    requires MatchInvariant(cfg, truth, n, st)
    requires MatchStep(cfg, st, p).Success?
    ensures MatchInvariant(cfg, truth, n + 1, MatchStep(cfg, st, p).value)
  {
    var next := MatchStep(cfg, st, p).value;
    var sc := Scan(cfg, p, st.remaining);
    assert next.ious == st.ious + [sc.bestIou];
    assert next.ious[..|next.ious| - 1] == st.ious;
    if sc.bestIou >= cfg.iouThreshold {
      var k := if sc.bestIndex < 0 then sc.bestIndex + |st.remaining| else sc.bestIndex;
      assert next.remaining == st.remaining[..k] + st.remaining[k + 1..];
      DeleteIsSubsequence(st.remaining, k);
      SubsequenceTransitive(next.remaining, st.remaining, truth);
    }
  }

  /**
   * What evaluate_bboxes returns adds up: every predicted box is a true or a false
   * positive with one IoU entry, every true box is matched or a false negative, and so
   * the matching is one-to-one.
   */
  lemma ImageCounts(cfg: Config, preds: seq<PredBox>, truth: seq<TrueBox>)
    requires MatchBoxes(cfg, preds, truth).Success?
    ensures var r := MatchBoxes(cfg, preds, truth).value;
      && r.tp <= |preds| && r.tp <= |truth|
      && r.tp + r.fp == |preds| && |r.ious| == |preds|
      && r.tp + r.fn == |truth|
  {
    MatchCounts(cfg, preds, truth, |preds|);
  }

  /**
   * The i-th IoU entry is the best IoU of the scan of the i-th predicted box over the
   * true boxes still in the list at that moment, and it counts as a true positive exactly
   * when it reaches the threshold.
   */
  lemma {:induction false} IouEntryIsScanBest(cfg: Config, preds: seq<PredBox>, truth: seq<TrueBox>, n: nat, i: nat)
    requires i < n <= |preds|
    requires MatchUpTo(cfg, preds, truth, n).Success?
    ensures MatchUpTo(cfg, preds, truth, i).Success? && MatchUpTo(cfg, preds, truth, i + 1).Success?
    ensures var before, after := MatchUpTo(cfg, preds, truth, i).value, MatchUpTo(cfg, preds, truth, i + 1).value;
      var best := Scan(cfg, preds[i], before.remaining).bestIou;
      && i < |MatchUpTo(cfg, preds, truth, n).value.ious|
      && MatchUpTo(cfg, preds, truth, n).value.ious[i] == best
      && (after.tp == before.tp + 1 <==> best >= cfg.iouThreshold)
      && (after.fp == before.fp + 1 <==> best < cfg.iouThreshold)
  {
    MatchPrefix(cfg, preds, truth, i + 1, n);
    MatchPrefix(cfg, preds, truth, i, i + 1);
    MatchCounts(cfg, preds, truth, i);
    var before := MatchUpTo(cfg, preds, truth, i).value;
    var best := Scan(cfg, preds[i], before.remaining).bestIou;
    assert MatchUpTo(cfg, preds, truth, i + 1) == MatchStep(cfg, before, preds[i]);
    assert MatchUpTo(cfg, preds, truth, i + 1).value.ious == before.ious + [best];
  }

  /** A run that succeeds after n predicted boxes succeeded at every earlier point, and its IoU list only grew. */
  lemma {:induction false} MatchPrefix(cfg: Config, preds: seq<PredBox>, truth: seq<TrueBox>, i: nat, n: nat)
    requires i <= n <= |preds|
    requires MatchUpTo(cfg, preds, truth, n).Success?
    ensures MatchUpTo(cfg, preds, truth, i).Success?
    ensures MatchUpTo(cfg, preds, truth, i).value.ious <= MatchUpTo(cfg, preds, truth, n).value.ious
    decreases n
  {
    if i < n {
      assert MatchUpTo(cfg, preds, truth, n - 1).Success?;
      MatchPrefix(cfg, preds, truth, i, n - 1);
      var prev := MatchUpTo(cfg, preds, truth, n - 1).value;
      assert MatchUpTo(cfg, preds, truth, n).value.ious == prev.ious + [Scan(cfg, preds[n - 1], prev.remaining).bestIou];
    }
  }

  // ---------------------------------------------------------------------------
  // Positive threshold: no IndexError, excluded boxes survive
  // ---------------------------------------------------------------------------

  /** The true boxes whose class is excluded, in order. */
  function ExcludedBoxes(cfg: Config, s: seq<TrueBox>): (r: seq<TrueBox>)
    ensures |r| <= |s|
  {
    if s == [] then []
    else (if s[0].classId in cfg.excludeIds then [s[0]] else []) + ExcludedBoxes(cfg, s[1..])
  }

  lemma {:induction false} ExcludedBoxesConcat(cfg: Config, a: seq<TrueBox>, b: seq<TrueBox>)
    ensures ExcludedBoxes(cfg, a + b) == ExcludedBoxes(cfg, a) + ExcludedBoxes(cfg, b)
    decreases |a|
  {
    if a != [] {
      assert (a + b)[1..] == a[1..] + b;
      ExcludedBoxesConcat(cfg, a[1..], b);
    } else {
      assert a + b == b;
    }
  }

  /** Deleting a box whose class is not excluded leaves the excluded boxes as they were. */
  lemma DeleteKeepsExcluded(cfg: Config, s: seq<TrueBox>, k: nat)
    requires k < |s| && s[k].classId !in cfg.excludeIds
    ensures ExcludedBoxes(cfg, s[..k] + s[k + 1..]) == ExcludedBoxes(cfg, s)
  {
    var a, b := s[..k], s[k + 1..];
    calc {
      ExcludedBoxes(cfg, s);
      { assert s == (a + [s[k]]) + b; }
      ExcludedBoxes(cfg, (a + [s[k]]) + b);
      { ExcludedBoxesConcat(cfg, a + [s[k]], b); }
      ExcludedBoxes(cfg, a + [s[k]]) + ExcludedBoxes(cfg, b);
      { ExcludedBoxesConcat(cfg, a, [s[k]]);
        assert [s[k]][1..] == [];
        assert ExcludedBoxes(cfg, [s[k]]) == []; }
      ExcludedBoxes(cfg, a) + ExcludedBoxes(cfg, b);
      { ExcludedBoxesConcat(cfg, a, b); }
      ExcludedBoxes(cfg, a + b);
    }
  }

  /**
   * With a positive threshold a true positive always has a real match (the `del` never
   * fails), and true boxes of an excluded class are never deleted.
   */
  lemma {:induction false} PositiveThresholdKeepsExcluded(cfg: Config, preds: seq<PredBox>, truth: seq<TrueBox>, n: nat)
    requires n <= |preds| && cfg.iouThreshold > 0.0
    ensures MatchUpTo(cfg, preds, truth, n).Success?
    ensures ExcludedBoxes(cfg, MatchUpTo(cfg, preds, truth, n).value.remaining) == ExcludedBoxes(cfg, truth)
  {
    if n > 0 {
      PositiveThresholdKeepsExcluded(cfg, preds, truth, n - 1);
      var prev := MatchUpTo(cfg, preds, truth, n - 1).value;
      var p := preds[n - 1];
      var sc := Scan(cfg, p, prev.remaining);
      ScanCharacterization(cfg, p.box, PredClass(cfg, p), prev.remaining, |prev.remaining|);
      if sc.bestIou >= cfg.iouThreshold {
        assert 0 <= sc.bestIndex < |prev.remaining|;
        DeleteKeepsExcluded(cfg, prev.remaining, sc.bestIndex);
      }
    }
  }

  /** Excluded true boxes always count toward the false negatives. */
  lemma ExcludedCountAsFalseNegatives(cfg: Config, preds: seq<PredBox>, truth: seq<TrueBox>)
    requires cfg.iouThreshold > 0.0
    ensures MatchBoxes(cfg, preds, truth).Success?
    ensures MatchBoxes(cfg, preds, truth).value.fn >= |ExcludedBoxes(cfg, truth)|
  {
    PositiveThresholdKeepsExcluded(cfg, preds, truth, |preds|);
  }

  /** A zero sequence of the given length. */
  function Zeros(n: nat): (z: seq<real>)
    ensures |z| == n && forall i :: 0 <= i < n ==> z[i] == 0.0
  {
    seq(n, _ => 0.0)
  }

  /**
   * When no predicted class (after id_map) equals any true class and the coarse rule
   * never applies, every predicted box is a false positive with IoU 0 and every true box
   * a false negative.
   */
  lemma NoSharedClassNoMatch(cfg: Config, preds: seq<PredBox>, truth: seq<TrueBox>)
    requires cfg.iouThreshold > 0.0
    requires forall k, j :: 0 <= k < |preds| && 0 <= j < |truth| ==> PredClass(cfg, preds[k]) != truth[j].classId
    requires forall k, j :: 0 <= k < |preds| && 0 <= j < |truth| ==>
      !(cfg.oneIdx == Some(PredClass(cfg, preds[k])) && truth[j].classId in cfg.manyIdx)
    ensures MatchBoxes(cfg, preds, truth) == Success(ImageResult(0, |preds|, |truth|, Zeros(|preds|), truth))
  {
    NoSharedClassPrefix(cfg, preds, truth, |preds|);
  }

  lemma {:induction false} NoSharedClassPrefix(cfg: Config, preds: seq<PredBox>, truth: seq<TrueBox>, n: nat)
    requires n <= |preds| && cfg.iouThreshold > 0.0
    requires forall k, j :: 0 <= k < |preds| && 0 <= j < |truth| ==> PredClass(cfg, preds[k]) != truth[j].classId
    requires forall k, j :: 0 <= k < |preds| && 0 <= j < |truth| ==>
      !(cfg.oneIdx == Some(PredClass(cfg, preds[k])) && truth[j].classId in cfg.manyIdx)
    ensures MatchUpTo(cfg, preds, truth, n) == Success(MatchState(0, n, Zeros(n), truth))
  {
    if n > 0 {
      NoSharedClassPrefix(cfg, preds, truth, n - 1);
      var p := preds[n - 1];
      ScanNoCandidate(cfg, p.box, PredClass(cfg, p), truth, |truth|);
      assert Zeros(n - 1) + [0.0] == Zeros(n);
    }
  }

  // ---------------------------------------------------------------------------
  // Rescaling of true boxes
  // ---------------------------------------------------------------------------

  lemma TruncMonotone(x: real, y: real)
    requires x <= y
    ensures TruncToInt(x) <= TruncToInt(y)
  {
  }

  /** With nonnegative scales a well-formed true box stays well formed after rescaling. */
  lemma ScalePreservesWellFormed(b: Box, xScale: real, yScale: real)
    requires WellFormed(b) && xScale >= 0.0 && yScale >= 0.0
    ensures WellFormed(ScaleBox(b, xScale, yScale))
  {
    ScaleCoordMonotone(b.x1, b.x2, xScale);
    ScaleCoordMonotone(b.y1, b.y2, yScale);
  }

  /** With a nonnegative scale, rescaling keeps the order of coordinates. */
  lemma ScaleCoordMonotone(u: real, v: real, c: real)
    requires u <= v && c >= 0.0
    ensures ScaleCoord(u, c) <= ScaleCoord(v, c)
  {
    assert u * c <= v * c by {
      MulPositive(v - u, c);
      assert (v - u) * c == v * c - u * c;
    }
    TruncMonotone(u * c, v * c);
  }

  predicate IsInteger(x: real) { x == x.Floor as real }

  /** At scale 1.0 a box with integer coordinates is left as it is. */
  lemma ScaleUnit(b: Box)
    requires IsInteger(b.x1) && IsInteger(b.y1) && IsInteger(b.x2) && IsInteger(b.y2)
    ensures ScaleBox(b, 1.0, 1.0) == b
  {
    IntegerTrunc(b.x1);
    IntegerTrunc(b.y1);
    IntegerTrunc(b.x2);
    IntegerTrunc(b.y2);
  }

  lemma IntegerTrunc(x: real)
    requires IsInteger(x)
    ensures ScaleCoord(x, 1.0) as real == x
  {
    assert x * 1.0 == x;
    if x < 0.0 {
      assert (-x).Floor == -(x.Floor);
    }
  }

  /**
   * Every IoU entry of evaluate_bboxes lies in [0, 1], whatever the boxes and scales.
   * The true boxes keep their values: every box left in the list is one of the input boxes.
   */
  lemma {:induction false} IousInUnitInterval(cfg: Config, preds: seq<PredBox>, truth: seq<TrueBox>, n: nat)
    requires n <= |preds|
    requires MatchUpTo(cfg, preds, truth, n).Success?
    ensures forall t :: t in MatchUpTo(cfg, preds, truth, n).value.remaining ==> t in truth
    ensures var ious := MatchUpTo(cfg, preds, truth, n).value.ious;
      forall k :: 0 <= k < |ious| ==> 0.0 <= ious[k] <= 1.0
  {
    MatchCounts(cfg, preds, truth, n);
    var st := MatchUpTo(cfg, preds, truth, n).value;
    SubsequenceElements(st.remaining, truth);
    if n > 0 {
      IousInUnitInterval(cfg, preds, truth, n - 1);
      var prev := MatchUpTo(cfg, preds, truth, n - 1).value;
      var p := preds[n - 1];
      ScanIouBounded(cfg, p.box, PredClass(cfg, p), prev.remaining);
      assert st.ious == prev.ious + [Scan(cfg, p, prev.remaining).bestIou];
    }
  }
}
