# Object-detection evaluation engine

This project models the evaluation engine that scores an object detector against
ground-truth annotations:

- `calculate_iou`: intersection over union of two `(x1, y1, x2, y2)` boxes.
- `evaluate_bboxes`: greedy one-to-one matching of the predicted boxes of one image against
  its true boxes. It remaps classes through `id_map` and applies the coarse/fine class
  coercion (`one_idx`, `many_idx`). It skips excluded true classes and rescales true boxes
  with `int()` truncation. Each true positive deletes its match from the caller's list.
- `calculate_precision_recall`: precision and recall with an `eps` in the denominators.
- `evaluate_detections`: runs the per-image matching over the zipped, `[:N]`-sliced
  detection and annotation lists and sums the results.
- The mean IoU `sum(ious) / len(ious)`.
- `preprocess_anns`: converts COCO `bbox = [x, y, width, height]` records into
  `(x1, y1, x2, y2, class)` tuples.

## Modules

- `Wrappers`: `Option` and `Result`, and the two errors the code can raise. These are
  `IndexError` (from `del`) and `ZeroDivisionError`.
- `Geometry`: the box datatype and IoU, with its bounds, symmetry and special cases.
- `Annotations`: the COCO-to-corner-form converter and its inverse.
- `Matching`:
  - `evaluate_bboxes` as imperative code. The caller's list is the class
    `TrueBoxList`, which `del` shrinks in place. The inner loop is the method
    `FindBestMatch`, and the outer loop is `EvaluateBboxes`.
  - Each method is proved equal to a step-by-step specification function:
    `ScanUpTo` for the inner loop, and `MatchUpTo` and `MatchBoxes` for the outer loop.
- `MatchingProperties`: what the matching guarantees, proved about those functions.
- `Sequences`: order-preserving sublists, used to state that deletions keep the order of
  the boxes that stay.
- `Scenarios`: single-prediction cases, including the quirks the code has as written.
- `Metrics`: precision/recall and the mean IoU.
- `Detections`: `evaluate_detections` as a loop proved equal to the function
  `EvaluationOf`. `DetectionsProperties` holds the lemmas about it.

Where the code and the system's design description disagree, the model follows the code:

- With the default `N = -1`, the slice `[:N]` drops the last image instead of meaning
  "no limit" (`DetectionsProperties.ImagesDefaultDropsLast`).
- "No shared class means no true positive" holds only for a positive IoU threshold.
  With a threshold of 0 or less, a predicted box without a candidate still deletes the
  last true box (`Scenarios.NonPositiveThresholdDeletesLast`).
- The coarse/fine coercion sticks for the rest of a predicted box's scan. It also fires
  on true boxes that are then excluded (`Scenarios.StickyCoercion`).
- The docstring of `evaluate_bboxes` (src/evaluation.py:44) says it returns precision and
  recall. The code returns `(tp, fp, fn, ious)` (src/evaluation.py:112), and so does the
  model (`Matching.MatchBoxes`).
- The docstring of `evaluate_detections` (src/evaluation.py:127-133) speaks of "a single
  image". The code loops over many images.

## Model

| member | source | states |
|---|---|---|
| Geometry.IntersectionArea | src/evaluation.py:10-16 | The clamped intersection area is nonnegative. It is positive exactly when the boxes overlap strictly along both axes. |
| Geometry.Iou | src/evaluation.py:8-28 | IoU lies in [0, 1] for any two boxes: a positive intersection forces both boxes to have x1 < x2 and y1 < y2, and otherwise IoU is 0. |
| Geometry.RatioBounds | src/evaluation.py:23-26 | When the union is positive, intersection / union lies in [0, 1], for any two boxes. |
| Geometry.IntersectionWithinArea | src/evaluation.py:16-20 | For well-formed boxes, the intersection area never exceeds either box's area. |
| Geometry.IouSymmetric | src/evaluation.py:8-28 | IoU(a, b) == IoU(b, a) for all boxes. |
| Geometry.IouSelf | src/evaluation.py:8-28 | A box of positive width and height has IoU 1 with itself. |
| Geometry.IouDisjoint | src/evaluation.py:10-26 | Boxes that are apart or only touch along some axis have IoU 0. |
| Geometry.IouPositiveIff | src/evaluation.py:10-26 | For any two boxes, IoU > 0 exactly when they overlap strictly along both axes. |
| Annotations.ToTrueBox | src/data.py:78-84 | x1, y1 equal bbox[0], bbox[1]. x2 - x1 and y2 - y1 equal width and height. The class is category_id. The box is well formed exactly when width and height are nonnegative. |
| Annotations.ToTrueBoxToCoco | src/data.py:78-84 | Converting a corner-form box back to width/height and converting again gives the same box. |
| Annotations.PreprocessAnns | src/data.py:77-86 | One output per input, in order. Converting each output back gives its input record. |
| Annotations.PreprocessWellFormed | src/data.py:81-82 | Records with nonnegative width and height give boxes with x1 <= x2 and y1 <= y2. |
| Matching.DefaultConfig | src/evaluation.py:34-40 | The keyword defaults of evaluate_bboxes: iou_threshold 0.5, no id_map, no one_idx, empty many_idx and exclude_ids, scales 1.0. |
| Matching.ScaleCoord | src/evaluation.py:79 | One true-box coordinate as compared: int(coord * scale), truncated toward zero. |
| Matching.ScaleBox | src/evaluation.py:78-81 | The true box as compared: x1 and x2 (even positions) scaled by x_scale, y1 and y2 (odd positions) by y_scale, each truncated. The stored box is not changed. |
| Matching.RemapClass | src/evaluation.py:66-67 | A class found in id_map is replaced by its image. Any other class, or every class under an absent or empty id_map, passes through. |
| Matching.PredClass | src/evaluation.py:63-67 | The class a predicted box starts its scan with: int() of its class value, then through id_map. |
| Matching.Coerce | src/evaluation.py:85-86 | When the predicted class is one_idx and the true box's class is in many_idx, the predicted class becomes the true box's class. Otherwise it is kept. |
| Matching.ScanStep | src/evaluation.py:73-98 | One inner iteration. The coercion applies first. An excluded true box is then skipped. Otherwise the box becomes the best match when its IoU is strictly greater and its class equals the current predicted class. |
| Matching.ScanUpTo | src/evaluation.py:71-98 | The inner scan after n true boxes, from class cls0, IoU 0 and index -1. |
| Matching.Scan | src/evaluation.py:62-98 | The whole scan of one predicted box over the boxes still in the list. |
| Matching.MatchStep | src/evaluation.py:100-107 | One outer iteration. At or above the threshold: tp + 1, and `del` at the best index, which can raise IndexError. Below it: fp + 1. Either way the best IoU is appended. |
| Matching.MatchUpTo | src/evaluation.py:61-107 | The outer loop after n predicted boxes, starting from (0, 0, [], the caller's list). The first IndexError ends it. |
| Matching.MatchBoxes | src/evaluation.py:55-112 | The result of evaluate_bboxes: (tp, fp, fn = boxes left, ious), with the list left to the caller, or IndexError. |
| Matching.TruncToInt | src/evaluation.py:78-81 | int() truncates toward zero: the result is within 1 of x on the side of zero, for both signs. |
| Matching.DeleteAt | src/evaluation.py:103 | `del s[idx]` succeeds exactly for -len <= idx < len, and otherwise raises IndexError. On success it removes the element at idx (at len + idx for a negative idx): the elements before it stay where they were, and the ones after it move down by one. |
| Matching.MatchUpToNext | src/evaluation.py:61-107 | While no `del` has failed, the outer loop after n + 1 boxes is one more step from n. |
| Matching.MatchFailureSticks | src/evaluation.py:101-103 | Once a `del` raises, the result of evaluate_bboxes is that error. |
| Matching.FindBestMatch | src/evaluation.py:71-98 | The inner loop computes exactly the specified scan. Its index is -1 or valid, and it is -1 exactly when the best IoU is 0. |
| Matching.TrueBoxList.Delete | src/evaluation.py:103 | `del` in place. It succeeds exactly when the index is in range and then leaves the list minus that element. Otherwise the list is unchanged. |
| Matching.ScanPrediction | src/evaluation.py:62-98 | The class through id_map, then the scan: its best IoU and index are those of the specification, and the index is -1 or in range. |
| Matching.ProcessPrediction | src/evaluation.py:61-107 | One outer iteration is exactly one specified step. The caller's list becomes the remaining boxes, or is empty when `del` raises. |
| Matching.EvaluateBboxes | src/evaluation.py:31-112 | The method returns exactly the specified result. The caller's list ends as the unmatched true boxes (fn = its length). |
| MatchingProperties.ScanCharacterization | src/evaluation.py:71-98 | After n true boxes, the scan's class is the in-order coerced class. Its index is the first eligible box of strictly greatest positive IoU, or -1 with IoU 0 when every eligible box has IoU 0. |
| MatchingProperties.ScanStepFinds | src/evaluation.py:73-98 | One inner iteration extends that characterization from n - 1 to n true boxes. |
| MatchingProperties.ScanIouBounded | src/evaluation.py:71-98 | The scan's best IoU lies in [0, 1], whatever the boxes and scales. |
| MatchingProperties.ScanNoCandidate | src/evaluation.py:84-98 | With no true box of the predicted class and no coercion, the scan keeps the class and ends with IoU 0 and index -1. |
| MatchingProperties.MatchCounts | src/evaluation.py:61-107 | After n predicted boxes: tp + fp == n, n IoU entries, tp + remaining == initial true boxes, remaining is an order-preserving sublist, and tp counts the entries at or above the threshold. |
| MatchingProperties.MatchStepKeepsInvariant | src/evaluation.py:100-107 | One outer step keeps those counting and ordering invariants. |
| MatchingProperties.ImageCounts | src/evaluation.py:55-112 | tp + fp == len(pred_boxes), len(ious) == len(pred_boxes), tp + fn == len(true_boxes), and tp <= both lengths. |
| MatchingProperties.IouEntryIsScanBest | src/evaluation.py:100-107 | The i-th IoU entry is the best IoU of the scan of the i-th predicted box over the boxes left at that moment. tp grows exactly when it reaches the threshold, fp exactly when it does not. |
| MatchingProperties.MatchPrefix | src/evaluation.py:61-107 | A run that succeeds succeeded at every earlier point, and the IoU list only grows. |
| MatchingProperties.DeleteKeepsExcluded | src/evaluation.py:89-103 | Deleting a box of a non-excluded class leaves the excluded boxes as they were. |
| MatchingProperties.PositiveThresholdKeepsExcluded | src/evaluation.py:88-103 | With a positive threshold, no `del` raises and no box of an excluded class is ever deleted. |
| MatchingProperties.ExcludedCountAsFalseNegatives | src/evaluation.py:88-110 | With a positive threshold, fn is at least the number of true boxes of an excluded class. |
| MatchingProperties.NoSharedClassNoMatch | src/evaluation.py:66-110 | With a positive threshold, no shared class and no coercion: tp = 0, fp = len(pred_boxes), fn = len(true_boxes), all IoU entries 0, and the list untouched. |
| MatchingProperties.ScalePreservesWellFormed | src/evaluation.py:78-81 | With nonnegative scales, a well-formed true box stays well formed after rescaling and truncation. |
| MatchingProperties.ScaleCoordMonotone | src/evaluation.py:78-81 | With a nonnegative scale, int(coord * scale) keeps the order of coordinates. |
| MatchingProperties.ScaleUnit | src/evaluation.py:78-81 | At scale 1.0, a box with integer coordinates is compared unchanged. |
| MatchingProperties.IousInUnitInterval | src/evaluation.py:92-107 | Every IoU entry lies in [0, 1], whatever the boxes and scales, and every box left in the list is an unmodified input box. |
| Sequences.DeleteIsSubsequence | src/evaluation.py:103 | Deleting one element leaves the others in their order. |
| Scenarios.ExactMatch | src/evaluation.py:61-110 | A predicted box equal to its only (rescaled) true box, of the same or coerced class, gives tp 1, fp 0, fn 0 and IoU 1. |
| Scenarios.StickyCoercion | src/evaluation.py:84-90 | An excluded fine-class box coerces the coarse prediction to its own class. A later fine-class box of another class is then no candidate: tp 0, fp 1, fn 2, IoU 0. On its own the prediction would have been coerced to that later box's class. When the later box overlaps at or above the threshold, on its own it would have been a true positive with no false negative. |
| Scenarios.NonPositiveThresholdDeletesLast | src/evaluation.py:100-103 | With threshold <= 0 and no candidate, the prediction is a true positive with IoU 0 that deletes the last true box, or raises IndexError on an empty list. |
| Scenarios.MissStep | src/evaluation.py:104-107 | For the first predicted box, a best IoU below the threshold is a false positive and leaves the list alone. |
| Scenarios.ClaimStep | src/evaluation.py:100-103 | For the first predicted box, a best IoU at or above the threshold is a true positive that deletes the box at the best index. |
| Scenarios.ScenarioSameClass | src/evaluation.py:61-112 | Same square, same class, defaults: (1, 0, 0, [1.0]). |
| Scenarios.ScenarioCoarseClass | src/evaluation.py:84-86 | one_idx = 2, many_idx = {1}: a class-2 prediction matches a class-1 box. |
| Scenarios.ScenarioRescaled | src/evaluation.py:78-81 | Scale 2: the true box (0, 0, 5, 5) is compared as (0, 0, 10, 10). |
| Scenarios.ScenarioOtherClass | src/evaluation.py:96-110 | Same box, another class: (0, 1, 1, [0.0]). |
| Metrics.Eps | src/evaluation.py:115 | The default eps of calculate_precision_recall, 1e-6, which evaluate_detections uses at :153. |
| Metrics.PrecisionRecall | src/evaluation.py:115-116 | ZeroDivisionError exactly when a denominator is 0. With eps > 0, both values lie in [0, 1), each 0 exactly when tp == 0. |
| Metrics.RatioBelowOne | src/evaluation.py:116 | 0 <= x / d < 1 for 0 <= x < d, zero exactly when x is. |
| Metrics.PrecisionNearExactRatio | src/evaluation.py:116 | The eps only pulls precision below tp / (tp + fp), by at most eps / (tp + fp). |
| Metrics.Sum | src/evaluation.py:194 | Python's sum of a list of IoU values. |
| Metrics.MeanIou | src/evaluation.py:194 | sum / len raises ZeroDivisionError exactly for an empty list. |
| Metrics.SumConcat | src/evaluation.py:194 | The sum of a concatenation is the sum of the sums. |
| Metrics.MeanWithinBounds | src/evaluation.py:161 | The mean of a non-empty list lies between any bounds of its entries. |
| Detections.SliceTo | src/evaluation.py:137 | Python's s[:n]: a negative n counts from the end, and the cut never goes past either end. |
| Detections.Images | src/evaluation.py:137 | The images visited: zip(detections[:N], anns[:N]). |
| Detections.Plus | src/evaluation.py:145-148 | Two sets of sums added: the counts added, the IoU lists concatenated in order. |
| Detections.AddImage | src/evaluation.py:145-148 | One image's tp, fp, fn and IoU list added to the running sums. |
| Detections.Extend | src/evaluation.py:138-148 | One more image in the loop: its result added to the sums, or the first error kept. |
| Detections.TotalsUpTo | src/evaluation.py:135-148 | The sums after the first n images, from (0, 0, 0, []). |
| Detections.TotalsOf | src/evaluation.py:135-148 | The sums over all images visited. |
| Detections.EvaluationOf | src/evaluation.py:119-155 | What evaluate_detections returns. With return_confusion_metrics it is the raw sums. Otherwise it is precision and recall with eps 1e-6, and the IoU list. |
| Detections.Zip | src/evaluation.py:137 | zip has the length of the shorter list and pairs equal indices. |
| Detections.TotalsUpToNext | src/evaluation.py:137-148 | While no image has raised, the sums after n + 1 images are one more step from n. |
| Detections.TotalsFailureSticks | src/evaluation.py:137-148 | Once an image raises, evaluate_detections raises the same error. |
| Detections.EvaluateImage | src/evaluation.py:138-148 | One loop iteration runs evaluate_bboxes on the image and adds its counts and IoU list to the sums, or stops on its error. |
| Detections.EvaluateDetections | src/evaluation.py:119-155 | The loop returns exactly the specified evaluation: the raw sums with return_confusion_metrics, else precision, recall and the IoU list. |
| DetectionsProperties.SliceIsPrefix | src/evaluation.py:137 | `s[:N]` is a prefix of s, all of s once N reaches the length. |
| DetectionsProperties.ImagesDefaultDropsLast | src/evaluation.py:137 | With N = -1, the images visited are all zipped pairs but the last. |
| DetectionsProperties.ImagesNonNegative | src/evaluation.py:137 | With N >= 0, exactly the first min(N, len(zip)) pairs are visited. |
| DetectionsProperties.ImagesFromInputs | src/evaluation.py:137 | Visited pair i is (detections[i], anns[i]). |
| DetectionsProperties.TotalsCounts | src/evaluation.py:135-148 | Summed tp + fp and the IoU count equal the number of predicted boxes visited. tp + fn equals the number of true boxes visited. |
| DetectionsProperties.TotalsConcat | src/evaluation.py:137-148 | Evaluating two batches of images in sequence gives the sums of the two evaluations, IoU lists in order. |
| DetectionsProperties.ConcatIouSum | src/evaluation.py:148 | For two batches of images evaluated in sequence, the whole IoU list has the combined length, and its sum is the sum of the two batches' sums. The mean IoU is therefore their length-weighted mean. |
| DetectionsProperties.JoinExtend | src/evaluation.py:145-148 | Adding an image after joining two running results equals joining after adding it. |
| DetectionsProperties.PositiveThresholdTotals | src/evaluation.py:137-148 | With a positive threshold, no image raises. |
| DetectionsProperties.PositiveThresholdEvaluates | src/evaluation.py:150-155 | With a positive threshold, evaluate_detections returns, and the raw tuple exactly when return_confusion_metrics is set. |
| DetectionsProperties.SummaryInRange | src/evaluation.py:153-155 | The returned precision and recall lie in [0, 1). They are zero together, exactly when the summed tp is 0. |
| DetectionsProperties.TotalsIousInUnitInterval | src/evaluation.py:137-148 | Every concatenated IoU entry lies in [0, 1], whatever the boxes and scales. |
| DetectionsProperties.MeanIouInUnitInterval | src/evaluation.py:194 | The mean IoU of the result lies in [0, 1], whatever the boxes and scales. It raises ZeroDivisionError exactly when no predicted box was visited. |

## Left out

- Floating point: coordinates, IoU, scales, eps and the ratios are exact reals. Rounding is not modelled.
- Number types: `int(pred_box[5])` is modelled as truncation of a real class value. Python ints are unbounded, so no wrap-around is involved.
- Input shapes: a box row is a typed record with its coordinate tuple and class. Indexing a row that is too short (`pred_box[5]`, `true_box[4]`) is not modelled.
- `id_map`: absent and empty are the same map. A `None` `one_idx` is `None`.
- `detections.xyxy`: the detector's result object is modelled as its list of per-image box lists.
- Keyword options: `**kwargs` forwarding is modelled as one `Config` record handed to every image.
- Matching.EvaluateBboxes: when `del` raises IndexError, the partially updated counters are not observable, so the model returns only the error. The list is then empty, since only an empty list can make `del` fail here.
- Detections.EvaluateDetections: each image's true boxes are handed to evaluate_bboxes as a fresh `TrueBoxList`. The deletions the Python code makes in the caller's `anns` lists are therefore not visible after the call.
- `print_precision_recall_iou` and `evaluate_model`: the printing, the detector and COCO calls, `time()` and `detections.show()` are I/O. Only their mean-IoU expression is modelled (`Metrics.MeanIou`), with the empty list as ZeroDivisionError.
- src/data.py: every function other than `preprocess_anns` queries pycocotools or runs the model. They are not part of this model.
- The super-resolution wrappers, the Gradio apps and the tool scripts: foreign libraries and file or screen I/O. They are not part of this model.
