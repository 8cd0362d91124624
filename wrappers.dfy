/** Failure-compatible datatypes used to model the exceptions the evaluation code can raise. */
module Wrappers {

  datatype Option<+T> = None | Some(value: T)

  datatype Result<+R, +E> = Success(value: R) | Failure(error: E)

  /** The exceptions the evaluation code raises on well-typed input. */
  datatype EvalError =
    | IndexError         // `del true_boxes[-1]` on an empty list
    | ZeroDivisionError  // a zero denominator in calculate_precision_recall, or `sum(ious) / len(ious)` with no IoU entry
}
