/** The outcomes shared by the post-processing and the benches: an optional
    value, and a result that is either a value or the error the tensor library
    would have raised. */
module Outcome {

  datatype Option<T> = None | Some(value: T)

  /** Why a call fails.
      - ShapeMismatch: the per-level outputs do not describe one consistent
        anchor layout, so a reshape, a concatenation or a gather fails.
      - TopKOutOfRange: fewer candidates per image than the K asked of top-k.
      - IndexOutOfRange: a Python or torch indexing error: a level the
        configuration names is missing, or a per-image list (post-processed
        candidates, image scales, ground truth) is shorter than the batch. */
  datatype Error = ShapeMismatch | TopKOutOfRange | IndexOutOfRange

  datatype Result<T> = Ok(value: T) | Err(error: Error)
}
