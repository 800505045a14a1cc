/** The optional value used across the model. */
module Wrappers {

  /** A value that may be missing: the source's `None` (Python) or "no order" (C#). */
  datatype Option<+T> = None | Some(value: T) {

    /** The value as a zero- or one-element sequence, for appending to a list. */
    function ToSeq(): (s: seq<T>)
      ensures |s| <= 1
      ensures Some? <==> |s| == 1
      ensures Some? ==> s[0] == value
    {
      match this
      case None => []
      case Some(v) => [v]
    }
  }
}
