/** Option and Result values used where the source returns null or throws. */
module Wrappers {

  datatype Option<+T> = None | Some(value: T) {
    /** The zero- or one-element list a `List.Add` guarded by a null test produces. */
    function ToSeq(): (s: seq<T>)
      ensures |s| == if Some? then 1 else 0
      ensures Some? ==> s == [value]
    {
      match this
      case None => []
      case Some(v) => [v]
    }

    function GetOr(default: T): T {
      match this
      case None => default
      case Some(v) => v
    }
  }

  /** `Err` stands for an exception thrown by the source. */
  datatype Result<+T> = Ok(value: T) | Err(error: string)
}
