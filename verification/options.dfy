/** The optional value used for the source's `Option` results. */
module Options {

  datatype Option<+T> = None | Some(value: T) {

    /** The wrapped value, or `default` when there is none. */
    function GetOr(default: T): (r: T)
      ensures Some? ==> r == value
      ensures None? ==> r == default
    {
      match this
      case Some(v) => v
      case None => default
    }

    /** Zero or one elements, for appending what an optional step produced. */
    function ToSeq(): (r: seq<T>)
      ensures |r| <= 1
      ensures |r| == 1 <==> Some?
      ensures Some? ==> r[0] == value
    {
      match this
      case Some(v) => [v]
      case None => []
    }
  }
}
