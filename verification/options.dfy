/** Swift's `Optional`, the result type of a reducer and of an effect's work. */
module Options {

  datatype Option<+T> = None | Some(value: T) {

    /** The elements of this option as a sequence of length zero or one. */
    function ToSeq(): (s: seq<T>)
      ensures |s| <= 1
      ensures |s| == 1 <==> Some?
      ensures Some? ==> s[0] == value
    {
      match this
      case None => []
      case Some(v) => [v]
    }
  }
}
