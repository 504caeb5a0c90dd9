/** The optional value used for parse results that may fail. */
module Options {

  datatype Option<+T> = None | Some(value: T) {

    /** The value as a sequence of at most one element. */
    function ToSeq(): (s: seq<T>)
      ensures |s| <= 1
      ensures Some? ==> s == [value]
      ensures None? ==> s == []
    {
      if Some? then [value] else []
    }
  }
}
