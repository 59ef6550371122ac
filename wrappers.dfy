/** The optional value used for C#'s nullable references and WPF's unset properties. */
module Wrappers {
  datatype Option<+T> = None | Some(value: T)

  /** The list view of an optional value: empty for None, one element for Some. */
  function ToSeq<T>(o: Option<T>): (s: seq<T>)
    ensures |s| <= 1
    ensures o.Some? <==> |s| == 1
    ensures o.Some? ==> s[0] == o.value
  {
    match o
    case None => []
    case Some(v) => [v]
  }
}
