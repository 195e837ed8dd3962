/** The optional-value type used wherever the system answers "found" or "not found". */
module Wrappers {

  datatype Option<+T> = None | Some(value: T)

  /** The value of `o`, or the empty sequence when there is none. */
  function OrEmpty<T>(o: Option<seq<T>>): seq<T>
  {
    match o
    case Some(xs) => xs
    case None => []
  }
}
