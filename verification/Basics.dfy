/** Optional values and the smaller of two numbers. */
module Basics {
  datatype Option<+T> = None | Some(value: T)

  /** The zero or one elements of an option, as a sequence. */
  function Held<T>(o: Option<T>): seq<T> {
    match o
    case None => []
    case Some(x) => [x]
  }

  function Min(a: nat, b: nat): nat {
    if a < b then a else b
  }
}
