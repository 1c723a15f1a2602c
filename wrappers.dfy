/** Go-style error values and the Option/Result wrappers the model uses for
    nil-able values and (value, error) pairs. */
module Wrappers {

  /** A Go `error`: only its message is observable to this model. */
  datatype Error = Error(msg: string)

  /** A nil-able value: `None` stands for Go's `nil`. */
  datatype Option<+T> = None | Some(value: T) {
    function GetOr(default: T): T
    {
      match this
      case Some(v) => v
      case None => default
    }
  }

  /** The outcome of a call returning `(value, error)`. */
  datatype Result<+T> = Ok(value: T) | Err(error: Error)

  /** `sub` occurs somewhere inside `s`. */
  predicate Contains(s: string, sub: string)
  {
    exists i :: 0 <= i <= |s| && sub <= s[i..]
  }

  /** A non-empty set has an element to pick. */
  lemma NonEmptyHasElement<T>(s: set<T>)
    requires s != {}
    ensures exists x :: x in s
  {
  }

  /** Picks some element of a non-empty set, as ranging over a Go map visits
      its keys in no fixed order. */
  method Pick<T>(s: set<T>) returns (x: T)
    requires s != {}
    ensures x in s
  {
    NonEmptyHasElement(s);
    x :| x in s;
  }
}
