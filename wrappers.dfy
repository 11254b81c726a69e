/** A value that may be absent, and a sequence lemma, shared by the other modules. */
module Wrappers {

  /** A value that may be absent, as a keyword argument that was not given. */
  datatype Option<T> = None | Some(value: T) {

    /** The wrapped value, or `default` when there is none. */
    function GetOr(default: T): T {
      match this
      case Some(v) => v
      case None => default
    }
  }

  /** Concatenation regrouped, stated once so that no proof has to compare the pieces elementwise. */
  lemma AppendAssoc<T>(a: seq<T>, b: seq<T>, c: seq<T>)
    ensures (a + b) + c == a + (b + c)
  {
  }
}
