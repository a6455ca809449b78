/** Outcomes shared by every component, and the names of the values the components exchange. */
module Prelude {

  datatype Option<+T> = None | Some(value: T)

  datatype Result<+T, +E> = Ok(value: T) | Err(error: E)

  /** How a call ends that may die after some of its writes. */
  datatype Outcome<+T, +E> = Done(value: T) | Raised(error: E) | Crashed

  /** Raw file or message bytes, one character a byte. */
  type Bytes = string

  /** A lower-case hexadecimal digest. */
  type Digest = string

  // ---- finite sets of integers -----------------------------------------------------------

  ghost function Pick<T>(s: set<T>): (x: T)
    requires s != {}
    ensures x in s
  {
    var x :| x in s;
    x
  }

  lemma SetsEqual(a: set<int>, b: set<int>)
    requires forall n :: n in a <==> n in b
    ensures a == b
  {
    if a - b != {} { var x := Pick(a - b); }
    if b - a != {} { var x := Pick(b - a); }
    Inclusions(a, b);
  }

  lemma Inclusions<T>(a: set<T>, b: set<T>)
    requires a - b == {} && b - a == {}
    ensures a == b
  {
    forall x | x in a ensures x in b { assert x !in a - b; }
    forall x | x in b ensures x in a { assert x !in b - a; }
  }
}
