/** Datatypes and a fact about sets shared by the other modules. */
module Prelude {
  /** A value that may be absent: a nullable column, or a lookup that finds no row. */
  datatype Option<+T> = None | Some(value: T)

  /** The outcome of an operation of the source that may throw. */
  datatype Result<+T, +E> = Ok(value: T) | Err(error: E)

  /** A subset is no larger. */
  lemma {:induction false} SubsetSize<T>(a: set<T>, b: set<T>)
    requires a <= b
    ensures |a| <= |b|
    decreases a
  {
    if a != {} {
      var x :| x in a;
      SubsetSize(a - {x}, b - {x});
    }
  }
}
