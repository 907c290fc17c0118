/** What the other modules share. */
module Basics {
  datatype Option<T> = None | Some(value: T)

  newtype byte = x: int | 0 <= x < 256

  predicate Distinct<T(==)>(s: seq<T>) {
    forall i, j | 0 <= i < j < |s| :: s[i] != s[j]
  }

  lemma Associative<T>(a: seq<T>, b: seq<T>, c: seq<T>)
    ensures a + b + c == a + (b + c)
  {
  }
}
