/** Types and small facts shared by every module of the model. */
module Common {

  datatype Option<+T> = None | Some(value: T)

  datatype Result<+T, +E> = Ok(value: T) | Err(error: E)

  /** The symbolic model of SHA-256 over messages of type `M`: a free constructor, hence injective. */
  datatype Digest<+M> = Sha256(message: M)

  /** No element occurs at two positions. */
  predicate NoDup<T(==)>(xs: seq<T>) {
    forall i, j :: 0 <= i < j < |xs| ==> xs[i] != xs[j]
  }

  /** `xs` and `ys` hold the same elements with the same multiplicities. */
  ghost predicate Permutation<T>(xs: seq<T>, ys: seq<T>) {
    multiset(xs) == multiset(ys)
  }
}
