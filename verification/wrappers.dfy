/** Failure-carrying datatypes shared by the modules of this model. */
module Wrappers {

  /** A value that may be absent: Python's `None` sentinel. */
  datatype Option<+T> = None | Some(value: T)

  /** The outcome of an operation that may raise: a value or the error raised. */
  datatype Result<+T, +E> = Success(value: T) | Failure(error: E)
}

/** Generic facts about Python lists viewed as Dafny sequences. */
module Lists {

  /** `xs.index(x)`: the first position holding a value equal to `x`. */
  function FirstIndex<T(==)>(xs: seq<T>, x: T): (i: nat)
    requires x in xs
    ensures i < |xs| && xs[i] == x
    ensures forall k :: 0 <= k < i ==> xs[k] != x
  {
    if xs[0] == x then 0 else 1 + FirstIndex(xs[1..], x)
  }

  /** No value occurs twice. */
  predicate Distinct<T(==)>(xs: seq<T>)
  {
    forall i, j :: 0 <= i < j < |xs| ==> xs[i] != xs[j]
  }

  /** In a list without repetitions, the first occurrence of `xs[i]` is `i` itself. */
  lemma FirstIndexDistinct<T>(xs: seq<T>, i: nat)
    requires Distinct(xs) && i < |xs|
    ensures FirstIndex(xs, xs[i]) == i
  {
  }

  /** A prefix one longer is the prefix with the next element appended. */
  lemma PrefixExtend<T>(xs: seq<T>, i: nat)
    requires i < |xs|
    ensures xs[..i + 1] == xs[..i] + [xs[i]]
  {
  }
}
