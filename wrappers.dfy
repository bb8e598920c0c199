/** Optional values and the extended score line used in place of the
    source's -DBL_MAX sentinel. */
module Wrappers {

  datatype Option<T> = None | Some(value: T)

  /** A heuristic score: MinusInf stands for -DBL_MAX ("not a candidate"). */
  datatype Score = MinusInf | Finite(value: int)

  /** `a > b` on doubles, where -DBL_MAX is below every finite score and
      -DBL_MAX > -DBL_MAX is false. */
  predicate Greater(a: Score, b: Score) {
    match (a, b)
    case (Finite(x), Finite(y)) => x > y
    case (Finite(_), MinusInf) => true
    case (MinusInf, _) => false
  }

  /** Greater is a strict total order on scores. */
  lemma GreaterIsStrictTotalOrder(a: Score, b: Score, c: Score)
    ensures !Greater(a, a)
    ensures Greater(a, b) ==> !Greater(b, a)
    ensures Greater(a, b) && Greater(b, c) ==> Greater(a, c)
    ensures !Greater(a, b) && !Greater(b, a) ==> a == b
    ensures !Greater(a, b) && Greater(c, b) ==> Greater(c, a)
    ensures !Greater(a, b) && !Greater(b, c) ==> !Greater(a, c)
  {
  }
}
