/** Order-preservation vocabulary shared by the list filters and the amount sanitiser. */
module Seqs {

  /**
   * `a` can be obtained from `b` by deleting elements, keeping the order of
   * what remains (greedy matching from the left).
   */
  predicate IsSubsequence<T(==)>(a: seq<T>, b: seq<T>)
    decreases |b|
  {
    if a == [] then true
    else if b == [] then false
    else if a[0] == b[0] then IsSubsequence(a[1..], b[1..])
    else IsSubsequence(a, b[1..])
  }
}
