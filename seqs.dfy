/** Facts about sequences shared by several modules. */
module Seqs {
  /** Every element occurs once. */
  predicate NoDuplicates<T(==)>(s: seq<T>) {
    forall i, j :: 0 <= i < j < |s| ==> s[i] != s[j]
  }
}
