/** What the nodes and the placement driver both say of lists. */
module Sequences {

  predicate Distinct<T(==)>(s: seq<T>) {
    forall i, j :: 0 <= i < j < |s| ==> s[i] != s[j]
  }
}
