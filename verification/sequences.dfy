/** Facts about sequences shared by the backend and the frontend models. */
module Sequences {

  /** No element occurs twice in `s`. */
  predicate NoDuplicates<T(==)>(s: seq<T>)
  {
    forall i, j :: 0 <= i < j < |s| ==> s[i] != s[j]
  }

  /** Appending an element that is not yet present keeps a sequence duplicate-free. */
  lemma AppendFreshKeepsNoDuplicates<T>(s: seq<T>, x: T)
    ensures NoDuplicates(s) && x !in s ==> NoDuplicates(s + [x])
  {
    var t := s + [x];
    if NoDuplicates(s) && x !in s {
      forall i, j | 0 <= i < j < |t|
        ensures t[i] != t[j]
      {
        if j == |s| {
          assert t[i] == s[i];
        }
      }
    }
  }
}
