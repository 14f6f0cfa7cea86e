/** Checks on lists that several modules make. */
module Sequences {

  predicate NonEmptyTexts(s: seq<string>) {
    forall i :: 0 <= i < |s| ==> s[i] != ""
  }

  predicate NoDuplicates<T(==)>(s: seq<T>) {
    forall i, j :: 0 <= i < j < |s| ==> s[i] != s[j]
  }

  function Members<T(==)>(s: seq<T>): set<T> {
    set i | 0 <= i < |s| :: s[i]
  }
}
