/** Declarations that several models share. */
module Wrappers {

  datatype Option<T> = None | Some(value: T)

  predicate Distinct<T(==)>(s: seq<T>) { forall i, j :: 0 <= i < j < |s| ==> s[i] != s[j] }

  /** A sequence without repetitions has as many elements as places. */
  lemma {:induction false} DistinctCount<T>(s: seq<T>, xs: set<T>)
    requires Distinct(s) && xs == set x | x in s
    ensures |xs| == |s|
  {
    if s != [] {
      var rest := set x | x in s[1..];
      DistinctCount(s[1..], rest);
      assert xs == rest + {s[0]} && s[0] !in rest;
    }
  }

  /** A set that holds as many elements as one around it is all of that. */
  lemma AllOfIt<T>(xs: set<T>, ys: set<T>)
    requires xs <= ys && |ys| <= |xs|
    ensures xs == ys
  {
    assert ys == xs + (ys - xs);
  }

  /** A lock stays as it is, or c takes it, or c gives it back. */
  predicate LockMove<T(==)>(l: Option<T>, l': Option<T>, c: T) {
    l' == l || (l.None? && l' == Some(c)) || (l == Some(c) && l'.None?)
  }
}
