/** Small datatypes and finite-set facts shared by every part of the model. */
module Common {

  datatype Option<+T> = None | Some(value: T)

  /** A sequence without repetitions. */
  ghost predicate Distinct<T>(s: seq<T>) {
    forall i, j :: 0 <= i < j < |s| ==> s[i] != s[j]
  }

  ghost function Elements<T>(s: seq<T>): set<T> {
    set x | x in s
  }

  lemma {:induction false} DistinctSize<T>(s: seq<T>)
    requires Distinct(s)
    ensures |Elements(s)| == |s|
  {
    if s != [] {
      var rest := s[1..];
      DistinctSize(rest);
      assert s[0] !in rest;
      assert s == [s[0]] + rest;
      assert Elements(s) == Elements(rest) + {s[0]};
    }
  }

  lemma SubsetSize<T>(a: set<T>, b: set<T>)
    requires a <= b
    ensures |a| <= |b|
  {
    assert b == a + (b - a);
    assert |b| == |a| + |b - a|;
  }

  /** A member of `all` that `part` lacks. */
  lemma Missing<T>(part: set<T>, all: set<T>) returns (x: T)
    requires part <= all && part != all
    ensures x in all && x !in part
  {
    x :| x in all && x !in part;
  }
}
