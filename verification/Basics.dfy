/** What several modules share. */
module Basics {

  datatype Option<+T> = None | Some(value: T)

  ghost predicate NoDup<T>(s: seq<T>) {
    forall i, j :: 0 <= i < j < |s| ==> s[i] != s[j]
  }

  function One(b: bool): int {
    if b then 1 else 0
  }

  /** Two sets that differ in one element at most differ in size by that element. */
  lemma SizeByMember<T>(a: set<T>, b: set<T>, x: T)
    requires a - {x} == b - {x}
    ensures |a| - One(x in a) == |b| - One(x in b)
  {
    assert x in a ==> |a| == |a - {x}| + 1;
    assert x in b ==> |b| == |b - {x}| + 1;
    assert x !in a ==> a == a - {x};
    assert x !in b ==> b == b - {x};
  }
}
