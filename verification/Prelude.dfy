// What several modules share.
module Prelude {
  datatype Option<T> = None | Some(value: T)

  function Least(a: int, b: int): int {
    if a < b then a else b
  }

  lemma {:induction false} SubsetSize<T>(a: set<T>, b: set<T>)
    requires a <= b
    ensures |a| <= |b|
  {
    if a != {} {
      var x :| x in a;
      SubsetSize(a - {x}, b - {x});
    }
  }

  // What c adds to a, outside b.
  lemma {:induction false} UnionSize<T>(a: set<T>, c: set<T>, b: set<T>)
    ensures |a + c - b| == |a - b| + |c - (b + a)|
  {
    assert a + c - b == (a - b) + (c - (b + a));
  }
}
