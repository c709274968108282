/** Cardinality facts about finite sets. */
module FiniteSets {

  function One(b: bool): nat {
    if b then 1 else 0
  }

  lemma SubsetSize<T>(a: set<T>, b: set<T>)
    requires a <= b
    ensures |a| <= |b|
    ensures |a| == |b| ==> a == b
  {
    assert b == a + (b - a);
  }

  lemma {:induction false} DistinctSize<T>(order: seq<T>)
    requires forall i, j | 0 <= i < j < |order| :: order[i] != order[j]
    ensures |set x | x in order| == |order|
  {
    if order != [] {
      var rest := order[1..];
      DistinctSize(rest);
      assert order == [order[0]] + rest;
      assert (set x | x in order) == (set x | x in rest) + {order[0]};
      assert order[0] !in rest;
    }
  }
}
