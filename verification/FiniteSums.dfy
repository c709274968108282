/** Sums of a weight over the elements of a finite set. */
module FiniteSums {

  ghost function Sum<T(!new)>(s: set<T>, w: T -> nat): nat
    decreases |s|
  {
    if s == {} then 0
    else
      var x :| x in s;
      w(x) + Sum(s - {x}, w)
  }

  /** Which element is taken out first does not matter. */
  lemma {:induction false} SumWithout<T(!new)>(s: set<T>, w: T -> nat, x: T)
    requires x in s
    ensures Sum(s, w) == w(x) + Sum(s - {x}, w)
    decreases |s|
  {
    var y :| y in s && Sum(s, w) == w(y) + Sum(s - {y}, w);
    if y != x {
      SumWithout(s - {y}, w, x);
      SumWithout(s - {x}, w, y);
      assert s - {y} - {x} == s - {x} - {y};
    }
  }

  lemma SumOne<T(!new)>(x: T, w: T -> nat)
    ensures Sum({x}, w) == w(x)
  {
    SumWithout({x}, w, x);
    assert {x} - {x} == {};
  }

  lemma {:induction false} SumDisjoint<T(!new)>(a: set<T>, b: set<T>, w: T -> nat)
    requires a !! b
    ensures Sum(a + b, w) == Sum(a, w) + Sum(b, w)
    decreases |a|
  {
    if x :| x in a {
      SumDisjoint(a - {x}, b, w);
      SumWithout(a + b, w, x);
      SumWithout(a, w, x);
      assert a + b - {x} == (a - {x}) + b;
    } else {
      assert a + b == b;
    }
  }

  lemma {:induction false} SumSame<T(!new)>(s: set<T>, w: T -> nat, v: T -> nat)
    requires forall x | x in s :: w(x) == v(x)
    ensures Sum(s, w) == Sum(s, v)
    decreases |s|
  {
    if x :| x in s {
      SumSame(s - {x}, w, v);
      SumWithout(s, w, x);
      SumWithout(s, v, x);
    }
  }

  lemma {:induction false} SumConstant<T(!new)>(s: set<T>, w: T -> nat, c: nat)
    requires forall x | x in s :: w(x) == c
    ensures Sum(s, w) == |s| * c
    decreases |s|
  {
    if x :| x in s {
      SumConstant(s - {x}, w, c);
      SumWithout(s, w, x);
      assert |s| == |s - {x}| + 1;
      assert |s| * c == |s - {x}| * c + c;
    }
  }

  ghost function Union<I(!new), T(!new)>(idx: set<I>, part: I -> set<T>): set<T> {
    set i, x | i in idx && x in part(i) :: x
  }

  lemma UnionLess<I(!new), T(!new)>(idx: set<I>, part: I -> set<T>, i: I)
    requires i in idx
    requires forall j | j in idx && i != j :: part(i) !! part(j)
    ensures Union(idx, part) == Union(idx - {i}, part) + part(i)
    ensures Union(idx - {i}, part) !! part(i)
  {
    assert idx == idx - {i} + {i};
  }

  /** The sum over a union of disjoint parts is the sum of the parts' sums. */
  lemma {:induction false} UnionSum<I(!new), T(!new)>(idx: set<I>, part: I -> set<T>, w: T -> nat, v: I -> nat)
    requires forall i | i in idx :: Sum(part(i), w) == v(i)
    requires forall i, j | i in idx && j in idx && i != j :: part(i) !! part(j)
    ensures Sum(Union(idx, part), w) == Sum(idx, v)
    decreases |idx|
  {
    if i :| i in idx {
      var rest := idx - {i};
      UnionLess(idx, part, i);
      UnionSum(rest, part, w, v);
      hide Union;
      SumDisjoint(Union(rest, part), part(i), w);
      SumWithout(idx, v, i);
    } else {
      assert Union(idx, part) == {};
    }
  }

  /** The size of a union of disjoint parts is the sum of their sizes. */
  lemma {:induction false} UnionCount<I(!new), T(!new)>(idx: set<I>, part: I -> set<T>, v: I -> nat)
    requires forall i | i in idx :: |part(i)| == v(i)
    requires forall i, j | i in idx && j in idx && i != j :: part(i) !! part(j)
    ensures |Union(idx, part)| == Sum(idx, v)
    decreases |idx|
  {
    if i :| i in idx {
      var rest := idx - {i};
      UnionLess(idx, part, i);
      UnionCount(rest, part, v);
      hide Union;
      assert |Union(rest, part) + part(i)| == |Union(rest, part)| + |part(i)|;
      SumWithout(idx, v, i);
    } else {
      assert Union(idx, part) == {};
    }
  }

  ghost function Image<A(!new), B(!new)>(s: set<A>, f: A -> B): set<B> {
    set x | x in s :: f(x)
  }

  /** Distinct elements have distinct images. */
  lemma {:induction false} ImageSize<A(!new), B(!new)>(s: set<A>, f: A -> B)
    requires forall x, y | x in s && y in s && f(x) == f(y) :: x == y
    ensures |Image(s, f)| == |s|
    decreases |s|
  {
    if x :| x in s {
      var rest := s - {x};
      ImageSize(rest, f);
      assert Image(s, f) == Image(rest, f) + {f(x)};
      assert f(x) !in Image(rest, f);
    } else {
      assert Image(s, f) == {};
    }
  }

  ghost function Row<A(!new), B(!new), C(!new)>(b: set<B>, g: (A, B) -> C): A -> set<C> {
    (x: A) => Image(b, (y: B) => g(x, y))
  }

  ghost function PairImage<A(!new), B(!new), C(!new)>(a: set<A>, b: set<B>, g: (A, B) -> C): set<C> {
    Union(a, Row(b, g))
  }

  lemma InPairImage<A(!new), B(!new), C(!new)>(a: set<A>, b: set<B>, g: (A, B) -> C, z: C)
    ensures z in PairImage(a, b, g) <==> exists x, y :: x in a && y in b && g(x, y) == z
  {
    forall x | x in a ensures z in Row(b, g)(x) <==> exists y :: y in b && g(x, y) == z {
      var f := (y: B) => g(x, y);
      assert Row(b, g)(x) == Image(b, f);
      if y :| y in b && g(x, y) == z {
        assert f(y) in Image(b, f);
      }
    }
    if x, y :| x in a && y in b && g(x, y) == z {
      assert z in Row(b, g)(x);
    }
  }

  /** An injective pairing has as many images as there are pairs. */
  lemma PairImageSize<A(!new), B(!new), C(!new)>(a: set<A>, b: set<B>, g: (A, B) -> C)
    requires forall x, x', y, y' | x in a && x' in a && y in b && y' in b && g(x, y) == g(x', y') :: x == x' && y == y'
    ensures |PairImage(a, b, g)| == |a| * |b|
  {
    var part := Row(b, g);
    var v := (_: A) => |b|;
    forall x | x in a ensures |part(x)| == v(x) {
      var f := (y: B) => g(x, y);
      assert forall y :: f(y) == g(x, y);
      ImageSize(b, f);
    }
    UnionCount(a, part, v);
    SumConstant(a, v, |b|);
  }
}
