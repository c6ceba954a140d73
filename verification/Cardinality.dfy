/** Sizes of finite sets: subsets, images, ranges and products. */
module Cardinality {

  lemma {:induction false} SubsetSize<T>(a: set<T>, b: set<T>)
    requires a <= b
    ensures |a| <= |b|
  {
    if a != {} {
      var x :| x in a;
      SubsetSize(a - {x}, b - {x});
    }
  }

  /** A subset as large as the whole is the whole. */
  lemma FullSubset<T>(a: set<T>, b: set<T>)
    requires a <= b && |a| == |b|
    ensures a == b
  {
    if a != b {
      var x :| x in b && x !in a;
      SubsetSize(a, b - {x});
    }
  }

  ghost function Image<A(!new), B>(s: set<A>, f: A -> B): (t: set<B>) {
    set x | x in s :: f(x)
  }

  ghost predicate InjectiveOn<A(!new), B>(s: set<A>, f: A -> B) {
    forall x, y :: x in s && y in s && f(x) == f(y) ==> x == y
  }

  lemma {:induction false} ImageSize<A(!new), B>(s: set<A>, f: A -> B)
    requires InjectiveOn(s, f)
    ensures |Image(s, f)| == |s|
    decreases |s|
  {
    if s != {} {
      var x :| x in s;
      var rest := s - {x};
      ImageSize(rest, f);
      assert Image(s, f) == Image(rest, f) + {f(x)};
      assert f(x) !in Image(rest, f);
    }
  }

  function Below(n: nat): (s: set<nat>)
    ensures forall i: nat :: i in s <==> i < n
    ensures |s| == n
  {
    if n == 0 then {} else Below(n - 1) + {n - 1}
  }

  ghost function Times<A(!new), B(!new)>(a: set<A>, b: set<B>): (s: set<(A, B)>) {
    set x, y | x in a && y in b :: (x, y)
  }

  lemma {:induction false} TimesSize<A(!new), B(!new)>(a: set<A>, b: set<B>)
    ensures |Times(a, b)| == |a| * |b|
    decreases |a|
  {
    if a == {} {
      assert Times(a, b) == {};
    } else {
      var x :| x in a;
      var rest := a - {x};
      TimesSize(rest, b);
      var row := Image(b, (y: B) => (x, y));
      ImageSize(b, (y: B) => (x, y));
      assert Times(a, b) == Times(rest, b) + row;
      assert Times(rest, b) !! row;
      assert |a| * |b| == |rest| * |b| + |b|;
    }
  }
}
