/** Finite sums over sets. */
module Sums {

  /** Sum of `f` over a finite set. */
  ghost function SumSet<T(!new)>(s: set<T>, f: T -> int): (n: int)
    decreases |s|
  {
    if s == {} then 0
    else
      var x :| x in s;
      f(x) + SumSet(s - {x}, f)
  }

  /** Any element may be taken out first. */
  lemma {:induction false} SumTake<T(!new)>(s: set<T>, x: T, f: T -> int)
    requires x in s
    ensures SumSet(s, f) == f(x) + SumSet(s - {x}, f)
    decreases |s|
  {
    var y :| y in s && SumSet(s, f) == f(y) + SumSet(s - {y}, f);
    if y != x {
      SumTake(s - {y}, x, f);
      SumTake(s - {x}, y, f);
      assert s - {y} - {x} == s - {x} - {y};
    }
  }

  lemma SumAdd<T(!new)>(s: set<T>, x: T, f: T -> int)
    requires x !in s
    ensures SumSet(s + {x}, f) == f(x) + SumSet(s, f)
  {
    SumTake(s + {x}, x, f);
    assert s + {x} - {x} == s;
  }

  lemma SumOneMore<T(!new)>(a: set<T>, b: set<T>, x: T, f: T -> int)
    requires a !! b && x in b
    ensures SumSet(a + b, f) == f(x) + SumSet(a + (b - {x}), f)
  {
    var most := a + (b - {x});
    assert a + b == most + {x};
    SumAdd(most, x, f);
  }

  lemma {:induction false} SumUnion<T(!new)>(a: set<T>, b: set<T>, f: T -> int)
    requires a !! b
    ensures SumSet(a + b, f) == SumSet(a, f) + SumSet(b, f)
    decreases |b|
  {
    if b == {} {
      assert a + b == a;
    } else {
      var x :| x in b;
      var rest := b - {x};
      SumTake(b, x, f);
      SumUnion(a, rest, f);
      SumOneMore(a, b, x, f);
    }
  }

  lemma {:induction false} SumAgree<T(!new)>(s: set<T>, f: T -> int, g: T -> int)
    requires forall x <- s :: f(x) == g(x)
    ensures SumSet(s, f) == SumSet(s, g)
    decreases |s|
  {
    if s != {} {
      var x :| x in s;
      SumTake(s, x, f);
      SumTake(s, x, g);
      SumAgree(s - {x}, f, g);
    }
  }

  lemma {:induction false} SumPlus<T(!new)>(s: set<T>, f: T -> int, g: T -> int, h: T -> int)
    requires forall x <- s :: h(x) == f(x) + g(x)
    ensures SumSet(s, h) == SumSet(s, f) + SumSet(s, g)
    decreases |s|
  {
    if s != {} {
      var x :| x in s;
      SumTake(s, x, f);
      SumTake(s, x, g);
      SumTake(s, x, h);
      SumPlus(s - {x}, f, g, h);
    }
  }

  /** The keys that a map sends into a set. */
  ghost function Preimage<K, V>(m: map<K, V>, values: set<V>): (r: set<K>) {
    set k | k in m && m[k] in values
  }

  lemma PreimageSplit<K, V>(m: map<K, V>, values: set<V>, v: V)
    requires v in values
    ensures Preimage(m, values) == Preimage(m, values - {v}) + Preimage(m, {v})
    ensures Preimage(m, values - {v}) !! Preimage(m, {v})
  {
  }

  /** Summing fibre by fibre is summing over the whole preimage. */
  lemma {:induction false} SumFibres<K(!new), V(!new)>(values: set<V>, m: map<K, V>, g: K -> int, total: V -> int)
    requires forall v <- values :: total(v) == SumSet(Preimage(m, {v}), g)
    ensures SumSet(values, total) == SumSet(Preimage(m, values), g)
    decreases |values|
  {
    if values == {} {
      assert Preimage(m, values) == {};
    } else {
      var v :| v in values;
      var rest := values - {v};
      SumTake(values, v, total);
      SumFibres(rest, m, g, total);
      PreimageSplit(m, values, v);
      SumUnion(Preimage(m, rest), Preimage(m, {v}), g);
    }
  }

  /** Summing over an image is summing over what it is the image of. */
  lemma {:induction false} SumImage<A(!new), B(!new)>(s: set<A>, name: A -> B, f: B -> int, g: A -> int)
    requires forall x, y :: x in s && y in s && name(x) == name(y) ==> x == y
    requires forall x <- s :: f(name(x)) == g(x)
    ensures SumSet((set x | x in s :: name(x)), f) == SumSet(s, g)
    decreases |s|
  {
    if s == {} {
      assert (set x | x in s :: name(x)) == {};
    } else {
      var y :| y in s;
      var rest := s - {y};
      SumImage(rest, name, f, g);
      assert (set x | x in s :: name(x)) == (set x | x in rest :: name(x)) + {name(y)};
      SumAdd((set x | x in rest :: name(x)), name(y), f);
      SumTake(s, y, g);
    }
  }

  lemma OneTimesMore(n: nat, k: int)
    ensures (n + 1) * k == n * k + k
  {
  }

  lemma {:induction false} SumConstant<T(!new)>(s: set<T>, f: T -> int, k: int)
    requires forall x <- s :: f(x) == k
    ensures SumSet(s, f) == |s| * k
    decreases |s|
  {
    if s != {} {
      var x :| x in s;
      var rest := s - {x};
      SumTake(s, x, f);
      SumConstant(rest, f, k);
      OneTimesMore(|rest|, k);
    }
  }
}
