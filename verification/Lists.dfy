/** Filtering lists, and what of it does not depend on order. */
module Lists {
  import opened Common
  import Sorting

  /** Keeps and transforms the elements `f` is defined on, in order. */
  function FilterMap<A, B>(s: seq<A>, f: A -> Option<B>): (r: seq<B>) {
    if s == [] then []
    else (if f(s[0]).Some? then [f(s[0]).value] else []) + FilterMap(s[1..], f)
  }

  lemma {:induction false} FilterMapAppend<A, B>(s: seq<A>, t: seq<A>, f: A -> Option<B>)
    ensures FilterMap(s + t, f) == FilterMap(s, f) + FilterMap(t, f)
  {
    if s == [] {
      assert s + t == t;
    } else {
      assert (s + t)[1..] == s[1..] + t && (s + t)[0] == s[0];
      FilterMapAppend(s[1..], t, f);
      var head := if f(s[0]).Some? then [f(s[0]).value] else [];
      Assoc(head, FilterMap(s[1..], f), FilterMap(t, f));
    }
  }

  lemma FilterMapOne<A, B>(x: A, f: A -> Option<B>)
    ensures FilterMap([x], f) == if f(x).Some? then [f(x).value] else []
  {
    assert [x][1..] == [];
  }

  /** An element of a list can be taken out of it. */
  lemma TakeOut<A>(t: seq<A>, x: A, m: multiset<A>) returns (a: seq<A>, b: seq<A>)
    requires multiset(t) == m + multiset{x}
    ensures t == a + ([x] + b) && multiset(a + b) == m
  {
    assert x in multiset(t);
    var i :| 0 <= i < |t| && t[i] == x;
    a, b := t[..i], t[i + 1..];
    assert t == a + ([x] + b);
    Sorting.Cancel(multiset(a + b), m, x);
  }

  /** What an element contributes to the output. */
  function Kept<A, B>(x: A, f: A -> Option<B>): (m: multiset<B>) {
    if f(x).Some? then multiset{f(x).value} else multiset{}
  }

  lemma FilterMapMiddle<A, B>(a: seq<A>, x: A, b: seq<A>, f: A -> Option<B>)
    ensures multiset(FilterMap(a + ([x] + b), f)) == multiset(FilterMap(a + b, f)) + Kept(x, f)
  {
    FilterMapAppend(a, b, f);
    FilterMapAppend(a, [x] + b, f);
    FilterMapAppend([x], b, f);
    FilterMapOne(x, f);
  }

  lemma FilterMapHead<A, B>(s: seq<A>, f: A -> Option<B>)
    requires s != []
    ensures multiset(s) == multiset(s[1..]) + multiset{s[0]}
    ensures multiset(FilterMap(s, f)) == multiset(FilterMap(s[1..], f)) + Kept(s[0], f)
  {
    assert s == [s[0]] + s[1..];
  }

  /** Reordering the input reorders the output. */
  lemma {:induction false} FilterMapPermutes<A, B>(s: seq<A>, t: seq<A>, f: A -> Option<B>)
    requires multiset(s) == multiset(t)
    ensures multiset(FilterMap(s, f)) == multiset(FilterMap(t, f))
    decreases |s|
  {
    if s == [] {
      assert |t| == |multiset(t)| == |multiset(s)| == 0;
    } else {
      FilterMapHead(s, f);
      var a, b := TakeOut(t, s[0], multiset(s[1..]));
      FilterMapPermutes(s[1..], a + b, f);
      FilterMapMiddle(a, s[0], b, f);
    }
  }

  /** Two passes are one. */
  lemma {:induction false} FilterMapTwice<A, B, C>(s: seq<A>, f: A -> Option<B>, g: B -> Option<C>, h: A -> Option<C>)
    requires forall x <- s :: h(x) == if f(x).Some? then g(f(x).value) else None
    ensures FilterMap(FilterMap(s, f), g) == FilterMap(s, h)
  {
    if s != [] {
      var rest := FilterMap(s[1..], f);
      FilterMapTwice(s[1..], f, g, h);
      if f(s[0]).Some? {
        assert ([f(s[0]).value] + rest)[1..] == rest;
      } else {
        assert FilterMap(s, f) == rest;
      }
    }
  }

  lemma {:induction false} FilterMapMembers<A, B>(s: seq<A>, f: A -> Option<B>, y: B)
    ensures y in FilterMap(s, f) <==> exists x :: x in s && f(x) == Some(y)
  {
    if s != [] {
      FilterMapMembers(s[1..], f, y);
      assert s == [s[0]] + s[1..];
      assert FilterMap(s, f) == (if f(s[0]).Some? then [f(s[0]).value] else []) + FilterMap(s[1..], f);
    }
  }

  /** Every output comes from an input. */
  lemma FilterMapAllOutputs<A, B>(s: seq<A>, f: A -> Option<B>, p: B -> bool)
    requires forall x <- s :: f(x).Some? ==> p(f(x).value)
    ensures forall i :: 0 <= i < |FilterMap(s, f)| ==> p(FilterMap(s, f)[i])
  {
    forall i | 0 <= i < |FilterMap(s, f)| ensures p(FilterMap(s, f)[i]) {
      FilterMapMembers(s, f, FilterMap(s, f)[i]);
    }
  }

  /** A pass that keeps everything as it is. */
  lemma {:induction false} FilterMapId<A>(s: seq<A>, f: A -> Option<A>)
    requires forall x <- s :: f(x) == Some(x)
    ensures FilterMap(s, f) == s
  {
    if s != [] {
      FilterMapId(s[1..], f);
      assert s == [s[0]] + s[1..];
    }
  }

  /** A pass that drops everything. */
  lemma {:induction false} FilterMapNone<A, B>(s: seq<A>, f: A -> Option<B>)
    requires forall x <- s :: f(x).None?
    ensures FilterMap(s, f) == []
  {
    if s != [] {
      FilterMapNone(s[1..], f);
    }
  }
}
