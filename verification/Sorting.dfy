/** Sorting by any total order, as `sorted` does it. */
module Sorting {

  type Order<!T> = (T, T) -> bool

  ghost predicate IsTotalOrder<T(!new)>(leq: Order<T>) {
    && (forall a, b :: leq(a, b) || leq(b, a))
    && (forall a, b :: leq(a, b) && leq(b, a) ==> a == b)
    && (forall a, b, c :: leq(a, b) && leq(b, c) ==> leq(a, c))
  }

  ghost predicate Ordered<T>(s: seq<T>, leq: Order<T>) {
    forall i, j :: 0 <= i < j < |s| ==> leq(s[i], s[j])
  }

  function Insert<T>(x: T, s: seq<T>, leq: Order<T>): (r: seq<T>)
    ensures multiset(r) == multiset(s) + multiset{x}
  {
    if s == [] || leq(x, s[0]) then
      [x] + s
    else
      assert s == [s[0]] + s[1..];
      [s[0]] + Insert(x, s[1..], leq)
  }

  function Sort<T>(s: seq<T>, leq: Order<T>): (r: seq<T>)
    ensures multiset(r) == multiset(s)
  {
    if s == [] then []
    else
      assert s == [s[0]] + s[1..];
      Insert(s[0], Sort(s[1..], leq), leq)
  }

  lemma {:induction false} InsertOrdered<T(!new)>(x: T, s: seq<T>, leq: Order<T>)
    requires IsTotalOrder(leq) && Ordered(s, leq)
    ensures Ordered(Insert(x, s, leq), leq)
  {
    if s != [] && !leq(x, s[0]) {
      var rest := Insert(x, s[1..], leq);
      InsertOrdered(x, s[1..], leq);
      forall i | 0 <= i < |rest| ensures leq(s[0], rest[i]) {
        assert rest[i] in multiset(rest);
        assert rest[i] in multiset(s[1..]) + multiset{x};
      }
    }
  }

  lemma {:induction false} SortOrdered<T(!new)>(s: seq<T>, leq: Order<T>)
    requires IsTotalOrder(leq)
    ensures Ordered(Sort(s, leq), leq)
  {
    if s != [] {
      SortOrdered(s[1..], leq);
      InsertOrdered(s[0], Sort(s[1..], leq), leq);
    }
  }

  lemma SortMembers<T>(s: seq<T>, leq: Order<T>)
    ensures |Sort(s, leq)| == |s|
    ensures forall x :: x in Sort(s, leq) <==> x in s
  {
    var t := Sort(s, leq);
    assert |t| == |multiset(t)| == |multiset(s)| == |s|;
    assert forall x :: x in t <==> x in multiset(t);
    assert forall x :: x in s <==> x in multiset(s);
  }

  lemma Cancel<T>(m: multiset<T>, n: multiset<T>, x: T)
    requires m + multiset{x} == n + multiset{x}
    ensures m == n
  {
    forall y ensures m[y] == n[y] {
      assert (m + multiset{x})[y] == (n + multiset{x})[y];
    }
  }

  lemma FirstIsLeast<T(!new)>(s: seq<T>, t: seq<T>, leq: Order<T>)
    requires IsTotalOrder(leq) && Ordered(s, leq)
    requires multiset(s) == multiset(t) && s != [] && t != []
    ensures leq(s[0], t[0])
  {
    assert t[0] in multiset(t);
    assert t[0] in multiset(s);
    var j :| 0 <= j < |s| && s[j] == t[0];
  }

  lemma Unhead<T>(s: seq<T>)
    requires s != []
    ensures multiset(s) == multiset(s[1..]) + multiset{s[0]}
  {
    assert s == [s[0]] + s[1..];
  }

  /** Two ordered lists with the same elements are the same list. */
  lemma {:induction false} OrderedUnique<T(!new)>(s: seq<T>, t: seq<T>, leq: Order<T>)
    requires IsTotalOrder(leq) && Ordered(s, leq) && Ordered(t, leq)
    requires multiset(s) == multiset(t)
    ensures s == t
    decreases |s|
  {
    assert |s| == |multiset(s)| && |t| == |multiset(t)|;
    if s != [] {
      FirstIsLeast(s, t, leq);
      FirstIsLeast(t, s, leq);
      Unhead(s);
      Unhead(t);
      Cancel(multiset(s[1..]), multiset(t[1..]), s[0]);
      OrderedUnique(s[1..], t[1..], leq);
    }
  }

  lemma SortPermutes<T(!new)>(s: seq<T>, t: seq<T>, leq: Order<T>)
    requires IsTotalOrder(leq) && multiset(s) == multiset(t)
    ensures Sort(s, leq) == Sort(t, leq)
  {
    SortOrdered(s, leq);
    SortOrdered(t, leq);
    OrderedUnique(Sort(s, leq), Sort(t, leq), leq);
  }
}
