/** Ascending order, standing in for the built-in sort. */
module Sorting {

  ghost predicate Ascends(q: seq<int>) {
    forall i, j :: 0 <= i < j < |q| ==> q[i] < q[j]
  }

  ghost predicate NonDecreasing(q: seq<int>) {
    forall i, j :: 0 <= i < j < |q| ==> q[i] <= q[j]
  }

  lemma NoneIsEmpty<T>(s: set<T>)
    requires forall v :: v !in s
    ensures s == {}
  {
  }

  lemma SomeMember(s: set<int>)
    requires s != {}
    ensures exists v :: v in s
  {
    if forall v :: v !in s {
      NoneIsEmpty(s);
    }
  }

  lemma {:induction false} MinExists(s: set<int>)
    requires s != {}
    ensures exists m :: m in s && forall x :: x in s ==> m <= x
  {
    SomeMember(s);
    var v :| v in s;
    if s == {v} {
    } else {
      var rest := s - {v};
      MinExists(rest);
      var m :| m in rest && forall x :: x in rest ==> m <= x;
      var n := if v < m then v else m;
      forall x | x in s ensures n <= x {
        if x != v {
          assert x in rest;
        }
      }
    }
  }

  function Min(s: set<int>): (m: int)
    requires s != {}
    ensures m in s && forall x :: x in s ==> m <= x
  {
    MinExists(s);
    var m :| m in s && forall x :: x in s ==> m <= x;
    m
  }

  /** The members of a set, ascending. */
  function Ascending(s: set<int>): (q: seq<int>)
    ensures Ascends(q)
    ensures forall x :: x in q <==> x in s
  {
    if s == {} then
      []
    else
      var m := Min(s);
      var rest := Ascending(s - {m});
      assert forall x :: x in rest ==> m < x;
      [m] + rest
  }

  lemma SmallFirst(x: int, q: seq<int>, m: multiset<int>)
    requires NonDecreasing(q) && multiset(q) == m
    requires forall y :: y in m ==> x <= y
    ensures NonDecreasing([x] + q)
  {
    forall i | 0 <= i < |q| ensures x <= q[i] {
      assert q[i] in multiset(q);
    }
  }

  function Insert(x: int, q: seq<int>): (r: seq<int>)
    requires NonDecreasing(q)
    ensures NonDecreasing(r)
    ensures multiset(r) == multiset(q) + multiset{x}
  {
    if q == [] || x <= q[0] then
      [x] + q
    else
      assert q == [q[0]] + q[1..];
      SmallFirst(q[0], Insert(x, q[1..]), multiset(q[1..]) + multiset{x});
      [q[0]] + Insert(x, q[1..])
  }

  /** The values of a list in non-decreasing order, each as often as it occurs. */
  function Sort(q: seq<int>): (r: seq<int>)
    ensures NonDecreasing(r)
    ensures multiset(r) == multiset(q)
  {
    if q == [] then
      []
    else
      assert q == q[..|q| - 1] + [q[|q| - 1]];
      Insert(q[|q| - 1], Sort(q[..|q| - 1]))
  }
}
