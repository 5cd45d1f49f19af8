/** Sorting a set of integers. */
module Ints {
  predicate Increasing(s: seq<int>) { forall i, j :: 0 <= i < j < |s| ==> s[i] < s[j] }

  lemma NoElement(s: set<int>)
    ensures (forall x :: x !in s) ==> s == {}
  {
    if forall x :: x !in s { assert s == {}; }
  }

  method Least(s: set<int>) returns (m: int)
    requires s != {}
    ensures m in s && forall x :: x in s ==> m <= x
  {
    NoElement(s);
    m :| m in s;
    var todo := s - {m};
    while todo != {}
      invariant m in s && todo <= s
      invariant forall x :: x in s && x !in todo ==> m <= x
      decreases |todo|
    {
      NoElement(todo);
      var x :| x in todo;
      todo := todo - {x};
      if x < m { m := x; }
    }
  }

  method SortInts(s: set<int>) returns (r: seq<int>)
    ensures Increasing(r) && forall x :: x in r <==> x in s
  {
    r := [];
    var todo := s;
    while todo != {}
      invariant todo <= s && Increasing(r)
      invariant forall x :: x in r <==> x in s && x !in todo
      invariant forall i, y :: 0 <= i < |r| && y in todo ==> r[i] < y
      decreases |todo|
    {
      var m := Least(todo);
      todo := todo - {m};
      r := r + [m];
    }
  }
}
