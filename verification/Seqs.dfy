/** What several modules need to say of lists. */
module Seqs {
  function Min(a: int, b: int): int { if a <= b then a else b }

  ghost predicate NoDup<T>(q: seq<T>) { forall i, j :: 0 <= i < j < |q| ==> q[i] != q[j] }

  /** The list without the elements of s. */
  function Without<T(==)>(q: seq<T>, s: set<T>): seq<T>
    decreases |q|
  {
    if q == [] then [] else (if q[0] in s then [] else [q[0]]) + Without(q[1..], s)
  }

  lemma {:induction false} WithoutIs<T>(q: seq<T>, s: set<T>)
    requires NoDup(q)
    ensures NoDup(Without(q, s)) && forall x :: x in Without(q, s) <==> x in q && x !in s
    decreases |q|
  {
    if q == [] {
    } else {
      assert q == [q[0]] + q[1..] && q[0] !in q[1..];
      WithoutIs(q[1..], s);
      var rest := Without(q[1..], s);
      assert forall x :: x in Without(q, s) <==> x in rest || (x == q[0] && x !in s);
    }
  }

  lemma {:induction false} WithoutAppend<T>(p: seq<T>, q: seq<T>, s: set<T>)
    ensures Without(p + q, s) == Without(p, s) + Without(q, s)
    decreases |p|
  {
    if p == [] {
      assert p + q == q;
    } else {
      assert (p + q)[1..] == p[1..] + q;
      WithoutAppend(p[1..], q, s);
    }
  }

  lemma WithoutOne<T>(x: T, s: set<T>)
    ensures Without([x], s) == if x in s then [] else [x]
  {
    assert [x][1..] == [];
  }

  lemma {:induction false} WithoutNone<T>(q: seq<T>, s: set<T>)
    requires forall x :: x in q ==> x !in s
    ensures Without(q, s) == q
    decreases |q|
  {
    if q != [] {
      assert q == [q[0]] + q[1..];
      WithoutNone(q[1..], s);
    }
  }

  /** Elements that stay come from places in the same order. */
  lemma {:induction false} WithoutOrder<T>(q: seq<T>, s: set<T>, i: int, j: int) returns (a: int, b: int)
    requires 0 <= i < j < |Without(q, s)|
    ensures 0 <= a < b < |q| && Without(q, s)[i] == q[a] && Without(q, s)[j] == q[b]
    decreases |q|
  {
    if q[0] in s {
      a, b := WithoutOrder(q[1..], s, i, j);
      a, b := a + 1, b + 1;
    } else if i == 0 {
      b := WithoutIndex(q[1..], s, j - 1);
      a, b := 0, b + 1;
    } else {
      a, b := WithoutOrder(q[1..], s, i - 1, j - 1);
      a, b := a + 1, b + 1;
    }
  }

  lemma {:induction false} WithoutIndex<T>(q: seq<T>, s: set<T>, j: int) returns (b: int)
    requires 0 <= j < |Without(q, s)|
    ensures 0 <= b < |q| && Without(q, s)[j] == q[b]
    decreases |q|
  {
    if q[0] in s {
      b := WithoutIndex(q[1..], s, j);
      b := b + 1;
    } else if j == 0 {
      b := 0;
    } else {
      b := WithoutIndex(q[1..], s, j - 1);
      b := b + 1;
    }
  }
}
