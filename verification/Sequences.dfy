// Sequence facts shared by the server and the process-manager models.
module Sequences {

  // s without any occurrence of x, order kept.
  function Without(s: seq<int>, x: int): (r: seq<int>)
    ensures x !in r
    ensures |r| <= |s|
    ensures x !in s ==> r == s
    ensures forall y :: y in r <==> y in s && y != x
  {
    if s == [] then []
    else if s[0] == x then Without(s[1..], x)
    else
      assert s == [s[0]] + s[1..];
      [s[0]] + Without(s[1..], x)
  }

  ghost predicate Distinct(s: seq<int>) {
    forall i, j :: 0 <= i < j < |s| ==> s[i] != s[j]
  }

  lemma {:induction false} WithoutConcat(a: seq<int>, b: seq<int>, x: int)
    ensures Without(a + b, x) == Without(a, x) + Without(b, x)
  {
    if a == [] {
      assert a + b == b;
    } else {
      assert (a + b)[1..] == a[1..] + b;
      WithoutConcat(a[1..], b, x);
    }
  }

  lemma {:induction false} WithoutDistinct(s: seq<int>, x: int)
    requires Distinct(s)
    ensures Distinct(Without(s, x))
  {
    if s != [] {
      WithoutDistinct(s[1..], x);
      assert s[0] !in s[1..];
    }
  }

  // s with the first occurrence of x, if any, taken out.
  function RemoveFirst(s: seq<int>, x: int): seq<int> {
    if s == [] then []
    else if s[0] == x then s[1..]
    else [s[0]] + RemoveFirst(s[1..], x)
  }

  lemma {:induction false} RemoveFirstAt(s: seq<int>, k: nat)
    requires k < |s| && s[k] !in s[..k]
    ensures RemoveFirst(s, s[k]) == s[..k] + s[k + 1..]
  {
    if k > 0 {
      assert s[0] in s[..k];
      assert s[1..][..k - 1] == s[1..k];
      RemoveFirstAt(s[1..], k - 1);
      assert s[..k] + s[k + 1..] == [s[0]] + (s[1..][..k - 1] + s[1..][k..]);
    }
  }

  lemma {:induction false} RemoveFirstDistinct(s: seq<int>, x: int)
    requires Distinct(s)
    ensures RemoveFirst(s, x) == Without(s, x)
  {
    if s != [] {
      assert s[0] !in s[1..];
      RemoveFirstDistinct(s[1..], x);
    }
  }

  lemma {:induction false} DistinctFits(q: seq<int>, xs: set<int>)
    requires Distinct(q) && forall x :: x in q ==> x in xs
    ensures |q| <= |xs|
  {
    if q != [] {
      assert q[0] in q;
      assert q[0] in xs;
      assert q == [q[0]] + q[1..];
      assert |xs - {q[0]}| == |xs| - 1;
      DistinctFits(q[1..], xs - {q[0]});
    }
  }

  lemma NoMember(xs: set<int>)
    requires forall x :: x !in xs
    ensures xs == {}
  {
    assert forall x :: x in xs <==> x in {};
  }
}
