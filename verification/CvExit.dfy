// The exit of a process: whatever order its mutexes are released in, the same
// state results. The order of the grants does depend on it, and the exact
// condition under which it does not is stated here.
module CvExit {
  import opened Sequences
  import opened CvModel
  import opened CvInvariant

  // t is s after each mutex in `order` changed hands once.
  ghost predicate HandedOver(s: State, t: State, order: seq<int>) {
    && t.cvs == s.cvs
    && (forall n :: n in t.mutexes <==> n in s.mutexes && !(n in order && s.mutexes[n].queue == []))
    && (forall n :: n in t.mutexes ==>
          t.mutexes[n] == if n in order then Mutex(s.mutexes[n].queue[0], s.mutexes[n].queue[1..]) else s.mutexes[n])
  }

  lemma {:induction false} ReleaseAllEffect(s: State, order: seq<int>)
    requires Distinct(order) && forall m :: m in order ==> m in s.mutexes
    ensures HandedOver(s, ReleaseAll(s, order).state, order)
    decreases |order|
  {
    if order != [] {
      var rest := order[1..];
      assert order == [order[0]] + rest;
      assert order[0] !in rest;
      ReleaseAllEffect(Release(s, order[0]), rest);
    }
  }

  lemma {:induction false} ReleaseAllKeeps(s: State, order: seq<int>)
    requires Inv(s) && Distinct(order) && forall m :: m in order ==> m in s.mutexes
    ensures Inv(ReleaseAll(s, order).state)
    decreases |order|
  {
    if order != [] {
      assert order == [order[0]] + order[1..];
      ReleaseKeeps(s, order[0]);
      ReleaseAllKeeps(Release(s, order[0]), order[1..]);
    }
  }

  // Releasing in any order and then forgetting p is the order-free Departed.
  lemma DepartedAnyOrder(s: State, p: int, order: seq<int>)
    requires ReleaseOrder(s, p, order)
    ensures Departed(s, p) == Forget(ReleaseAll(s, order).state, p)
  {
    ReleaseAllEffect(s, order);
    var u, v := Departed(s, p), Forget(ReleaseAll(s, order).state, p);
    forall n ensures n in u.mutexes <==> n in v.mutexes {
      assert n in order <==> Owns(s, p, n);
    }
    forall n | n in u.mutexes ensures u.mutexes[n] == v.mutexes[n] {
      assert n in order <==> Owns(s, p, n);
    }
    assert u.mutexes == v.mutexes;
  }

  lemma {:induction false} SetAsSeq(xs: set<int>) returns (q: seq<int>)
    ensures Distinct(q) && forall x :: x in q <==> x in xs
  {
    if x :| x in xs {
      var rest := SetAsSeq(xs - {x});
      q := [x] + rest;
      assert x !in rest;
    } else {
      q := [];
    }
  }

  lemma OrderExists(s: State, p: int) returns (order: seq<int>)
    ensures ReleaseOrder(s, p, order)
  {
    order := SetAsSeq(set m | m in s.mutexes && s.mutexes[m].owner == p);
  }

  lemma DepartedKeeps(s: State, p: int)
    requires Inv(s)
    ensures Inv(Departed(s, p))
  {
    var order := OrderExists(s, p);
    DepartedAnyOrder(s, p, order);
    ReleaseAllKeeps(s, order);
    ForgetKeeps(ReleaseAll(s, order).state, p);
  }

  // After an exit the process owns nothing and stands nowhere.
  ghost predicate Absent(s: State, p: int) {
    p !in Blocked(s) && forall m :: !Owns(s, p, m)
  }

  lemma DepartedAbsent(s: State, p: int)
    requires Inv(s)
    ensures Absent(Departed(s, p), p)
  {
    var order := OrderExists(s, p);
    DepartedAnyOrder(s, p, order);
    ReleaseAllKeeps(s, order);
    ForgetKeeps(ReleaseAll(s, order).state, p);
    ReleaseAllEffect(s, order);
    forall m | m in s.mutexes && s.mutexes[m].owner == p && s.mutexes[m].queue != []
      ensures s.mutexes[m].queue[0] != p
    {
      assert s.mutexes[m].queue[0] in s.mutexes[m].queue;
    }
  }

  // The invariant holds after every step of every client and of the process
  // manager.
  lemma NextKeeps(s: State, r: Request)
    requires Inv(s) && Legal(s, r)
    ensures Inv(Next(s, r))
  {
    match r
    case Lock(p, m) => AcquireKeeps(s, p, m);
    case Unlock(p, m) => if Owns(s, p, m) { ReleaseKeeps(s, m); }
    case Wait(p, c, m) =>
      if Owns(s, p, m) {
        ReleaseKeeps(s, m);
        if Queue(s, m) != [] { assert Queue(s, m)[0] in s.mutexes[m].queue; }
        ParkKeeps(Release(s, m), p, c, m);
      }
    case Broadcast(p, c) => WakeAllKeeps(s, c);
    case Unknown(p) =>
    case Interrupt(p) => ForgetKeeps(s, p);
    case Exit(p) => DepartedKeeps(s, p);
  }

  // -------------------------------------------------------- the reply order

  // The grants of the mutexes in `order`, all read off the state before.
  function Grants(s: State, order: seq<int>): seq<Reply>
    requires forall m :: m in order ==> m in s.mutexes
  {
    if order == [] then []
    else ReleaseReplies(s, order[0]) + Grants(s, order[1..])
  }

  lemma {:induction false} GrantsFrame(s: State, t: State, order: seq<int>)
    requires forall m :: m in order ==> m in s.mutexes && m in t.mutexes && s.mutexes[m] == t.mutexes[m]
    ensures Grants(s, order) == Grants(t, order)
  {
    if order != [] {
      GrantsFrame(s, t, order[1..]);
    }
  }

  lemma {:induction false} RepliesAreGrants(s: State, order: seq<int>)
    requires Distinct(order) && forall m :: m in order ==> m in s.mutexes
    ensures ReleaseAll(s, order).replies == Grants(s, order)
    decreases |order|
  {
    if order != [] {
      assert order == [order[0]] + order[1..];
      assert order[0] !in order[1..];
      RepliesAreGrants(Release(s, order[0]), order[1..]);
      GrantsFrame(s, Release(s, order[0]), order[1..]);
    }
  }

  ghost predicate Contended(s: State, p: int, m: int) {
    Owns(s, p, m) && Queue(s, m) != []
  }

  // Every contended mutex of p yields one grant, to the head of its queue, and
  // there is no other reply.
  lemma {:induction false} GrantsExact(s: State, order: seq<int>, r: Reply)
    requires forall m :: m in order ==> m in s.mutexes
    ensures r in Grants(s, order) <==> exists m :: m in order && Queue(s, m) != [] && r == Reply(Queue(s, m)[0], Ok)
  {
    if order != [] {
      var n, rest := order[0], order[1..];
      GrantsExact(s, rest, r);
      if r in Grants(s, rest) {
        var m :| m in rest && Queue(s, m) != [] && r == Reply(Queue(s, m)[0], Ok);
        assert m in order;
      }
      if m :| m in order && Queue(s, m) != [] && r == Reply(Queue(s, m)[0], Ok) {
        if m == n {
          assert r in ReleaseReplies(s, n);
        } else {
          assert m in rest;
        }
      }
      assert n in order;
    }
  }

  lemma {:induction false} GrantsOnce(s: State, order: seq<int>)
    requires OnePlace(s) && Distinct(order) && forall m :: m in order ==> m in s.mutexes
    ensures forall i, j :: 0 <= i < j < |Grants(s, order)| ==> Grants(s, order)[i].to != Grants(s, order)[j].to
  {
    if order != [] {
      var m, rest := order[0], order[1..];
      assert order == [m] + rest;
      assert m !in rest;
      GrantsOnce(s, rest);
      if Queue(s, m) != [] {
        forall j | 0 <= j < |Grants(s, rest)| ensures Grants(s, rest)[j].to != Queue(s, m)[0] {
          var r := Grants(s, rest)[j];
          GrantsExact(s, rest, r);
          var n :| n in rest && Queue(s, n) != [] && r == Reply(Queue(s, n)[0], Ok);
          assert Queue(s, n)[0] in At(s, InQueue(n));
          assert Queue(s, m)[0] in At(s, InQueue(m));
        }
      }
    }
  }

  // What an exit answers, in every order the server may use.
  lemma ExitReplies(s: State, p: int, rs: seq<Reply>)
    requires Inv(s) && Produces(s, Exit(p), rs)
    ensures forall r :: r in rs <==> exists m :: Contended(s, p, m) && r == Reply(Queue(s, m)[0], Ok)
    ensures forall i, j :: 0 <= i < j < |rs| ==> rs[i].to != rs[j].to
    ensures forall r :: r in rs ==> r.to != p
  {
    var order :| ReleaseOrder(s, p, order) && rs == ReleaseAll(s, order).replies;
    RepliesAreGrants(s, order);
    GrantsOnce(s, order);
    forall r ensures r in rs <==> exists m :: Contended(s, p, m) && r == Reply(Queue(s, m)[0], Ok) {
      GrantsExact(s, order, r);
      if m :| m in order && Queue(s, m) != [] && r == Reply(Queue(s, m)[0], Ok) {
        assert Contended(s, p, m);
      }
      if m :| Contended(s, p, m) && r == Reply(Queue(s, m)[0], Ok) {
        assert m in order;
      }
    }
    forall r | r in rs ensures r.to != p {
      var m :| Contended(s, p, m) && r == Reply(Queue(s, m)[0], Ok);
      assert Queue(s, m)[0] in s.mutexes[m].queue;
    }
  }

  lemma {:induction false} GrantsSkip(s: State, order: seq<int>, m: int)
    requires forall n :: n in order ==> n in s.mutexes && (Queue(s, n) != [] ==> n == m)
    requires Distinct(order)
    ensures Grants(s, order) == if m in order then ReleaseReplies(s, m) else []
  {
    if order != [] {
      assert order == [order[0]] + order[1..];
      assert order[0] !in order[1..];
      assert order[0] != m ==> Queue(s, order[0]) == [];
      GrantsSkip(s, order[1..], m);
    }
  }

  // The replies of an exit are determined by the abstract state if and only if
  // the process holds at most one mutex that somebody queues for.
  ghost predicate OrderMatters(s: State, p: int) {
    exists rs, rs' :: Produces(s, Exit(p), rs) && Produces(s, Exit(p), rs') && rs != rs'
  }

  lemma ExitOrderDetermined(s: State, p: int)
    requires Inv(s)
    ensures OrderMatters(s, p) <==> exists m, n :: m != n && Contended(s, p, m) && Contended(s, p, n)
  {
    if m, n :| m != n && Contended(s, p, m) && Contended(s, p, n) {
      OrderMattersWhenContended(s, p, m, n);
    } else {
      forall rs, rs' | Produces(s, Exit(p), rs) && Produces(s, Exit(p), rs') ensures rs == rs' {
        var o :| ReleaseOrder(s, p, o) && rs == ReleaseAll(s, o).replies;
        var o' :| ReleaseOrder(s, p, o') && rs' == ReleaseAll(s, o').replies;
        RepliesAreGrants(s, o);
        RepliesAreGrants(s, o');
        var m := if exists n :: Contended(s, p, n) then var n :| Contended(s, p, n); n else 0;
        assert forall n :: Contended(s, p, n) ==> n == m;
        assert forall n :: Owns(s, p, n) && Queue(s, n) != [] ==> Contended(s, p, n);
        GrantsSkip(s, o, m);
        GrantsSkip(s, o', m);
      }
    }
  }

  lemma OrderMattersWhenContended(s: State, p: int, m: int, n: int)
    requires Inv(s) && m != n && Contended(s, p, m) && Contended(s, p, n)
    ensures OrderMatters(s, p)
  {
    var o := OrderExists(s, p);
    var rest := Without(Without(o, m), n);
    WithoutDistinct(o, m);
    WithoutDistinct(Without(o, m), n);
    var o1, o2 := [m, n] + rest, [n, m] + rest;
    assert ReleaseOrder(s, p, o1);
    assert ReleaseOrder(s, p, o2);
    RepliesAreGrants(s, o1);
    RepliesAreGrants(s, o2);
    var rs1, rs2 := ReleaseAll(s, o1).replies, ReleaseAll(s, o2).replies;
    assert rs1[0] == Reply(Queue(s, m)[0], Ok);
    assert rs2[0] == Reply(Queue(s, n)[0], Ok);
    assert Queue(s, m)[0] in At(s, InQueue(m));
    assert Queue(s, n)[0] in At(s, InQueue(n));
    assert Produces(s, Exit(p), rs1) && Produces(s, Exit(p), rs2);
  }
}
