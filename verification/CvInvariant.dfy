// What every step of the server keeps, on the abstract machine.
module CvInvariant {
  import opened Sequences
  import opened CvModel

  // Where a process can be suspended.
  datatype Place = InQueue(m: int) | OnList(c: int)

  function Procs(ws: seq<Waiter>): (r: seq<int>)
    ensures |r| == |ws|
    ensures forall w :: w in ws ==> w.proc in r
    ensures forall p :: p in r ==> exists w :: w in ws && w.proc == p
  {
    var r := seq(|ws|, i requires 0 <= i < |ws| => ws[i].proc);
    assert forall w :: w in ws ==> exists i :: 0 <= i < |ws| && ws[i] == w && r[i] == w.proc;
    assert forall p :: p in r ==> exists i :: 0 <= i < |ws| && r[i] == p && ws[i] in ws;
    r
  }

  function At(s: State, x: Place): seq<int> {
    match x
    case InQueue(m) => Queue(s, m)
    case OnList(c) => Procs(Waiters(s, c))
  }

  // At one place no process stands twice ...
  ghost predicate OncePerPlace(s: State) {
    forall x :: Distinct(At(s, x))
  }

  // ... and no process is at two places.
  ghost predicate OnePlace(s: State) {
    forall x, y, p :: p in At(s, x) && p in At(s, y) ==> x == y
  }

  ghost predicate OwnerNotQueued(s: State) {
    forall m :: m in s.mutexes ==> s.mutexes[m].owner !in s.mutexes[m].queue
  }

  // A condition variable exists only while somebody waits on it.
  ghost predicate CvsUsed(s: State) {
    forall c :: c in s.cvs ==> s.cvs[c] != []
  }

  // Nobody owns the mutex it gave up to wait.
  ghost predicate WaitersReleased(s: State) {
    forall c, w :: w in Waiters(s, c) ==> !Owns(s, w.proc, w.mutex)
  }

  // Here and elsewhere a conjunction is bound to a name where proofs pass it on as
  // one fact: the verifier then checks it whole and not conjunct by conjunct.
  ghost predicate Inv(s: State) {
    var holds := OncePerPlace(s) && OnePlace(s) && OwnerNotQueued(s) && CvsUsed(s) && WaitersReleased(s);
    holds
  }

  lemma BlockedByPlace(s: State, p: int)
    ensures p in Blocked(s) <==> exists x :: p in At(s, x)
  {
    if m :| m in s.mutexes && p in s.mutexes[m].queue {
      assert p in At(s, InQueue(m));
    }
    if c, w :| c in s.cvs && w in s.cvs[c] && w.proc == p {
      assert p in At(s, OnList(c));
    }
    if x :| p in At(s, x) {
      match x
      case InQueue(m) => assert p in s.mutexes[m].queue;
      case OnList(c) =>
        var w :| w in Waiters(s, c) && w.proc == p;
        assert w in s.cvs[c];
    }
  }

  // ------------------------------------------- moves, seen place by place

  ghost predicate SameElsewhere(s: State, t: State, x: Place) {
    forall y :: y != x ==> At(t, y) == At(s, y)
  }

  lemma JoinOnce(s: State, t: State, x: Place, p: int)
    requires OncePerPlace(s) && p !in Blocked(s)
    requires SameElsewhere(s, t, x) && At(t, x) == At(s, x) + [p]
    ensures OncePerPlace(t)
  {
    BlockedByPlace(s, p);
    forall y ensures Distinct(At(t, y)) {
      assert Distinct(At(s, y));
      assert p !in At(s, x);
    }
  }

  lemma JoinOne(s: State, t: State, x: Place, p: int)
    requires OnePlace(s) && p !in Blocked(s)
    requires SameElsewhere(s, t, x) && At(t, x) == At(s, x) + [p]
    ensures OnePlace(t)
  {
    BlockedByPlace(s, p);
    forall y, z, o | o in At(t, y) && o in At(t, z) ensures y == z {
      assert y == x || o in At(s, y);
      assert z == x || o in At(s, z);
      assert p !in At(s, y) && p !in At(s, z);
    }
  }

  lemma JoinBlocked(s: State, t: State, x: Place, p: int)
    requires SameElsewhere(s, t, x) && At(t, x) == At(s, x) + [p]
    ensures Blocked(t) == Blocked(s) + {p}
  {
    forall o ensures o in Blocked(t) <==> o in Blocked(s) || o == p {
      BlockedByPlace(s, o);
      BlockedByPlace(t, o);
      assert p in At(t, x);
      if y :| o in At(s, y) { assert o in At(t, y); }
      if y :| o in At(t, y) { assert y == x || o in At(s, y); }
    }
  }

  lemma LeaveOnce(s: State, t: State, x: Place)
    requires OncePerPlace(s) && At(s, x) != []
    requires SameElsewhere(s, t, x) && At(t, x) == At(s, x)[1..]
    ensures OncePerPlace(t)
  {
  }

  lemma LeaveOne(s: State, t: State, x: Place)
    requires OnePlace(s) && At(s, x) != []
    requires SameElsewhere(s, t, x) && At(t, x) == At(s, x)[1..]
    ensures OnePlace(t)
  {
  }

  lemma LeaveBlocked(s: State, t: State, x: Place)
    requires OncePerPlace(s) && OnePlace(s) && At(s, x) != []
    requires SameElsewhere(s, t, x) && At(t, x) == At(s, x)[1..]
    ensures Blocked(t) == Blocked(s) - {At(s, x)[0]}
  {
    var h := At(s, x)[0];
    forall o ensures o in Blocked(t) <==> o in Blocked(s) && o != h {
      BlockedByPlace(s, o);
      BlockedByPlace(t, o);
      assert h in At(s, x) && Distinct(At(s, x));
      assert At(s, x) == [h] + At(s, x)[1..];
      if y :| o in At(s, y) { assert o == h || o in At(t, y); }
      if y :| o in At(t, y) { assert o in At(s, y); }
    }
  }

  ghost predicate Purged(s: State, t: State, p: int) {
    forall x :: At(t, x) == Without(At(s, x), p)
  }

  lemma PurgeOnce(s: State, t: State, p: int)
    requires OncePerPlace(s) && Purged(s, t, p)
    ensures OncePerPlace(t)
  {
    forall x ensures Distinct(At(t, x)) {
      WithoutDistinct(At(s, x), p);
    }
  }

  lemma PurgeOne(s: State, t: State, p: int)
    requires OnePlace(s) && Purged(s, t, p)
    ensures OnePlace(t)
  {
  }

  lemma PurgeBlocked(s: State, t: State, p: int)
    requires Purged(s, t, p)
    ensures Blocked(t) == Blocked(s) - {p}
  {
    forall o ensures o in Blocked(t) <==> o in Blocked(s) && o != p {
      BlockedByPlace(s, o);
      BlockedByPlace(t, o);
      if y :| o in At(s, y) { assert o == p || o in At(t, y); }
      if y :| o in At(t, y) { assert o in At(s, y); }
    }
  }

  // ------------------------------------------------------ elementary steps

  lemma AcquireKeeps(s: State, p: int, m: int)
    requires Inv(s) && p !in Blocked(s)
    ensures Inv(Acquire(s, p, m))
    ensures Blocked(Acquire(s, p, m)) == Blocked(s) + if m in s.mutexes && !Owns(s, p, m) then {p} else {}
  {
    var t := Acquire(s, p, m);
    assert forall c :: Waiters(t, c) == Waiters(s, c);
    if m in s.mutexes && !Owns(s, p, m) {
      assert SameElsewhere(s, t, InQueue(m));
      JoinOnce(s, t, InQueue(m), p);
      JoinOne(s, t, InQueue(m), p);
      JoinBlocked(s, t, InQueue(m), p);
    } else {
      assert forall x :: At(t, x) == At(s, x);
      SameBlocked(s, t);
      NotWaiting(s, p);
    }
  }

  lemma SameBlocked(s: State, t: State)
    requires forall x :: At(t, x) == At(s, x)
    ensures Blocked(t) == Blocked(s)
  {
    forall o ensures o in Blocked(t) <==> o in Blocked(s) {
      BlockedByPlace(s, o);
      BlockedByPlace(t, o);
      if y :| o in At(s, y) { assert o in At(t, y); }
      if y :| o in At(t, y) { assert o in At(s, y); }
    }
  }

  lemma NotWaiting(s: State, p: int)
    requires p !in Blocked(s)
    ensures forall c, w :: w in Waiters(s, c) ==> w.proc != p
  {
  }

  // A process in a queue waits on no list.
  lemma QueuedNotWaiting(s: State, m: int, p: int)
    requires OnePlace(s) && p in Queue(s, m)
    ensures forall c, w :: w in Waiters(s, c) ==> w.proc != p
  {
    forall c, w | w in Waiters(s, c) ensures w.proc != p {
      assert w.proc in At(s, OnList(c));
      assert p in At(s, InQueue(m));
    }
  }

  lemma ReleaseKeeps(s: State, m: int)
    requires Inv(s) && m in s.mutexes
    ensures Inv(Release(s, m))
    ensures Blocked(Release(s, m)) == Blocked(s) - if Queue(s, m) == [] then {} else {Queue(s, m)[0]}
  {
    var t, q := Release(s, m), Queue(s, m);
    assert forall c :: Waiters(t, c) == Waiters(s, c);
    if q == [] {
      assert forall x :: At(t, x) == At(s, x);
      SameBlocked(s, t);
    } else {
      assert At(s, InQueue(m)) == q;
      assert SameElsewhere(s, t, InQueue(m));
      LeaveOnce(s, t, InQueue(m));
      LeaveOne(s, t, InQueue(m));
      LeaveBlocked(s, t, InQueue(m));
      QueuedNotWaiting(s, m, q[0]);
      assert Distinct(q);
    }
  }

  lemma ParkPlaces(s: State, p: int, c: int, m: int)
    ensures SameElsewhere(s, Park(s, p, c, m), OnList(c))
    ensures At(Park(s, p, c, m), OnList(c)) == At(s, OnList(c)) + [p]
  {
    assert Procs(Waiters(s, c) + [Waiter(p, m)]) == Procs(Waiters(s, c)) + [p];
  }

  lemma ParkLists(s: State, p: int, c: int, m: int)
    requires OwnerNotQueued(s) && CvsUsed(s) && WaitersReleased(s) && !Owns(s, p, m)
    ensures var t := Park(s, p, c, m); OwnerNotQueued(t) && CvsUsed(t) && WaitersReleased(t)
  {
    var t := Park(s, p, c, m);
    assert forall d, w :: w in Waiters(t, d) ==> w in Waiters(s, d) || w == Waiter(p, m);
  }

  lemma ParkKeeps(s: State, p: int, c: int, m: int)
    requires Inv(s) && p !in Blocked(s) && !Owns(s, p, m)
    ensures Inv(Park(s, p, c, m))
    ensures Blocked(Park(s, p, c, m)) == Blocked(s) + {p}
  {
    var t := Park(s, p, c, m);
    ParkPlaces(s, p, c, m);
    JoinOnce(s, t, OnList(c), p);
    JoinOne(s, t, OnList(c), p);
    JoinBlocked(s, t, OnList(c), p);
    ParkLists(s, p, c, m);
  }

  // s with the first waiter of c taken off its list.
  function Unpark(s: State, c: int): State
    requires Waiters(s, c) != []
  {
    s.(cvs := SetWaiters(s.cvs, c, Waiters(s, c)[1..]))
  }

  lemma UnparkPlaces(s: State, c: int)
    requires Waiters(s, c) != []
    ensures SameElsewhere(s, Unpark(s, c), OnList(c))
    ensures At(Unpark(s, c), OnList(c)) == At(s, OnList(c))[1..] && At(s, OnList(c))[0] == Waiters(s, c)[0].proc
  {
    var t, ws := Unpark(s, c), Waiters(s, c);
    assert forall d :: Waiters(t, d) == if d == c then ws[1..] else Waiters(s, d);
    assert Procs(ws[1..]) == Procs(ws)[1..];
  }

  lemma UnparkLists(s: State, c: int)
    requires OwnerNotQueued(s) && CvsUsed(s) && WaitersReleased(s) && Waiters(s, c) != []
    ensures var t := Unpark(s, c); OwnerNotQueued(t) && CvsUsed(t) && WaitersReleased(t)
  {
    var t := Unpark(s, c);
    assert forall d, w :: w in Waiters(t, d) ==> w in Waiters(s, d);
  }

  lemma UnparkKeeps(s: State, c: int)
    requires Inv(s) && Waiters(s, c) != []
    ensures Inv(Unpark(s, c))
    ensures Blocked(Unpark(s, c)) == Blocked(s) - {Waiters(s, c)[0].proc}
  {
    var t := Unpark(s, c);
    UnparkPlaces(s, c);
    LeaveOnce(s, t, OnList(c));
    LeaveOne(s, t, OnList(c));
    LeaveBlocked(s, t, OnList(c));
    UnparkLists(s, c);
  }

  lemma WakeFirstKeeps(s: State, c: int)
    requires Inv(s) && Waiters(s, c) != []
    ensures Inv(WakeFirst(s, c))
    ensures Waiters(WakeFirst(s, c), c) == Waiters(s, c)[1..]
    ensures WakeFirst(s, c) == Acquire(Unpark(s, c), Waiters(s, c)[0].proc, Waiters(s, c)[0].mutex)
  {
    UnparkKeeps(s, c);
    var w := Waiters(s, c)[0];
    AcquireKeeps(Unpark(s, c), w.proc, w.mutex);
  }

  lemma {:induction false} WakeAllKeeps(s: State, c: int)
    requires Inv(s)
    ensures Inv(WakeAll(s, c).state)
    ensures Waiters(WakeAll(s, c).state, c) == []
    decreases |Waiters(s, c)|
  {
    if Waiters(s, c) != [] {
      WakeFirstKeeps(s, c);
      WakeAllKeeps(WakeFirst(s, c), c);
    }
  }

  lemma ProcsStep(ws: seq<Waiter>)
    requires ws != []
    ensures Procs(ws) == [ws[0].proc] + Procs(ws[1..])
  {
  }

  lemma {:induction false} WithoutProcProcs(ws: seq<Waiter>, p: int)
    ensures Procs(WithoutProc(ws, p)) == Without(Procs(ws), p)
  {
    if ws != [] {
      var rest := WithoutProc(ws[1..], p);
      WithoutProcProcs(ws[1..], p);
      ProcsStep(ws);
      assert Procs(ws)[1..] == Procs(ws[1..]);
      if ws[0].proc != p {
        assert ([ws[0]] + rest)[1..] == rest;
        ProcsStep([ws[0]] + rest);
      }
    }
  }

  lemma {:induction false} WithoutProcMember(ws: seq<Waiter>, p: int)
    ensures forall w :: w in WithoutProc(ws, p) ==> w in ws && w.proc != p
  {
    if ws != [] {
      WithoutProcMember(ws[1..], p);
    }
  }

  lemma ForgetShape(s: State, p: int)
    ensures forall n :: Queue(Forget(s, p), n) == Without(Queue(s, n), p)
    ensures forall c :: Waiters(Forget(s, p), c) == WithoutProc(Waiters(s, c), p)
  {
  }

  lemma ForgetMember(s: State, p: int, c: int, w: Waiter)
    requires w in Waiters(Forget(s, p), c)
    ensures w in Waiters(s, c) && w.proc != p
  {
    ForgetShape(s, p);
    WithoutProcMember(Waiters(s, c), p);
  }

  lemma ForgetPurges(s: State, p: int)
    ensures Purged(s, Forget(s, p), p)
  {
    forall x ensures At(Forget(s, p), x) == Without(At(s, x), p) {
      if x.OnList? {
        WithoutProcProcs(Waiters(s, x.c), p);
      }
    }
  }

  lemma ForgetKeeps(s: State, p: int)
    requires Inv(s)
    ensures Inv(Forget(s, p))
    ensures Blocked(Forget(s, p)) == Blocked(s) - {p}
  {
    var t := Forget(s, p);
    ForgetPurges(s, p);
    PurgeOnce(s, t, p);
    PurgeOne(s, t, p);
    PurgeBlocked(s, t, p);
    forall c, w | w in Waiters(t, c) ensures w in Waiters(s, c) {
      ForgetMember(s, p, c, w);
    }
  }
}
