// What the clients can see: a trace of requests and replies, and, read off the
// trace alone, which process awaits an answer and which process holds which
// mutex. The server's tables agree with that view after every step of every run.
module CvTrace {
  import opened Sequences
  import opened CvModel
  import opened CvInvariant
  import opened CvExit

  // pending: the unanswered call of each process that has one.
  // holds: (process, mutex) pairs.
  datatype View = View(pending: map<int, Request>, holds: set<(int, int)>)

  const NOTHING := View(map[], {})

  function Receive(v: View, r: Reply): View {
    if r.to !in v.pending then v
    else
      var q := v.pending[r.to];
      View(v.pending - {r.to},
           if r.code == Ok && (q.Lock? || q.Wait?) then v.holds + {(r.to, q.mutex)} else v.holds)
  }

  function ReceiveAll(v: View, rs: seq<Reply>): View
    decreases rs
  {
    if rs == [] then v else ReceiveAll(Receive(v, rs[0]), rs[1..])
  }

  // Every reply goes to a process that awaits one.
  predicate Expected(v: View, rs: seq<Reply>)
    decreases rs
  {
    rs == [] || (rs[0].to in v.pending && Expected(Receive(v, rs[0]), rs[1..]))
  }

  // A call is sent. An unlock or a wait that this very step accepts ends the
  // sender's hold.
  function Send(v: View, r: Request, rs: seq<Reply>): View {
    if !IsCall(r) then v
    else
      var ends := (r.Unlock? && Reply(r.proc, Ok) in rs) || (r.Wait? && Reply(r.proc, MinusEInval) !in rs);
      View(v.pending[r.proc := r], if ends then v.holds - {(r.proc, r.mutex)} else v.holds)
  }

  function Observe(v: View, r: Request, rs: seq<Reply>): View {
    var w := ReceiveAll(Send(v, r, rs), rs);
    if r.Exit? then Bereft(w, r.proc) else w
  }

  // p awaits nothing and holds nothing.
  function Bereft(w: View, p: int): View {
    View(w.pending - {p}, set h | h in w.holds && h.0 != p)
  }

  function ObserveAll(v: View, es: seq<Event>): View
    decreases es
  {
    if es == [] then v else ObserveAll(Observe(v, es[0].request, es[0].replies), es[1..])
  }

  lemma ReceiveOne(v: View, r: Reply)
    ensures ReceiveAll(v, [r]) == Receive(v, r)
    ensures Expected(v, [r]) <==> r.to in v.pending
  {
  }

  lemma {:induction false} ReceiveConcat(v: View, a: seq<Reply>, b: seq<Reply>)
    ensures ReceiveAll(v, a + b) == ReceiveAll(ReceiveAll(v, a), b)
    ensures Expected(v, a + b) <==> Expected(v, a) && Expected(ReceiveAll(v, a), b)
    decreases a
  {
    if a == [] {
      assert a + b == b;
    } else {
      assert (a + b)[1..] == a[1..] + b;
      ReceiveConcat(Receive(v, a[0]), a[1..], b);
    }
  }

  // -------------------------------------------------- view against tables

  // Owners are holders, for every process outside `out`.
  ghost predicate HoldsAgree(s: State, v: View, out: set<int>) {
    forall p, m :: p !in out ==> ((p, m) in v.holds <==> Owns(s, p, m))
  }

  // p's unanswered call will end with p holding m, if it is answered 0.
  ghost predicate AsksFor(v: View, p: int, m: int) {
    p in v.pending && v.pending[p].proc == p
    && (v.pending[p].Lock? || v.pending[p].Wait?) && v.pending[p].mutex == m
  }

  ghost predicate QueuesAgree(s: State, v: View) {
    forall m, p :: p in Queue(s, m) ==> AsksFor(v, p, m)
  }

  ghost predicate ListsAgree(s: State, v: View) {
    forall c, w :: w in Waiters(s, c) ==> w.proc in v.pending && v.pending[w.proc] == Wait(w.proc, c, w.mutex)
  }

  // `extra` are processes whose call is being served right now.
  ghost predicate Tracks(s: State, v: View, extra: set<int>) {
    v.pending.Keys == Blocked(s) + extra && QueuesAgree(s, v) && ListsAgree(s, v)
  }

  ghost predicate Agree(s: State, v: View) {
    var holds := HoldsAgree(s, v, {}) && Tracks(s, v, {});
    holds
  }

  // ----------------------------------------------------- elementary steps

  function AcquireReplies(s: State, p: int, m: int): seq<Reply> {
    var a := AcquireAnswer(s, p, m);
    if a == DontReply then [] else [Reply(p, a.code)]
  }

  lemma AcquireHolds(s: State, v: View, p: int, m: int)
    requires HoldsAgree(s, v, {}) && AsksFor(v, p, m)
    ensures HoldsAgree(Acquire(s, p, m), ReceiveAll(v, AcquireReplies(s, p, m)), {})
    ensures Expected(v, AcquireReplies(s, p, m))
  {
  }

  // p is answered and leaves; the places stay.
  lemma AnswerTracks(s: State, t: State, v: View, extra: set<int>, r: Reply)
    requires Tracks(s, v, extra) && r.to in extra && r.to !in Blocked(s)
    requires forall x :: At(t, x) == At(s, x)
    requires forall c :: Waiters(t, c) == Waiters(s, c)
    ensures Tracks(t, ReceiveAll(v, [r]), extra - {r.to})
    ensures Expected(v, [r])
  {
    SameBlocked(s, t);
    ReceiveOne(v, r);
    var u := ReceiveAll(v, [r]);
    assert u.pending == v.pending - {r.to};
    NotWaiting(s, r.to);
    forall n, x | x in Queue(t, n) ensures x in Queue(s, n) && x != r.to {
      BlockedByPlace(s, r.to);
      assert x in At(t, InQueue(n));
      assert x in At(s, InQueue(n));
    }
  }

  // p joins the queue and stays unanswered.
  lemma JoinTracks(s: State, v: View, extra: set<int>, p: int, m: int)
    requires Inv(s) && Tracks(s, v, extra) && p in extra && p !in Blocked(s) && AsksFor(v, p, m)
    requires AcquireAnswer(s, p, m) == DontReply
    ensures Tracks(Acquire(s, p, m), v, extra - {p})
  {
    var t := Acquire(s, p, m);
    AcquireKeeps(s, p, m);
    assert forall c :: Waiters(t, c) == Waiters(s, c);
    assert forall n, x :: x in Queue(t, n) ==> x in Queue(s, n) || (x == p && n == m);
  }

  lemma AcquireTracks(s: State, v: View, extra: set<int>, p: int, m: int)
    requires Inv(s) && Tracks(s, v, extra) && p in extra && p !in Blocked(s) && AsksFor(v, p, m)
    ensures Tracks(Acquire(s, p, m), ReceiveAll(v, AcquireReplies(s, p, m)), extra - {p})
  {
    var a, t := AcquireAnswer(s, p, m), Acquire(s, p, m);
    if a.Send? {
      assert forall c :: Waiters(t, c) == Waiters(s, c);
      assert forall x :: At(t, x) == At(s, x);
      AnswerTracks(s, t, v, extra, Reply(p, a.code));
    } else {
      JoinTracks(s, v, extra, p, m);
    }
  }

  lemma ReleaseHolds(s: State, v: View, m: int, out: set<int>)
    requires m in s.mutexes
    requires forall p, n :: p !in out ==> ((p, n) in v.holds <==> n != m && Owns(s, p, n))
    requires QueuesAgree(s, v)
    ensures HoldsAgree(Release(s, m), ReceiveAll(v, ReleaseReplies(s, m)), out)
    ensures Expected(v, ReleaseReplies(s, m))
  {
    var q := Queue(s, m);
    if q != [] {
      assert q[0] in Queue(s, m);
      ReceiveOne(v, Reply(q[0], Ok));
    }
  }

  lemma ReleaseTracks(s: State, v: View, m: int, extra: set<int>)
    requires Inv(s) && m in s.mutexes && Tracks(s, v, extra) && extra !! Blocked(s)
    ensures Tracks(Release(s, m), ReceiveAll(v, ReleaseReplies(s, m)), extra)
    ensures extra !! Blocked(Release(s, m))
  {
    ReleaseKeeps(s, m);
    var t, q := Release(s, m), Queue(s, m);
    assert forall c :: Waiters(t, c) == Waiters(s, c);
    if q != [] {
      var h, u := q[0], ReceiveAll(v, ReleaseReplies(s, m));
      assert h in q && h in At(s, InQueue(m));
      ReceiveOne(v, Reply(h, Ok));
      assert u.pending == v.pending - {h};
      BlockedByPlace(s, h);
      QueuedNotWaiting(s, m, h);
      forall n, x | x in Queue(t, n) ensures x in Queue(s, n) && x != h {
        BlockedByPlace(t, h);
        assert h !in At(t, InQueue(n));
      }
    }
  }

  lemma UnparkTracks(s: State, v: View, extra: set<int>, c: int)
    requires Inv(s) && Waiters(s, c) != [] && Tracks(s, v, extra)
    ensures Tracks(Unpark(s, c), v, extra + {Waiters(s, c)[0].proc})
    ensures v.pending[Waiters(s, c)[0].proc] == Wait(Waiters(s, c)[0].proc, c, Waiters(s, c)[0].mutex)
  {
    UnparkKeeps(s, c);
    var t, w := Unpark(s, c), Waiters(s, c)[0];
    assert w in Waiters(s, c);
    BlockedByPlace(s, w.proc);
    assert w.proc in At(s, OnList(c));
    assert forall d, x :: x in Waiters(t, d) ==> x in Waiters(s, d);
    assert forall n :: Queue(t, n) == Queue(s, n);
  }

  // Waking the first waiter; its mutex is not its own, so the error branch of
  // the lock routine is not taken.
  lemma WakeFirstAgrees(s: State, v: View, extra: set<int>, c: int)
    requires Inv(s) && Waiters(s, c) != [] && Tracks(s, v, extra) && HoldsAgree(s, v, {})
    requires extra !! Blocked(s)
    ensures AcquireAnswer(s, Waiters(s, c)[0].proc, Waiters(s, c)[0].mutex) != CvModel.Send(EPerm)
    ensures var u := ReceiveAll(v, WakeFirstReplies(s, c));
            Tracks(WakeFirst(s, c), u, extra) && HoldsAgree(WakeFirst(s, c), u, {})
    ensures Expected(v, WakeFirstReplies(s, c))
    ensures extra !! Blocked(WakeFirst(s, c))
  {
    var t, w := Unpark(s, c), Waiters(s, c)[0];
    assert w in Waiters(s, c);
    assert !Owns(s, w.proc, w.mutex);
    UnparkKeeps(s, c);
    UnparkTracks(s, v, extra, c);
    assert AcquireReplies(t, w.proc, w.mutex) == WakeFirstReplies(s, c);
    AcquireKeeps(t, w.proc, w.mutex);
    AcquireTracks(t, v, extra + {w.proc}, w.proc, w.mutex);
    AcquireHolds(t, v, w.proc, w.mutex);
    BlockedByPlace(s, w.proc);
    assert w.proc in At(s, OnList(c));
    assert (extra + {w.proc}) - {w.proc} == extra;
  }

  lemma {:induction false} WakeAllAgrees(s: State, v: View, extra: set<int>, c: int)
    requires Inv(s) && Tracks(s, v, extra) && HoldsAgree(s, v, {}) && extra !! Blocked(s)
    ensures var o := WakeAll(s, c); var u := ReceiveAll(v, o.replies);
            Tracks(o.state, u, extra) && HoldsAgree(o.state, u, {}) && extra !! Blocked(o.state)
            && Expected(v, o.replies)
    decreases |Waiters(s, c)|
  {
    if Waiters(s, c) != [] {
      WakeFirstKeeps(s, c);
      WakeFirstAgrees(s, v, extra, c);
      var t, u := WakeFirst(s, c), ReceiveAll(v, WakeFirstReplies(s, c));
      WakeAllAgrees(t, u, extra, c);
      ReceiveConcat(v, WakeFirstReplies(s, c), WakeAll(t, c).replies);
    }
  }

  lemma {:induction false} ReleaseAllAgrees(s: State, v: View, p: int, order: seq<int>)
    requires Inv(s) && Distinct(order) && forall m :: m in order ==> m in s.mutexes && s.mutexes[m].owner == p
    requires Tracks(s, v, {}) && HoldsAgree(s, v, {p})
    ensures var o := ReleaseAll(s, order); var u := ReceiveAll(v, o.replies);
            Tracks(o.state, u, {}) && HoldsAgree(o.state, u, {p}) && Expected(v, o.replies)
    decreases |order|
  {
    if order != [] {
      var m, rest := order[0], order[1..];
      assert order == [m] + rest;
      assert m !in rest;
      assert Owns(s, p, m);
      var t, u := Release(s, m), ReceiveAll(v, ReleaseReplies(s, m));
      ReleaseKeeps(s, m);
      ReleaseHolds(s, v, m, {p});
      ReleaseTracks(s, v, m, {});
      ReleaseAllAgrees(t, u, p, rest);
      ReceiveConcat(v, ReleaseReplies(s, m), ReleaseAll(t, rest).replies);
    }
  }

  lemma ForgetTracks(s: State, v: View, u: View, p: int)
    requires Inv(s) && Tracks(s, v, {}) && u.pending == v.pending - {p}
    ensures Tracks(Forget(s, p), u, {})
  {
    ForgetKeeps(s, p);
    ForgetShape(s, p);
    var t := Forget(s, p);
    forall c, w | w in Waiters(t, c) ensures w in Waiters(s, c) && w.proc != p {
      ForgetMember(s, p, c, w);
    }
    assert QueuesAgree(t, u) by {
      assert forall n, x :: x in Queue(t, n) ==> x in Queue(s, n) && x != p;
    }
  }

  // ------------------------------------------------------------ whole steps

  lemma LockAgrees(s: State, v: View, p: int, m: int)
    requires Inv(s) && Agree(s, v) && p !in Blocked(s)
    ensures var rs := Replies(s, Lock(p, m));
            Agree(Next(s, Lock(p, m)), Observe(v, Lock(p, m), rs)) && Expected(Send(v, Lock(p, m), rs), rs)
  {
    var u := Send(v, Lock(p, m), Replies(s, Lock(p, m)));
    AcquireTracks(s, u, {p}, p, m);
    AcquireHolds(s, u, p, m);
  }

  // The sender is answered, and the answer does not give it a mutex.
  lemma AnswerAgrees(s: State, v: View, r: Reply)
    requires Tracks(s, v, {r.to}) && HoldsAgree(s, v, {}) && r.to !in Blocked(s)
    requires r.to in v.pending && !(r.code == Ok && (v.pending[r.to].Lock? || v.pending[r.to].Wait?))
    ensures Agree(s, ReceiveAll(v, [r])) && Expected(v, [r])
  {
  }

  // A mutex of the sender is released while its call is being served.
  lemma ServeRelease(s: State, u: View, p: int, m: int)
    requires Inv(s) && Tracks(s, u, {p}) && p !in Blocked(s) && Owns(s, p, m)
    requires forall q, n :: (q, n) in u.holds <==> n != m && Owns(s, q, n)
    ensures var t, w := Release(s, m), ReceiveAll(u, ReleaseReplies(s, m));
            && Inv(t) && HoldsAgree(t, w, {}) && Tracks(t, w, {p}) && p !in Blocked(t)
            && Expected(u, ReleaseReplies(s, m))
            && p in w.pending && w.pending[p] == u.pending[p]
  {
    ReleaseHolds(s, u, m, {});
    ReleaseTracks(s, u, m, {p});
    ReleaseKeeps(s, m);
    PendingKept(s, u, m, p);
  }

  lemma UnlockAgrees(s: State, v: View, p: int, m: int)
    requires Inv(s) && Agree(s, v) && p !in Blocked(s)
    ensures var rs := Replies(s, Unlock(p, m));
            Agree(Next(s, Unlock(p, m)), Observe(v, Unlock(p, m), rs)) && Expected(Send(v, Unlock(p, m), rs), rs)
  {
    var rs := Replies(s, Unlock(p, m));
    var u := Send(v, Unlock(p, m), rs);
    assert Tracks(s, u, {p});
    if Owns(s, p, m) {
      assert rs[|rs| - 1] == Reply(p, Ok);
      ServeRelease(s, u, p, m);
      AnswerAgrees(Release(s, m), ReceiveAll(u, ReleaseReplies(s, m)), Reply(p, Ok));
      ReceiveConcat(u, ReleaseReplies(s, m), [Reply(p, Ok)]);
    } else {
      AnswerAgrees(s, u, Reply(p, EPerm));
    }
  }

  // Granting a mutex leaves the calls of unblocked processes alone.
  lemma PendingKept(s: State, u: View, m: int, p: int)
    requires m in s.mutexes && p !in Blocked(s) && p in u.pending
    ensures p in ReceiveAll(u, ReleaseReplies(s, m)).pending
    ensures ReceiveAll(u, ReleaseReplies(s, m)).pending[p] == u.pending[p]
  {
    if Queue(s, m) != [] {
      var h := Queue(s, m)[0];
      BlockedByPlace(s, p);
      assert h in At(s, InQueue(m));
      ReceiveOne(u, Reply(h, Ok));
    }
  }

  lemma ParkTracks(s: State, v: View, p: int, c: int, m: int)
    requires Inv(s) && Tracks(s, v, {p}) && p !in Blocked(s) && v.pending[p] == Wait(p, c, m) && !Owns(s, p, m)
    ensures Tracks(Park(s, p, c, m), v, {})
  {
    var t := Park(s, p, c, m);
    ParkKeeps(s, p, c, m);
    assert forall d, x :: x in Waiters(t, d) ==> x in Waiters(s, d) || (d == c && x == Waiter(p, m));
    assert forall n :: Queue(t, n) == Queue(s, n);
  }

  lemma AcceptedWait(s: State, u: View, p: int, c: int, m: int)
    requires Inv(s) && Tracks(s, u, {p}) && p !in Blocked(s) && Owns(s, p, m) && u.pending[p] == Wait(p, c, m)
    requires forall q, n :: (q, n) in u.holds <==> n != m && Owns(s, q, n)
    ensures var rs := ReleaseReplies(s, m);
            Agree(Park(Release(s, m), p, c, m), ReceiveAll(u, rs)) && Expected(u, rs)
  {
    ServeRelease(s, u, p, m);
    var t := Release(s, m);
    assert !Owns(t, p, m) by {
      if Queue(s, m) != [] { assert Queue(s, m)[0] in s.mutexes[m].queue; }
    }
    ParkTracks(t, ReceiveAll(u, ReleaseReplies(s, m)), p, c, m);
  }

  lemma WaitAgrees(s: State, v: View, p: int, c: int, m: int)
    requires Inv(s) && Agree(s, v) && p !in Blocked(s)
    ensures var rs := Replies(s, Wait(p, c, m));
            Agree(Next(s, Wait(p, c, m)), Observe(v, Wait(p, c, m), rs)) && Expected(Send(v, Wait(p, c, m), rs), rs)
  {
    var rs := Replies(s, Wait(p, c, m));
    var u := Send(v, Wait(p, c, m), rs);
    assert Tracks(s, u, {p});
    if Owns(s, p, m) {
      AcceptedWait(s, u, p, c, m);
    } else {
      assert Reply(p, MinusEInval) in rs;
      AnswerAgrees(s, u, Reply(p, MinusEInval));
    }
  }

  lemma BroadcastAgrees(s: State, v: View, p: int, c: int)
    requires Inv(s) && Agree(s, v) && p !in Blocked(s)
    ensures var rs := Replies(s, Broadcast(p, c));
            && Agree(Next(s, Broadcast(p, c)), Observe(v, Broadcast(p, c), rs))
            && Expected(Send(v, Broadcast(p, c), rs), rs)
  {
    var rs := Replies(s, Broadcast(p, c));
    var u, o := Send(v, Broadcast(p, c), rs), WakeAll(s, c);
    assert Tracks(s, u, {p});
    WakeAllAgrees(s, u, {p}, c);
    WakeAllPending(s, u, c, p);
    AnswerAgrees(o.state, ReceiveAll(u, o.replies), Reply(p, Ok));
    ReceiveConcat(u, o.replies, [Reply(p, Ok)]);
  }

  // Waking others leaves the call of an unblocked process alone.
  lemma {:induction false} WakeAllPending(s: State, u: View, c: int, p: int)
    requires Inv(s) && p !in Blocked(s) && p in u.pending
    ensures var w := ReceiveAll(u, WakeAll(s, c).replies); p in w.pending && w.pending[p] == u.pending[p]
    decreases |Waiters(s, c)|
  {
    if Waiters(s, c) != [] {
      var x, rs, t := Waiters(s, c)[0], WakeFirstReplies(s, c), WakeFirst(s, c);
      WakeFirstKeeps(s, c);
      UnparkKeeps(s, c);
      NotWaiting(s, p);
      assert x in Waiters(s, c);
      AcquireKeeps(Unpark(s, c), x.proc, x.mutex);
      if rs != [] { ReceiveOne(u, Reply(x.proc, Ok)); }
      WakeAllPending(t, ReceiveAll(u, rs), c, p);
      ReceiveConcat(u, rs, WakeAll(t, c).replies);
    }
  }

  lemma ForgetHolds(s: State, v: View, u: View, p: int)
    requires HoldsAgree(s, v, {}) && u.holds == v.holds
    ensures HoldsAgree(Forget(s, p), u, {})
  {
    forall q, m ensures Owns(Forget(s, p), q, m) <==> Owns(s, q, m) {
    }
  }

  lemma InterruptAgrees(s: State, v: View, p: int)
    requires Inv(s) && Agree(s, v)
    ensures var rs := Replies(s, Interrupt(p));
            Agree(Next(s, Interrupt(p)), Observe(v, Interrupt(p), rs)) && Expected(v, rs)
  {
    var rs := Replies(s, Interrupt(p));
    if p in Blocked(s) {
      ReceiveOne(v, Reply(p, EIntr));
    }
    ForgetTracks(s, v, ReceiveAll(v, rs), p);
    ForgetHolds(s, v, ReceiveAll(v, rs), p);
  }

  lemma ExitTracks(s: State, v: View, p: int, order: seq<int>)
    requires Inv(s) && Tracks(s, v, {}) && HoldsAgree(s, v, {p}) && ReleaseOrder(s, p, order)
    ensures var o := ReleaseAll(s, order); var w := ReceiveAll(v, o.replies);
            && Tracks(Departed(s, p), Bereft(w, p), {})
            && HoldsAgree(o.state, w, {p}) && Departed(s, p) == Forget(o.state, p) && Expected(v, o.replies)
  {
    var o := ReleaseAll(s, order);
    var w := ReceiveAll(v, o.replies);
    ReleaseAllAgrees(s, v, p, order);
    ReleaseAllKeeps(s, order);
    DepartedAnyOrder(s, p, order);
    ForgetTracks(o.state, w, Bereft(w, p), p);
  }

  lemma ExitAgreesFor(s: State, v: View, p: int, order: seq<int>)
    requires Inv(s) && Tracks(s, v, {}) && HoldsAgree(s, v, {p}) && ReleaseOrder(s, p, order)
    ensures var rs := ReleaseAll(s, order).replies;
            var w := Bereft(ReceiveAll(v, rs), p);
            Tracks(Departed(s, p), w, {}) && HoldsAgree(Departed(s, p), w, {}) && Expected(v, rs)
  {
    ExitTracks(s, v, p, order);
    ExitHolds(s, ReleaseAll(s, order).state, ReceiveAll(v, ReleaseAll(s, order).replies), p);
  }

  lemma AgreeBut(s: State, v: View, p: int)
    requires Agree(s, v)
    ensures Tracks(s, v, {}) && HoldsAgree(s, v, {p})
  {
  }

  lemma AgreeAll(s: State, v: View)
    requires Tracks(s, v, {}) && HoldsAgree(s, v, {})
    ensures Agree(s, v)
  {
  }

  lemma ExitAgrees(s: State, v: View, p: int, order: seq<int>)
    requires Inv(s) && Agree(s, v) && ReleaseOrder(s, p, order)
    ensures var rs := ReleaseAll(s, order).replies;
            Agree(Departed(s, p), Bereft(ReceiveAll(v, rs), p)) && Expected(v, rs)
  {
    AgreeBut(s, v, p);
    ExitAgreesFor(s, v, p, order);
    AgreeAll(Departed(s, p), Bereft(ReceiveAll(v, ReleaseAll(s, order).replies), p));
  }

  lemma ExitHolds(s: State, t: State, w: View, p: int)
    requires Inv(s) && HoldsAgree(t, w, {p}) && Departed(s, p) == Forget(t, p)
    ensures HoldsAgree(Departed(s, p), Bereft(w, p), {})
  {
  }

  // One step of the server keeps the invariant, keeps the view right and
  // answers only processes that await an answer.
  lemma StepAgrees(s: State, v: View, r: Request, rs: seq<Reply>)
    requires Inv(s) && Agree(s, v) && Legal(s, r) && Produces(s, r, rs)
    ensures Inv(Next(s, r))
    ensures Agree(Next(s, r), Observe(v, r, rs))
    ensures Expected(Send(v, r, rs), rs)
  {
    NextKeeps(s, r);
    match r
    case Lock(p, m) => LockAgrees(s, v, p, m);
    case Unlock(p, m) => UnlockAgrees(s, v, p, m);
    case Wait(p, c, m) => WaitAgrees(s, v, p, c, m);
    case Broadcast(p, c) => BroadcastAgrees(s, v, p, c);
    case Unknown(p) =>
      AnswerAgrees(s, Send(v, r, rs), Reply(p, EInval));
    case Interrupt(p) => InterruptAgrees(s, v, p);
    case Exit(p) =>
      var order :| ReleaseOrder(s, p, order) && rs == ReleaseAll(s, order).replies;
      ExitAgrees(s, v, p, order);
  }

  // ------------------------------------------------------------------- runs

  lemma EmptyAgrees()
    ensures Inv(EMPTY) && Agree(EMPTY, NOTHING)
  {
  }

  // At every prefix of every run from the empty tables, the view built from the
  // trace is the one in the tables.
  lemma {:induction false} RunAgrees(s: State, v: View, es: seq<Event>)
    requires Inv(s) && Agree(s, v) && Run(s, es)
    ensures Inv(After(s, es)) && Agree(After(s, es), ObserveAll(v, es))
    decreases es
  {
    if es != [] {
      var e := es[0];
      StepAgrees(s, v, e.request, e.replies);
      RunAgrees(Next(s, e.request), Observe(v, e.request, e.replies), es[1..]);
    }
  }

  // Mutual exclusion as the clients see it: no two processes hold one mutex, at
  // any moment of any run.
  lemma MutualExclusion(es: seq<Event>, k: nat, p: int, q: int, m: int)
    requires Run(EMPTY, es) && k <= |es|
    requires (p, m) in ObserveAll(NOTHING, es[..k]).holds && (q, m) in ObserveAll(NOTHING, es[..k]).holds
    ensures p == q
  {
    EmptyAgrees();
    RunSplit(EMPTY, es, k);
    RunAgrees(EMPTY, NOTHING, es[..k]);
  }

  // The processes awaiting an answer are exactly those in a queue or on a wait
  // list, each in exactly one place, once.
  lemma ReplyAccounting(es: seq<Event>, k: nat)
    requires Run(EMPTY, es) && k <= |es|
    ensures var s, v := After(EMPTY, es[..k]), ObserveAll(NOTHING, es[..k]);
            && v.pending.Keys == Blocked(s)
            && OncePerPlace(s) && OnePlace(s)
            && (forall p :: p in v.pending <==> exists x :: p in At(s, x))
    ensures k < |es| ==> var v := ObserveAll(NOTHING, es[..k]);
                         Expected(Send(v, es[k].request, es[k].replies), es[k].replies)
  {
    EmptyAgrees();
    RunSplit(EMPTY, es, k);
    RunAgrees(EMPTY, NOTHING, es[..k]);
    var s, v := After(EMPTY, es[..k]), ObserveAll(NOTHING, es[..k]);
    PendingSize(s, v);
    AwaitingByPlace(s, v);
    if k < |es| {
      StepAgrees(s, v, es[k].request, es[k].replies);
    }
  }

  lemma AwaitingByPlace(s: State, v: View)
    requires v.pending.Keys == Blocked(s)
    ensures forall p :: p in v.pending <==> exists x :: p in At(s, x)
  {
    forall p ensures p in v.pending <==> exists x :: p in At(s, x) {
      BlockedByPlace(s, p);
    }
  }

  // --------------------------------------------------------- conservation

  function Calls(es: seq<Event>): nat {
    if es == [] then 0 else (if IsCall(es[0].request) then 1 else 0) + Calls(es[1..])
  }

  function Answers(es: seq<Event>): nat {
    if es == [] then 0 else |es[0].replies| + Answers(es[1..])
  }

  // Calls that died with their sender.
  function Abandoned(s: State, es: seq<Event>): nat
    decreases es
  {
    if es == [] then 0
    else
      var r := es[0].request;
      (if r.Exit? && r.proc in Blocked(s) then 1 else 0) + Abandoned(Next(s, r), es[1..])
  }

  lemma {:induction false} ReceiveCounts(v: View, rs: seq<Reply>)
    requires Expected(v, rs)
    ensures |v.pending| == |ReceiveAll(v, rs).pending| + |rs|
    decreases rs
  {
    if rs != [] {
      var u := Receive(v, rs[0]);
      assert v.pending.Keys == u.pending.Keys + {rs[0].to};
      assert |v.pending.Keys| == |u.pending.Keys| + 1;
      ReceiveCounts(u, rs[1..]);
    }
  }

  // Every call is answered once, still waiting, or gone with its sender.
  lemma {:induction false} CallsConserved(s: State, v: View, es: seq<Event>)
    requires Inv(s) && Agree(s, v) && Run(s, es)
    ensures |Blocked(s)| + Calls(es) == Answers(es) + Abandoned(s, es) + |Blocked(After(s, es))|
    decreases es
  {
    if es != [] {
      var r, rs := es[0].request, es[0].replies;
      var t, u := Next(s, r), Observe(v, r, rs);
      StepAgrees(s, v, r, rs);
      StepCounts(s, v, r, rs);
      CallsConserved(t, u, es[1..]);
    }
  }

  lemma ObserveCounts(v: View, r: Request, rs: seq<Reply>)
    requires Expected(Send(v, r, rs), rs)
    requires IsCall(r) ==> r.proc !in v.pending
    requires r.Exit? ==> (r.proc in ReceiveAll(v, rs).pending <==> r.proc in v.pending)
    ensures |v.pending| + (if IsCall(r) then 1 else 0)
            == |rs| + (if r.Exit? && r.proc in v.pending then 1 else 0) + |Observe(v, r, rs).pending|
  {
    ReceiveCounts(Send(v, r, rs), rs);
    if IsCall(r) {
      SizeWith(v.pending, r.proc, r);
    } else if r.Exit? {
      SizeWithout(ReceiveAll(v, rs).pending, r.proc);
    }
  }

  lemma SizeWith(m: map<int, Request>, k: int, r: Request)
    requires k !in m
    ensures |m[k := r]| == |m| + 1
  {
  }

  lemma SizeWithout(m: map<int, Request>, k: int)
    ensures |m| == |m - {k}| + if k in m then 1 else 0
  {
  }

  lemma StepCounts(s: State, v: View, r: Request, rs: seq<Reply>)
    requires Inv(s) && Agree(s, v) && Legal(s, r) && Produces(s, r, rs)
    ensures |Blocked(s)| + (if IsCall(r) then 1 else 0)
            == |rs| + (if r.Exit? && r.proc in Blocked(s) then 1 else 0) + |Blocked(Next(s, r))|
  {
    StepAgrees(s, v, r, rs);
    PendingSize(s, v);
    PendingSize(Next(s, r), Observe(v, r, rs));
    if r.Exit? { ExitKeepsOwnCall(s, v, r.proc, rs); }
    ObserveCounts(v, r, rs);
  }

  lemma PendingSize(s: State, v: View)
    requires Tracks(s, v, {})
    ensures |v.pending| == |Blocked(s)| && v.pending.Keys == Blocked(s)
  {
  }

  // An exit answers others only.
  lemma ExitKeepsOwnCall(s: State, v: View, p: int, rs: seq<Reply>)
    requires Inv(s) && Produces(s, Exit(p), rs)
    ensures p in ReceiveAll(v, rs).pending <==> p in v.pending
  {
    ExitReplies(s, p, rs);
    OthersAnswered(v, rs, p);
  }

  lemma {:induction false} OthersAnswered(v: View, rs: seq<Reply>, p: int)
    requires forall r :: r in rs ==> r.to != p
    ensures p in ReceiveAll(v, rs).pending <==> p in v.pending
    decreases rs
  {
    if rs != [] {
      assert rs[0] in rs;
      OthersAnswered(Receive(v, rs[0]), rs[1..], p);
    }
  }
}
