// Messages as they come in, and what each does to the tables and which replies it
// causes, said of the fields of the message alone.
module CvMessages {
  import opened Sequences
  import opened CvModel
  import opened CvInvariant
  import opened CvExit
  import opened CvFifo
  import opened CvLimits
  import opened CvTrace

  // A message as received: source, type, the two integers of a client call and
  // the process named by the process manager.
  datatype Message = Message(source: int, typ: int, i1: int, i2: int, pmProc: int)

  // Types outside 1 to 6 are unknown.
  function Decode(m: Message): (r: Request)
    ensures r.proc == if m.typ == 5 || m.typ == 6 then m.pmProc else m.source
    ensures r.Unknown? <==> m.typ < 1 || m.typ > 6
  {
    match m.typ
    case 1 => Request.Lock(m.source, m.i1)
    case 2 => Request.Unlock(m.source, m.i1)
    case 3 => Request.Wait(m.source, m.i2, m.i1)
    case 4 => Request.Broadcast(m.source, m.i2)
    case 5 => Interrupt(m.pmProc)
    case 6 => Request.Exit(m.pmProc)
    case _ => Unknown(m.source)
  }

  // The messages that the library and the process manager send: a call carries the
  // mutex and the condition variable, 0 where there is none.
  function Encode(r: Request): (m: Message)
    requires !r.Unknown?
    ensures Decode(m) == r
  {
    match r
    case Lock(p, n) => Message(p, 1, n, 0, 0)
    case Unlock(p, n) => Message(p, 2, n, 0, 0)
    case Wait(p, c, n) => Message(p, 3, n, c, 0)
    case Broadcast(p, c) => Message(p, 4, 0, c, 0)
    case Interrupt(p) => Message(0, 5, 0, 0, p)
    case Exit(p) => Message(0, 6, 0, 0, p)
  }

  // ------------------------------------------------------------------- laws

  // Only mutex n may differ.
  ghost predicate OtherMutexes(s: State, t: State, n: int) {
    forall k :: k != n ==> (k in t.mutexes <==> k in s.mutexes) && (k in s.mutexes ==> t.mutexes[k] == s.mutexes[k])
  }

  // n passes to the head of its queue, who is answered 0, or becomes free.
  ghost predicate Passes(s: State, t: State, n: int, rs: seq<Reply>) {
    var q := Queue(s, n);
    if q == [] then n !in t.mutexes && rs == []
    else n in t.mutexes && t.mutexes[n] == Mutex(q[0], q[1..]) && rs == [Reply(q[0], Ok)]
  }

  // p asks for n: it owns a free mutex, is refused one that it owns, and queues
  // last for one that another owns.
  ghost predicate LockLaw(s: State, t: State, rs: seq<Reply>, p: int, n: int) {
    && OtherMutexes(s, t, n) && t.cvs == s.cvs && n in t.mutexes
    && (n !in s.mutexes ==> t.mutexes[n] == Mutex(p, []) && rs == [Reply(p, Ok)])
    && (Owns(s, p, n) ==> t.mutexes[n] == s.mutexes[n] && rs == [Reply(p, EPerm)])
    && (n in s.mutexes && !Owns(s, p, n) ==>
          t.mutexes[n] == Mutex(s.mutexes[n].owner, s.mutexes[n].queue + [p]) && rs == [])
  }

  ghost predicate UnlockLaw(s: State, t: State, rs: seq<Reply>, p: int, n: int) {
    if Owns(s, p, n) then
      && OtherMutexes(s, t, n) && t.cvs == s.cvs
      && rs != [] && rs[|rs| - 1] == Reply(p, Ok) && Passes(s, t, n, rs[..|rs| - 1])
    else t == s && rs == [Reply(p, EPerm)]
  }

  // p, the owner of n, gives it up and waits last on c, without an answer.
  ghost predicate WaitLaw(s: State, t: State, rs: seq<Reply>, p: int, c: int, n: int) {
    if Owns(s, p, n) then
      && OtherMutexes(s, t, n) && Passes(s, t, n, rs)
      && Waiters(t, c) == Waiters(s, c) + [Waiter(p, n)] && forall d :: d != c ==> Waiters(t, d) == Waiters(s, d)
    else t == s && rs == [Reply(p, MinusEInval)]
  }

  // Nobody waits on c any more; all who did follow owner and queue of the mutex
  // they came with, in wait order. Those who own it now are answered 0, then p.
  ghost predicate BroadcastLaw(s: State, t: State, rs: seq<Reply>, p: int, c: int) {
    && Waiters(t, c) == [] && (forall d :: d != c ==> Waiters(t, d) == Waiters(s, d))
    && (forall n :: Line(t, n) == Line(s, n) + Coming(Waiters(s, c), n))
    && rs != [] && rs[|rs| - 1] == Reply(p, Ok)
    && (forall r :: r in rs[..|rs| - 1] <==> ComesFirst(s, c, r))
  }

  // The first of c's waiters that came with a mutex now free.
  ghost predicate ComesFirst(s: State, c: int, r: Reply) {
    exists n :: n !in s.mutexes && Coming(Waiters(s, c), n) != [] && r == Reply(Coming(Waiters(s, c), n)[0], Ok)
  }

  // p keeps what it owns, leaves all queues and lists, and is told so if it was in
  // one.
  ghost predicate InterruptLaw(s: State, t: State, rs: seq<Reply>, p: int) {
    && p !in Blocked(t) && (forall q, n :: Owns(t, q, n) <==> Owns(s, q, n))
    && (forall n :: Queue(t, n) == Without(Queue(s, n), p))
    && (forall c :: Waiters(t, c) == WithoutProc(Waiters(s, c), p))
    && rs == if p in Blocked(s) then [Reply(p, EIntr)] else []
  }

  // p owns nothing and is nowhere; what it owned passes to the heads of the queues,
  // who are answered 0, and nobody else is.
  ghost predicate ExitLaw(s: State, t: State, rs: seq<Reply>, p: int) {
    && p !in Blocked(t) && (forall n :: !Owns(t, p, n))
    && (forall n :: Bequest(s, t, p, n))
    && (forall c :: Waiters(t, c) == WithoutProc(Waiters(s, c), p))
    && (forall r :: r in rs <==> Inherits(s, p, r))
  }

  // What becomes of mutex n when p exits: one of another loses p from its queue.
  ghost predicate Bequest(s: State, t: State, p: int, n: int) {
    if !Owns(s, p, n) then
      && (n in t.mutexes <==> n in s.mutexes) && Queue(t, n) == Without(Queue(s, n), p)
      && (n in s.mutexes ==> t.mutexes[n].owner == s.mutexes[n].owner)
    else if Queue(s, n) == [] then n !in t.mutexes
    else Owns(t, Queue(s, n)[0], n) && Queue(t, n) == Without(Queue(s, n)[1..], p)
  }

  // The head of the queue of a mutex of p.
  ghost predicate Inherits(s: State, p: int, r: Reply) {
    exists n :: Owns(s, p, n) && Queue(s, n) != [] && r == Reply(Queue(s, n)[0], Ok)
  }

  // What the message m does, from the tables s to t with the replies rs: 1 lock,
  // 2 unlock, 3 wait, 4 broadcast, each by its source; 5 a caught signal and 6 an
  // exit of the process named by the process manager.
  ghost predicate MessageLaw(s: State, t: State, m: Message, rs: seq<Reply>) {
    && (m.typ == 1 ==> LockLaw(s, t, rs, m.source, m.i1))
    && (m.typ == 2 ==> UnlockLaw(s, t, rs, m.source, m.i1))
    && (m.typ == 3 ==> WaitLaw(s, t, rs, m.source, m.i2, m.i1))
    && (m.typ == 4 ==> BroadcastLaw(s, t, rs, m.source, m.i2))
    && (m.typ == 5 ==> InterruptLaw(s, t, rs, m.pmProc))
    && (m.typ == 6 ==> ExitLaw(s, t, rs, m.pmProc))
    && (m.typ < 1 || m.typ > 6 ==> t == s && rs == [Reply(m.source, EInval)])
  }

  lemma WaitObeys(s: State, p: int, c: int, n: int)
    ensures WaitLaw(s, Next(s, Wait(p, c, n)), Replies(s, Wait(p, c, n)), p, c, n)
  {
  }

  lemma LockObeys(s: State, p: int, n: int)
    ensures LockLaw(s, Next(s, Lock(p, n)), Replies(s, Lock(p, n)), p, n)
  {
  }

  lemma UnlockObeys(s: State, p: int, n: int)
    ensures UnlockLaw(s, Next(s, Unlock(p, n)), Replies(s, Unlock(p, n)), p, n)
  {
    if Owns(s, p, n) {
      var rs := ReleaseReplies(s, n) + [Reply(p, Ok)];
      assert rs[..|rs| - 1] == ReleaseReplies(s, n);
    }
  }

  lemma BroadcastObeys(s: State, p: int, c: int)
    requires Inv(s)
    ensures BroadcastLaw(s, Next(s, Broadcast(p, c)), Replies(s, Broadcast(p, c)), p, c)
  {
    var t, rs := WakeAll(s, c).state, WakeAll(s, c).replies;
    assert (rs + [Reply(p, Ok)])[..|rs|] == rs;
    forall d ensures Waiters(t, d) == if d == c then [] else Waiters(s, d) {
      WakeAllLists(s, c, d);
    }
    forall n ensures Line(t, n) == Line(s, n) + Coming(Waiters(s, c), n) {
      WakeAllLine(s, c, n);
    }
    forall r ensures r in rs <==> ComesFirst(s, c, r) {
      WakeAllReplies(s, c, r);
    }
  }

  lemma InterruptObeys(s: State, p: int)
    requires Inv(s)
    ensures InterruptLaw(s, Next(s, Interrupt(p)), Replies(s, Interrupt(p)), p)
  {
    ForgetKeeps(s, p);
    ForgetShape(s, p);
  }

  lemma ExitPasses(s: State, p: int, n: int)
    ensures Bequest(s, Departed(s, p), p, n)
  {
  }

  lemma ExitLists(s: State, p: int)
    ensures forall c :: Waiters(Departed(s, p), c) == WithoutProc(Waiters(s, c), p)
  {
  }

  lemma ExitObeys(s: State, p: int, rs: seq<Reply>)
    requires Inv(s) && Produces(s, Exit(p), rs)
    ensures ExitLaw(s, Next(s, Exit(p)), rs, p)
  {
    DepartedAbsent(s, p);
    ExitLists(s, p);
    ExitGrants(s, p, rs);
    forall n ensures Bequest(s, Departed(s, p), p, n) {
      ExitPasses(s, p, n);
    }
  }

  lemma ExitGrants(s: State, p: int, rs: seq<Reply>)
    requires Inv(s) && Produces(s, Exit(p), rs)
    ensures forall r :: r in rs <==> Inherits(s, p, r)
  {
    ExitReplies(s, p, rs);
    forall r ensures r in rs <==> Inherits(s, p, r) {
      if r in rs {
        var m :| Contended(s, p, m) && r == Reply(Queue(s, m)[0], Ok);
        assert Owns(s, p, m) && Queue(s, m) != [];
      }
      if n :| Owns(s, p, n) && Queue(s, n) != [] && r == Reply(Queue(s, n)[0], Ok) {
        assert Contended(s, p, n);
      }
    }
  }

  // Every step obeys the law of its message.
  lemma DecodeLaw(s: State, m: Message, rs: seq<Reply>)
    requires Inv(s) && Produces(s, Decode(m), rs)
    ensures MessageLaw(s, Next(s, Decode(m)), m, rs)
  {
    LockObeys(s, m.source, m.i1);
    UnlockObeys(s, m.source, m.i1);
    WaitObeys(s, m.source, m.i2, m.i1);
    if m.typ == 4 { BroadcastObeys(s, m.source, m.i2); }
    if m.typ == 5 { InterruptObeys(s, m.pmProc); }
    if m.typ == 6 { ExitObeys(s, m.pmProc, rs); }
  }

  lemma DecodeLaws(s: State, m: Message)
    requires Inv(s)
    ensures forall rs :: Produces(s, Decode(m), rs) ==> MessageLaw(s, Next(s, Decode(m)), m, rs)
  {
    forall rs | Produces(s, Decode(m), rs) ensures MessageLaw(s, Next(s, Decode(m)), m, rs) {
      DecodeLaw(s, m, rs);
    }
  }

  // The k-th message does what its fields say.
  ghost predicate LawAt(input: seq<Message>, es: seq<Event>, k: int)
    requires 0 <= k < |es| == |input|
  {
    MessageLaw(After(EMPTY, es[..k]), After(EMPTY, es[..k + 1]), input[k], es[k].replies)
  }

  lemma RunLaws(input: seq<Message>, es: seq<Event>)
    requires Run(EMPTY, es) && |es| == |input| && forall k :: 0 <= k < |es| ==> es[k].request == Decode(input[k])
    ensures forall k :: 0 <= k < |es| ==> LawAt(input, es, k)
  {
    EmptyAgrees();
    forall k | 0 <= k < |es| ensures LawAt(input, es, k) {
      RunSplit(EMPTY, es, k);
      RunAgrees(EMPTY, NOTHING, es[..k]);
      StepAt(EMPTY, es, k);
      DecodeLaw(After(EMPTY, es[..k]), input[k], es[k].replies);
    }
  }

  lemma {:induction false} StepAt(s: State, es: seq<Event>, k: int)
    requires Run(s, es) && 0 <= k < |es|
    ensures Produces(After(s, es[..k]), es[k].request, es[k].replies)
    ensures After(s, es[..k + 1]) == Next(After(s, es[..k]), es[k].request)
    decreases k
  {
    if k == 0 {
      assert es[..1][1..] == [];
    } else {
      assert es[..k][1..] == es[1..][..k - 1] && es[..k + 1][1..] == es[1..][..k];
      StepAt(Next(s, es[0].request), es[1..], k - 1);
    }
  }
}
