// Wait lists step by step, the permanence of an exit, and the bound on the
// condition-variable table.
module CvLimits {
  import opened Sequences
  import opened CvModel
  import opened CvInvariant
  import opened CvExit
  import opened CvFifo
  import opened CvTrace

  // ------------------------------------------------------------ wait lists

  // The wait list of c after a step; `accepted` says that the sender of a wait
  // owned its mutex.
  function ListAfter(ws: seq<Waiter>, r: Request, accepted: bool, c: int): seq<Waiter> {
    match r
    case Wait(p, d, m) => if d == c && accepted then ws + [Waiter(p, m)] else ws
    case Broadcast(_, d) => if d == c then [] else ws
    case Interrupt(p) => WithoutProc(ws, p)
    case Exit(p) => WithoutProc(ws, p)
    case _ => ws
  }

  lemma {:induction false} WakeAllLists(s: State, c: int, d: int)
    requires Inv(s)
    ensures Waiters(WakeAll(s, c).state, d) == if d == c then [] else Waiters(s, d)
    decreases |Waiters(s, c)|
  {
    if Waiters(s, c) != [] {
      WakeFirstKeeps(s, c);
      WakeAllLists(WakeFirst(s, c), c, d);
    }
  }

  // Together with the law of lines this fixes the state after every step.
  lemma ListLaw(s: State, r: Request, c: int)
    requires Inv(s)
    ensures Waiters(Next(s, r), c) == ListAfter(Waiters(s, c), r, r.Wait? && Owns(s, r.proc, r.mutex), c)
  {
    match r
    case Broadcast(p, d) => WakeAllLists(s, d, c);
    case _ =>
  }

  lemma {:induction false} ComingMember(ws: seq<Waiter>, m: int, p: int)
    ensures p in Coming(ws, m) <==> Waiter(p, m) in ws
  {
    if ws != [] {
      ComingMember(ws[1..], m, p);
      assert ws == [ws[0]] + ws[1..];
    }
  }

  // No waiter is left behind by an announcement: each stands in the line of the
  // mutex it came with, and the wait list is gone.
  lemma NoLostWakeup(s: State, p: int, c: int, w: Waiter)
    requires Inv(s) && w in Waiters(s, c)
    ensures w.proc in Line(Next(s, Broadcast(p, c)), w.mutex)
    ensures c !in Next(s, Broadcast(p, c)).cvs
  {
    LineLaw(s, Broadcast(p, c), w.mutex);
    ComingMember(Waiters(s, c), w.mutex, w.proc);
    WakeAllKeeps(s, c);
  }

  // ------------------------------------------------------------- permanence

  lemma AbsentByPlace(s: State, p: int)
    requires Inv(s)
    ensures Absent(s, p) <==> (forall m :: p !in Line(s, m)) && (forall c, w :: w in Waiters(s, c) ==> w.proc != p)
  {
    BlockedByPlace(s, p);
    if Absent(s, p) {
      forall m ensures p !in Line(s, m) {
        assert p !in At(s, InQueue(m));
        assert !Owns(s, p, m);
      }
      NotWaiting(s, p);
    }
    if (forall m :: p !in Line(s, m)) && (forall c, w :: w in Waiters(s, c) ==> w.proc != p) {
      forall m ensures !Owns(s, p, m) {
        assert p !in Line(s, m);
      }
      forall x ensures p !in At(s, x) {
        if x.InQueue? { assert p !in Line(s, x.m); }
      }
    }
  }

  lemma StepAbsent(s: State, r: Request, p: int)
    requires Inv(s) && Legal(s, r) && Absent(s, p) && (IsCall(r) ==> r.proc != p)
    ensures Absent(Next(s, r), p)
  {
    AbsentByPlace(s, p);
    forall m ensures p !in Line(Next(s, r), m) {
      LineLaw(s, r, m);
      assert p !in Line(s, m);
      if r.Broadcast? { ComingMember(Waiters(s, r.cv), m, p); }
    }
    forall c, w | w in Waiters(Next(s, r), c) ensures w.proc != p {
      ListLaw(s, r, c);
      WithoutProcMember(Waiters(s, c), r.proc);
    }
    NextKeeps(s, r);
    AbsentByPlace(Next(s, r), p);
  }

  // Once out, a process that sends nothing more never owns, queues or waits
  // again.
  lemma {:induction false} ExitIsFinal(s: State, es: seq<Event>, p: int)
    requires Inv(s) && Run(s, es) && Absent(s, p)
    requires forall e :: e in es && IsCall(e.request) ==> e.request.proc != p
    ensures Absent(After(s, es), p)
    decreases es
  {
    if es != [] {
      assert es[0] in es;
      StepAbsent(s, es[0].request, p);
      NextKeeps(s, es[0].request);
      ExitIsFinal(Next(s, es[0].request), es[1..], p);
    }
  }

  lemma {:induction false} ExitCleansUp(s: State, p: int, es: seq<Event>, k: nat)
    requires Inv(s) && Run(Departed(s, p), es) && k <= |es|
    requires forall e :: e in es && IsCall(e.request) ==> e.request.proc != p
    ensures Absent(After(Departed(s, p), es[..k]), p)
  {
    DepartedKeeps(s, p);
    DepartedAbsent(s, p);
    RunSplit(Departed(s, p), es, k);
    ExitIsFinal(Departed(s, p), es[..k], p);
  }

  // --------------------------------------------------------------- capacity

  const MAX_MUTEX := 1024
  const MAX_CV := 512
  const MAX_WAITERS := 512

  // The first waiter of each condition variable.
  lemma {:induction false} KeysFit(s: State, keys: set<int>, xs: set<int>)
    requires Inv(s) && keys <= s.cvs.Keys
    requires forall c :: c in keys ==> s.cvs[c] != [] && s.cvs[c][0].proc in xs
    ensures |keys| <= |xs|
    decreases keys
  {
    if c :| c in keys {
      var p := s.cvs[c][0].proc;
      forall d | d in keys - {c} ensures s.cvs[d][0].proc in xs - {p} {
        assert s.cvs[d][0] in Waiters(s, d) && s.cvs[c][0] in Waiters(s, c);
        assert s.cvs[d][0].proc in At(s, OnList(d));
        assert p in At(s, OnList(c));
      }
      assert |xs - {p}| == |xs| - 1 && |keys - {c}| == |keys| - 1;
      KeysFit(s, keys - {c}, xs - {p});
    } else {
      NoMember(keys);
    }
  }

  lemma ParkedWaiter(s: State, c: int, p: int)
    requires p in Procs(Waiters(s, c))
    ensures p in Parked(s)
  {
  }

  // If the system has at most 512 processes, a process that is about to wait
  // finds a free slot in the condition-variable table and room in every list:
  // each used slot holds a waiter, and nobody waits twice.
  lemma CvCapacity(s: State, procs: set<int>, p: int)
    requires Inv(s) && Blocked(s) <= procs && |procs| <= MAX_CV
    requires p in procs && p !in Blocked(s)
    ensures |s.cvs| < MAX_CV
    ensures forall c :: |Waiters(s, c)| < MAX_WAITERS
  {
    var others := procs - {p};
    assert |others| < MAX_CV;
    forall c | c in s.cvs ensures s.cvs[c] != [] && s.cvs[c][0].proc in others {
      assert s.cvs[c][0] in s.cvs[c];
    }
    assert |s.cvs| == |s.cvs.Keys|;
    KeysFit(s, s.cvs.Keys, others);
    forall c ensures |Waiters(s, c)| < MAX_WAITERS {
      assert Distinct(At(s, OnList(c)));
      forall x | x in Procs(Waiters(s, c)) ensures x in others {
        ParkedWaiter(s, c, x);
      }
      DistinctFits(Procs(Waiters(s, c)), others);
    }
  }

  // Those of live, and of the callers since, that have not exited since their last
  // call.
  function LivingFrom(live: set<int>, es: seq<Event>): set<int>
    decreases es
  {
    if es == [] then live
    else LivingFrom(LiveAfter(live, es[0].request), es[1..])
  }

  function LiveAfter(live: set<int>, r: Request): set<int> {
    if IsCall(r) then live + {r.proc} else if r.Exit? then live - {r.proc} else live
  }

  function Living(es: seq<Event>): set<int> {
    LivingFrom({}, es)
  }

  lemma {:induction false} LivingSnoc(live: set<int>, es: seq<Event>, e: Event)
    ensures LivingFrom(live, es + [e]) == LiveAfter(LivingFrom(live, es), e.request)
    decreases es
  {
    if es == [] {
      assert es + [e] == [e];
      assert [e][1..] == [];
    } else {
      assert (es + [e])[1..] == es[1..] + [e];
      LivingSnoc(LiveAfter(live, es[0].request), es[1..], e);
    }
  }

  lemma {:induction false} ReceiveShrinks(v: View, rs: seq<Reply>)
    ensures ReceiveAll(v, rs).pending.Keys <= v.pending.Keys
    decreases rs
  {
    if rs != [] {
      ReceiveShrinks(Receive(v, rs[0]), rs[1..]);
    }
  }

  // Only callers that have not exited since can be blocked.
  lemma {:induction false} BlockedLive(s: State, v: View, live: set<int>, es: seq<Event>)
    requires Inv(s) && Agree(s, v) && Run(s, es) && Blocked(s) <= live
    ensures Blocked(After(s, es)) <= LivingFrom(live, es)
    decreases es
  {
    if es != [] {
      var r, rs := es[0].request, es[0].replies;
      var t, w := Next(s, r), Observe(v, r, rs);
      StepAgrees(s, v, r, rs);
      ReceiveShrinks(CvTrace.Send(v, r, rs), rs);
      PendingSize(s, v);
      PendingSize(t, w);
      BlockedLive(t, w, LiveAfter(live, r), es[1..]);
    }
  }

  // The same over whole runs, however many processes come and go: as long as at
  // most 512 live at once, neither the condition-variable table nor a wait list
  // overflows.
  lemma RunsFit(es: seq<Event>, p: int)
    requires Run(EMPTY, es) && |Living(es) + {p}| <= MAX_CV && p !in Blocked(After(EMPTY, es))
    ensures |After(EMPTY, es).cvs| < MAX_CV
    ensures forall c :: |Waiters(After(EMPTY, es), c)| < MAX_WAITERS
  {
    EmptyAgrees();
    RunAgrees(EMPTY, NOTHING, es);
    assert Blocked(EMPTY) == {};
    BlockedLive(EMPTY, NOTHING, {}, es);
    CvCapacity(After(EMPTY, es), Living(es) + {p}, p);
  }
}
