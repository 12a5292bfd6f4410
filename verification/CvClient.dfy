// The client library's cs_lock and cs_wait, composed with the server. A call
// may be interrupted by signals any number of times; the library retries.
module CvClient {
  import opened Sequences
  import opened CvModel
  import opened CvInvariant
  import opened CvExit
  import opened CvFifo
  import CvTrace

  // Where a library call of process p on mutex m stands. `Done(true)` is a
  // return of 0, `Done(false)` a failure.
  datatype Phase = WaitSent | LockDue | LockSent | Done(ok: bool)

  // One answer of the server, in a phase that awaits one.
  function OnAnswer(ph: Phase, code: Code): Phase {
    match code
    case Ok => Done(true)
    case EIntr => LockDue
    case _ => Done(false)
  }

  // ---------------------------------------------------- the library's loops

  // The phase after the given answers, when every due retry is sent.
  function AfterAnswers(ph: Phase, answers: seq<Code>): Phase
    decreases |answers|
  {
    if answers == [] || ph.Done? then ph
    else
      var next := OnAnswer(ph, answers[0]);
      AfterAnswers(if next == LockDue then LockSent else next, answers[1..])
  }

  // What cs_lock makes of the answers: it goes on while they are interruptions,
  // ends at the first other one, and succeeds only if that is 0.
  ghost predicate LockOutcome(answers: seq<Code>, ph: Phase) {
    || (ph == LockSent && forall i :: 0 <= i < |answers| ==> answers[i] == EIntr)
    || (exists k :: 0 <= k < |answers| && answers[k] != EIntr && ph == Done(answers[k] == Ok)
                    && forall i :: 0 <= i < k ==> answers[i] == EIntr)
  }

  // cs_lock: send, and send again as long as the answer is an interruption.
  // `answers` is what the server will say; the call may still be suspended when
  // they run out.
  method CsLock(answers: seq<Code>) returns (ph: Phase, used: nat)
    ensures used <= |answers| && ph == AfterAnswers(LockSent, answers) && LockOutcome(answers, ph)
    ensures ph == LockSent <==> forall i :: 0 <= i < |answers| ==> answers[i] == EIntr
    ensures ph.Done? ==> used > 0 && ph.ok == (answers[used - 1] == Ok) && answers[used - 1] != EIntr
                         && forall i :: 0 <= i < used - 1 ==> answers[i] == EIntr
  {
    used := 0;
    while used < |answers|
      invariant used <= |answers|
      invariant AfterAnswers(LockSent, answers) == AfterAnswers(LockSent, answers[used..])
      invariant forall i :: 0 <= i < used ==> answers[i] == EIntr
    {
      var code := answers[used];
      used := used + 1;
      if code == Ok {
        return Done(true), used;
      } else if code != EIntr {
        return Done(false), used;
      }
      assert answers[used - 1..][1..] == answers[used..];
    }
    return LockSent, used;
  }

  // cs_wait: send, and after an interruption take the mutex back with cs_lock; any
  // other answer ends the call, and only 0 is a success.
  method CsWait(answers: seq<Code>) returns (ph: Phase)
    ensures ph == AfterAnswers(WaitSent, answers)
    ensures answers == [] ==> ph == WaitSent
    ensures answers != [] && answers[0] == Ok ==> ph == Done(true)
    ensures answers != [] && answers[0] != Ok && answers[0] != EIntr ==> ph == Done(false)
    ensures answers != [] && answers[0] == EIntr ==> LockOutcome(answers[1..], ph)
  {
    if answers == [] {
      return WaitSent;
    }
    if answers[0] == EIntr {
      var used;
      ph, used := CsLock(answers[1..]);
    } else {
      ph := Done(answers[0] == Ok);
    }
  }

  // ------------------------------------------------------- inside a run

  function AnswersTo(p: int, rs: seq<Reply>): seq<Code> {
    if rs == [] then []
    else (if rs[0].to == p then [rs[0].code] else []) + AnswersTo(p, rs[1..])
  }

  // One event of the system, seen by the library call of p: its own retry goes
  // out, or an answer for it comes in.
  function Advance(ph: Phase, p: int, e: Event): Phase {
    var sent := if IsCall(e.request) && e.request.proc == p then LockSent else ph;
    var codes := AnswersTo(p, e.replies);
    if codes == [] then sent else OnAnswer(sent, codes[0])
  }

  function AdvanceAll(ph: Phase, p: int, es: seq<Event>): Phase
    decreases es
  {
    if es == [] then ph else AdvanceAll(Advance(ph, p, es[0]), p, es[1..])
  }

  // p runs the library code and does not die: the only call it sends is a due
  // retry.
  ghost predicate Follows(ph: Phase, p: int, m: int, es: seq<Event>)
    decreases es
  {
    es == [] ||
    (&& es[0].request != Exit(p)
     && (IsCall(es[0].request) && es[0].request.proc == p ==> ph == LockDue && es[0].request == Lock(p, m))
     && Follows(Advance(ph, p, es[0]), p, m, es[1..]))
  }

  // What the trace says in each phase; owned is whether p owns m.
  ghost predicate Stands(v: CvTrace.View, owned: bool, ph: Phase, p: int, m: int) {
    match ph
    case WaitSent => CvTrace.AsksFor(v, p, m) && !owned
    case LockDue => p !in v.pending && !owned
    case LockSent => CvTrace.AsksFor(v, p, m) && !owned
    case Done(ok) => ok && p !in v.pending && owned
  }

  ghost predicate Consistent(s: State, v: CvTrace.View, ph: Phase, p: int, m: int) {
    Stands(v, Owns(s, p, m), ph, p, m)
  }

  // --------------------------------------------------- answers and the view

  lemma {:induction false} NoAnswer(v: CvTrace.View, rs: seq<Reply>, p: int)
    requires AnswersTo(p, rs) == [] || p !in v.pending
    ensures var w := CvTrace.ReceiveAll(v, rs);
            (p in w.pending <==> p in v.pending) && (p in v.pending ==> w.pending[p] == v.pending[p])
            && forall m :: (p, m) in w.holds <==> (p, m) in v.holds
    decreases rs
  {
    if rs != [] {
      NoAnswer(CvTrace.Receive(v, rs[0]), rs[1..], p);
    }
  }

  lemma {:induction false} Answered(v: CvTrace.View, rs: seq<Reply>, p: int, m: int)
    requires AnswersTo(p, rs) != [] && CvTrace.AsksFor(v, p, m)
    ensures var w := CvTrace.ReceiveAll(v, rs);
            p !in w.pending && ((p, m) in w.holds <==> (p, m) in v.holds || AnswersTo(p, rs)[0] == Ok)
    decreases rs
  {
    var u := CvTrace.Receive(v, rs[0]);
    if rs[0].to == p {
      NoAnswer(u, rs[1..], p);
    } else {
      Answered(u, rs[1..], p, m);
    }
  }

  lemma {:induction false} AnswersAre(p: int, rs: seq<Reply>, code: Code)
    requires forall r :: r in rs && r.to == p ==> r.code == code
    ensures forall c :: c in AnswersTo(p, rs) ==> c == code
  {
    if rs != [] {
      assert rs[0] in rs;
      AnswersAre(p, rs[1..], code);
    }
  }

  // A process that is neither the sender nor the one interrupted is answered 0
  // if at all.
  lemma OthersGetOk(s: State, r: Request, rs: seq<Reply>, p: int)
    requires Inv(s) && Produces(s, r, rs) && r.proc != p
    ensures forall c :: c in AnswersTo(p, rs) ==> c == Ok
  {
    forall x | x in rs && x.to == p ensures x.code == Ok {
      match r
      case Broadcast(_, c) => WakeAllReplies(s, c, x);
      case Exit(q) => ExitReplies(s, q, rs);
      case _ =>
    }
    AnswersAre(p, rs, Ok);
  }

  // -------------------------------------------------------------- one event

  // Events of others, seen by p: an answer of 0 or nothing.
  lemma OthersView(v: CvTrace.View, e: Event, ph: Phase, p: int, m: int)
    requires Stands(v, (p, m) in v.holds, ph, p, m) && e.request.proc != p
    requires CvTrace.Expected(CvTrace.Send(v, e.request, e.replies), e.replies)
    requires forall c :: c in AnswersTo(p, e.replies) ==> c == Ok
    ensures var w := CvTrace.Observe(v, e.request, e.replies);
            Stands(w, (p, m) in w.holds, Advance(ph, p, e), p, m)
  {
    var u, rs := CvTrace.Send(v, e.request, e.replies), e.replies;
    if p !in v.pending || AnswersTo(p, rs) == [] {
      NoAnswer(u, rs, p);
      if p !in v.pending { UnasksNoAnswer(u, rs, p); }
    } else {
      Answered(u, rs, p, m);
      assert AnswersTo(p, rs)[0] in AnswersTo(p, rs);
    }
  }

  lemma HoldsOwns(s: State, v: CvTrace.View, p: int, m: int)
    requires CvTrace.Agree(s, v)
    ensures (p, m) in v.holds <==> Owns(s, p, m)
  {
  }

  lemma OthersStep(s: State, v: CvTrace.View, e: Event, ph: Phase, p: int, m: int)
    requires Inv(s) && CvTrace.Agree(s, v) && Legal(s, e.request) && Produces(s, e.request, e.replies)
    requires Consistent(s, v, ph, p, m) && e.request.proc != p
    ensures Consistent(Next(s, e.request), CvTrace.Observe(v, e.request, e.replies), Advance(ph, p, e), p, m)
  {
    CvTrace.StepAgrees(s, v, e.request, e.replies);
    OthersGetOk(s, e.request, e.replies, p);
    HoldsOwns(s, v, p, m);
    HoldsOwns(Next(s, e.request), CvTrace.Observe(v, e.request, e.replies), p, m);
    OthersView(v, e, ph, p, m);
  }

  lemma {:induction false} UnasksNoAnswer(v: CvTrace.View, rs: seq<Reply>, p: int)
    requires CvTrace.Expected(v, rs) && p !in v.pending
    ensures AnswersTo(p, rs) == []
    decreases rs
  {
    if rs != [] {
      UnasksNoAnswer(CvTrace.Receive(v, rs[0]), rs[1..], p);
    }
  }

  // Interrupting p leaves its mutexes alone and answers its call, if it has one.
  lemma InterruptFacts(s: State, p: int, m: int)
    ensures Owns(Next(s, Interrupt(p)), p, m) <==> Owns(s, p, m)
    ensures AnswersTo(p, Replies(s, Interrupt(p))) == if p in Blocked(s) then [EIntr] else []
  {
  }

  lemma InterruptView(s: State, v: CvTrace.View, p: int)
    requires p in Blocked(s) <==> p in v.pending
    ensures var w := CvTrace.Observe(v, Interrupt(p), Replies(s, Interrupt(p)));
            p !in w.pending && (p !in v.pending ==> w == v)
  {
    if p in Blocked(s) {
      CvTrace.ReceiveOne(v, Reply(p, EIntr));
    }
  }

  lemma InterruptStep(s: State, v: CvTrace.View, ph: Phase, p: int, m: int)
    requires v.pending.Keys == Blocked(s) && Consistent(s, v, ph, p, m)
    ensures var e := Event(Interrupt(p), Replies(s, Interrupt(p)));
            Consistent(Next(s, e.request), CvTrace.Observe(v, e.request, e.replies), Advance(ph, p, e), p, m)
  {
    InterruptFacts(s, p, m);
    InterruptView(s, v, p);
  }

  lemma RetryView(v: CvTrace.View, p: int, m: int, free: bool)
    requires p !in v.pending
    ensures var e := Event(Lock(p, m), if free then [Reply(p, Ok)] else []);
            Stands(CvTrace.Observe(v, e.request, e.replies), free, Advance(LockDue, p, e), p, m)
  {
    if free {
      assert [Reply(p, Ok)][1..] == [];
      assert AnswersTo(p, [Reply(p, Ok)]) == [Ok];
      CvTrace.ReceiveOne(CvTrace.Send(v, Lock(p, m), [Reply(p, Ok)]), Reply(p, Ok));
    }
  }

  lemma RetryStep(s: State, v: CvTrace.View, p: int, m: int)
    requires p !in v.pending && !Owns(s, p, m)
    ensures var e := Event(Lock(p, m), Replies(s, Lock(p, m)));
            Consistent(Next(s, e.request), CvTrace.Observe(v, e.request, e.replies), Advance(LockDue, p, e), p, m)
  {
    RetryView(v, p, m, m !in s.mutexes);
  }

  lemma StepConsistent(s: State, v: CvTrace.View, e: Event, ph: Phase, p: int, m: int)
    requires Inv(s) && CvTrace.Agree(s, v) && Legal(s, e.request) && Produces(s, e.request, e.replies)
    requires Consistent(s, v, ph, p, m) && Follows(ph, p, m, [e])
    ensures Consistent(Next(s, e.request), CvTrace.Observe(v, e.request, e.replies), Advance(ph, p, e), p, m)
  {
    if e.request.proc != p {
      OthersStep(s, v, e, ph, p, m);
    } else if e.request.Interrupt? {
      CvTrace.PendingSize(s, v);
      InterruptStep(s, v, ph, p, m);
    } else {
      RetryStep(s, v, p, m);
    }
  }

  lemma {:induction false} CallConsistent(s: State, v: CvTrace.View, es: seq<Event>, ph: Phase, p: int, m: int)
    requires Inv(s) && CvTrace.Agree(s, v) && Run(s, es) && Follows(ph, p, m, es)
    requires Consistent(s, v, ph, p, m)
    ensures Consistent(After(s, es), CvTrace.ObserveAll(v, es), AdvanceAll(ph, p, es), p, m)
    decreases es
  {
    if es != [] {
      var r, rs := es[0].request, es[0].replies;
      StepConsistent(s, v, es[0], ph, p, m);
      CvTrace.StepAgrees(s, v, r, rs);
      CallConsistent(Next(s, r), CvTrace.Observe(v, r, rs), es[1..], Advance(ph, p, es[0]), p, m);
    }
  }

  // -------------------------------------------- the loops and the whole run

  // All that the server says to p in a run.
  function Codes(p: int, es: seq<Event>): seq<Code> {
    if es == [] then [] else AnswersTo(p, es[0].replies) + Codes(p, es[1..])
  }

  // The loop sends a retry as soon as it is due.
  function Settle(ph: Phase): Phase {
    if ph == LockDue then LockSent else ph
  }

  lemma {:induction false} AfterConcat(ph: Phase, a: seq<Code>, b: seq<Code>)
    ensures AfterAnswers(ph, a + b) == AfterAnswers(AfterAnswers(ph, a), b)
    decreases |a|
  {
    if a == [] || ph.Done? {
      assert a == [] ==> a + b == b;
    } else {
      assert (a + b)[1..] == a[1..] + b;
      AfterConcat(Settle(OnAnswer(ph, a[0])), a[1..], b);
    }
  }

  // A step answers p at most once, and only if it is waiting for an answer.
  lemma {:induction false} OneAnswer(v: CvTrace.View, rs: seq<Reply>, p: int)
    requires CvTrace.Expected(v, rs)
    ensures |AnswersTo(p, rs)| <= if p in v.pending then 1 else 0
    decreases rs
  {
    if rs != [] {
      OneAnswer(CvTrace.Receive(v, rs[0]), rs[1..], p);
    }
  }

  lemma StepSettles(v: CvTrace.View, e: Event, ph: Phase, p: int, m: int)
    requires CvTrace.Expected(CvTrace.Send(v, e.request, e.replies), e.replies)
    requires Follows(ph, p, m, [e]) && (ph.LockDue? || ph.Done? ==> p !in v.pending)
    ensures Settle(Advance(ph, p, e)) == AfterAnswers(Settle(ph), AnswersTo(p, e.replies))
  {
    var codes := AnswersTo(p, e.replies);
    OneAnswer(CvTrace.Send(v, e.request, e.replies), e.replies, p);
    if codes != [] {
      assert codes[1..] == [];
    }
  }

  // What the loops make of the answers is where the call stands in the run.
  lemma {:induction false} LoopFollowsRun(s: State, v: CvTrace.View, es: seq<Event>, ph: Phase, p: int, m: int)
    requires Inv(s) && CvTrace.Agree(s, v) && Run(s, es) && Follows(ph, p, m, es)
    requires Consistent(s, v, ph, p, m)
    ensures Settle(AdvanceAll(ph, p, es)) == AfterAnswers(Settle(ph), Codes(p, es))
    decreases es
  {
    if es != [] {
      var r, rs := es[0].request, es[0].replies;
      StepConsistent(s, v, es[0], ph, p, m);
      CvTrace.StepAgrees(s, v, r, rs);
      StepSettles(v, es[0], ph, p, m);
      AfterConcat(Settle(ph), AnswersTo(p, rs), Codes(p, es[1..]));
      LoopFollowsRun(Next(s, r), CvTrace.Observe(v, r, rs), es[1..], Advance(ph, p, es[0]), p, m);
    }
  }

  // ------------------------------------------------------------ the results

  // The accepted wait itself is not answered.
  lemma {:induction false} WaitSends(s: State, v: CvTrace.View, e: Event, p: int, c: int, m: int)
    requires Inv(s) && CvTrace.Agree(s, v) && Legal(s, e.request) && Produces(s, e.request, e.replies)
    requires e.request == Wait(p, c, m) && Owns(s, p, m)
    ensures Consistent(Next(s, e.request), CvTrace.Observe(v, e.request, e.replies), WaitSent, p, m)
    ensures AnswersTo(p, e.replies) == []
    ensures Inv(Next(s, e.request)) && CvTrace.Agree(Next(s, e.request), CvTrace.Observe(v, e.request, e.replies))
  {
    CvTrace.PendingSize(s, v);
    CvTrace.StepAgrees(s, v, e.request, e.replies);
    assert p !in Queue(s, m);
    if Queue(s, m) != [] {
      assert Queue(s, m)[0] in Queue(s, m);
      assert e.replies[1..] == [];
    }
    CvTrace.PendingKept(s, CvTrace.Send(v, e.request, e.replies), m, p);
  }

  // Library cs_wait by the owner of m, on all that the server says to it in a run:
  // whatever the other processes do and however many signals arrive, it returns 0
  // or has not returned; and it returns holding m.
  lemma {:induction false} WaitReturnsHolding(s: State, v: CvTrace.View, es: seq<Event>, p: int, c: int, m: int)
    requires Inv(s) && CvTrace.Agree(s, v) && Run(s, es) && es != [] && es[0].request == Wait(p, c, m)
    requires Owns(s, p, m) && Follows(WaitSent, p, m, es[1..])
    ensures var ph := AfterAnswers(WaitSent, Codes(p, es));
            ph != Done(false) && (ph == Done(true) ==> Owns(After(s, es), p, m))
  {
    WaitSends(s, v, es[0], p, c, m);
    SilentFirst(s, es, p);
    WaitResumes(Next(s, es[0].request), CvTrace.Observe(v, es[0].request, es[0].replies), es[1..], p, m);
  }

  lemma SilentFirst(s: State, es: seq<Event>, p: int)
    requires es != [] && AnswersTo(p, es[0].replies) == []
    ensures Codes(p, es) == Codes(p, es[1..]) && After(s, es) == After(Next(s, es[0].request), es[1..])
  {
  }

  lemma WaitResumes(s: State, v: CvTrace.View, es: seq<Event>, p: int, m: int)
    requires Inv(s) && CvTrace.Agree(s, v) && Run(s, es)
    requires Consistent(s, v, WaitSent, p, m) && Follows(WaitSent, p, m, es)
    ensures var ph := AfterAnswers(WaitSent, Codes(p, es));
            ph != Done(false) && (ph == Done(true) ==> Owns(After(s, es), p, m))
  {
    LoopFollowsRun(s, v, es, WaitSent, p, m);
    CallConsistent(s, v, es, WaitSent, p, m);
  }

  // Library cs_wait, on all that the server says to it in a run, fails exactly when
  // the caller does not own m: it does not go on to lock m then.
  lemma {:induction false} WaitFailsIffNotOwner(s: State, v: CvTrace.View, es: seq<Event>, p: int, c: int, m: int)
    requires Inv(s) && CvTrace.Agree(s, v) && Run(s, es) && es != [] && es[0].request == Wait(p, c, m)
    requires Owns(s, p, m) ==> Follows(WaitSent, p, m, es[1..])
    ensures AfterAnswers(WaitSent, Codes(p, es)) == Done(false) <==> !Owns(s, p, m)
  {
    if Owns(s, p, m) {
      WaitReturnsHolding(s, v, es, p, c, m);
    } else {
      assert es[0].replies[1..] == [];
      assert Codes(p, es)[0] == MinusEInval;
    }
  }

  // Library cs_lock, on all that the server says to it in a run, fails exactly
  // when the caller already owns m; otherwise it returns 0 or has not returned,
  // and it returns holding m.
  lemma {:induction false} LockFailsIffOwner(s: State, v: CvTrace.View, es: seq<Event>, p: int, m: int)
    requires Inv(s) && CvTrace.Agree(s, v) && Run(s, es) && es != [] && es[0].request == Lock(p, m)
    requires Follows(LockDue, p, m, es)
    ensures var ph := AfterAnswers(LockSent, Codes(p, es));
            && (ph == Done(false) <==> Owns(s, p, m))
            && (ph == Done(true) ==> Owns(After(s, es), p, m))
  {
    CvTrace.PendingSize(s, v);
    if Owns(s, p, m) {
      assert es[0].replies[1..] == [];
      assert Codes(p, es)[0] == EPerm;
    } else {
      LoopFollowsRun(s, v, es, LockDue, p, m);
      CallConsistent(s, v, es, LockDue, p, m);
    }
  }
}
