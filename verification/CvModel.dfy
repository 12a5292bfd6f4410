// The mutex / condition-variable server as an abstract machine: a map from
// mutex number to (owner, FIFO queue) and a map from condition-variable number
// to its wait list. One request is one atomic step with a list of replies.
module CvModel {
  import opened Sequences

  // Reply codes. `MinusEInval` is the negated code answered by a rejected wait;
  // it is kept apart from `EInval`, the answer to an unknown request type.
  datatype Code = Ok | EPerm | EInval | MinusEInval | EIntr

  // What a request handler returns: a code to send, or no reply for now.
  datatype Answer = Send(code: Code) | DontReply

  datatype Reply = Reply(to: int, code: Code)

  datatype Mutex = Mutex(owner: int, queue: seq<int>)

  datatype Waiter = Waiter(proc: int, mutex: int)

  datatype State = State(mutexes: map<int, Mutex>, cvs: map<int, seq<Waiter>>)

  datatype Outcome = Outcome(state: State, replies: seq<Reply>)

  datatype Request =
    | Lock(proc: int, mutex: int)
    | Unlock(proc: int, mutex: int)
    | Wait(proc: int, cv: int, mutex: int)
    | Broadcast(proc: int, cv: int)
    | Unknown(proc: int)
    | Interrupt(proc: int)
    | Exit(proc: int)

  const EMPTY := State(map[], map[])

  // Interrupts and exits are notices from the process manager; everything else
  // is a call whose sender is suspended until it is answered.
  predicate IsCall(r: Request) {
    !r.Interrupt? && !r.Exit?
  }

  // ---------------------------------------------------------------- queries

  function Queue(s: State, m: int): seq<int> {
    if m in s.mutexes then s.mutexes[m].queue else []
  }

  function Waiters(s: State, c: int): seq<Waiter> {
    if c in s.cvs then s.cvs[c] else []
  }

  predicate Owns(s: State, p: int, m: int) {
    m in s.mutexes && s.mutexes[m].owner == p
  }

  function Queued(s: State): set<int> {
    set m, p | m in s.mutexes && p in s.mutexes[m].queue :: p
  }

  function Parked(s: State): set<int> {
    set c, w | c in s.cvs && w in s.cvs[c] :: w.proc
  }

  // The processes suspended inside the server.
  function Blocked(s: State): set<int> {
    Queued(s) + Parked(s)
  }

  // ------------------------------------------------------- elementary steps

  function Acquire(s: State, p: int, m: int): State {
    if m !in s.mutexes then s.(mutexes := s.mutexes[m := Mutex(p, [])])
    else if s.mutexes[m].owner == p then s
    else s.(mutexes := s.mutexes[m := Mutex(s.mutexes[m].owner, s.mutexes[m].queue + [p])])
  }

  function AcquireAnswer(s: State, p: int, m: int): Answer {
    if m !in s.mutexes then Send(Ok)
    else if s.mutexes[m].owner == p then Send(EPerm)
    else DontReply
  }

  // The owner gives m up: the head of the queue gets it and is answered, or m
  // becomes free.
  function Release(s: State, m: int): State
    requires m in s.mutexes
  {
    var q := s.mutexes[m].queue;
    if q == [] then s.(mutexes := s.mutexes - {m})
    else s.(mutexes := s.mutexes[m := Mutex(q[0], q[1..])])
  }

  function ReleaseReplies(s: State, m: int): seq<Reply>
    requires m in s.mutexes
  {
    var q := s.mutexes[m].queue;
    if q == [] then [] else [Reply(q[0], Ok)]
  }

  function Park(s: State, p: int, c: int, m: int): State {
    s.(cvs := s.cvs[c := Waiters(s, c) + [Waiter(p, m)]])
  }

  function SetWaiters(cvs: map<int, seq<Waiter>>, c: int, ws: seq<Waiter>): map<int, seq<Waiter>> {
    if ws == [] then cvs - {c} else cvs[c := ws]
  }

  // The first waiter of c leaves the list and asks for its mutex again.
  function WakeFirst(s: State, c: int): State
    requires Waiters(s, c) != []
  {
    var ws := Waiters(s, c);
    Acquire(s.(cvs := SetWaiters(s.cvs, c, ws[1..])), ws[0].proc, ws[0].mutex)
  }

  // Any answer at all, even an error, wakes the waiter with 0.
  function WakeFirstReplies(s: State, c: int): seq<Reply>
    requires Waiters(s, c) != []
  {
    var w := Waiters(s, c)[0];
    if AcquireAnswer(s, w.proc, w.mutex) == DontReply then [] else [Reply(w.proc, Ok)]
  }

  function WakeAll(s: State, c: int): Outcome
    decreases |Waiters(s, c)|
  {
    if Waiters(s, c) == [] then Outcome(s, [])
    else
      var rest := WakeAll(WakeFirst(s, c), c);
      Outcome(rest.state, WakeFirstReplies(s, c) + rest.replies)
  }

  function WithoutProc(ws: seq<Waiter>, p: int): seq<Waiter> {
    if ws == [] then []
    else if ws[0].proc == p then WithoutProc(ws[1..], p)
    else [ws[0]] + WithoutProc(ws[1..], p)
  }

  // p leaves every queue and every wait list; a list left empty disappears.
  function Forget(s: State, p: int): State {
    State(map m | m in s.mutexes :: Mutex(s.mutexes[m].owner, Without(s.mutexes[m].queue, p)),
          map c | c in s.cvs && WithoutProc(s.cvs[c], p) != [] :: WithoutProc(s.cvs[c], p))
  }

  // Releases in the given order, as done for an exiting process.
  function ReleaseAll(s: State, order: seq<int>): Outcome
    requires forall m :: m in order ==> m in s.mutexes
    requires Distinct(order)
    decreases |order|
  {
    if order == [] then Outcome(s, [])
    else
      var s1 := Release(s, order[0]);
      assert forall m :: m in order[1..] ==> exists i :: 0 < i < |order| && order[i] == m;
      var rest := ReleaseAll(s1, order[1..]);
      Outcome(rest.state, ReleaseReplies(s, order[0]) + rest.replies)
  }

  // The mutexes of p, each once, in some order. The server goes by table slot,
  // which the abstract state does not show.
  ghost predicate ReleaseOrder(s: State, p: int, order: seq<int>) {
    Distinct(order) && forall m :: m in order <==> Owns(s, p, m)
  }

  // The state an exit leaves, said without any order.
  function Departed(s: State, p: int): State {
    State(map m | m in s.mutexes && !(s.mutexes[m].owner == p && s.mutexes[m].queue == []) ::
            var x := s.mutexes[m];
            if x.owner == p then Mutex(x.queue[0], Without(x.queue[1..], p))
            else Mutex(x.owner, Without(x.queue, p)),
          Forget(s, p).cvs)
  }

  // ------------------------------------------------------------ whole steps

  function Next(s: State, r: Request): State {
    match r
    case Lock(p, m) => Acquire(s, p, m)
    case Unlock(p, m) => if Owns(s, p, m) then Release(s, m) else s
    case Wait(p, c, m) => if Owns(s, p, m) then Park(Release(s, m), p, c, m) else s
    case Broadcast(p, c) => WakeAll(s, c).state
    case Unknown(p) => s
    case Interrupt(p) => Forget(s, p)
    case Exit(p) => Departed(s, p)
  }

  // The replies of every step but an exit.
  function Replies(s: State, r: Request): seq<Reply>
    requires !r.Exit?
  {
    match r
    case Lock(p, m) =>
      var a := AcquireAnswer(s, p, m);
      if a == DontReply then [] else [Reply(p, a.code)]
    case Unlock(p, m) =>
      if Owns(s, p, m) then ReleaseReplies(s, m) + [Reply(p, Ok)] else [Reply(p, EPerm)]
    case Wait(p, c, m) =>
      if Owns(s, p, m) then ReleaseReplies(s, m) else [Reply(p, MinusEInval)]
    case Broadcast(p, c) => WakeAll(s, c).replies + [Reply(p, Ok)]
    case Unknown(p) => [Reply(p, EInval)]
    case Interrupt(p) => if p in Blocked(s) then [Reply(p, EIntr)] else []
  }

  // rs is a reply list the server may send in this step.
  ghost predicate Produces(s: State, r: Request, rs: seq<Reply>) {
    if r.Exit? then
      exists order :: ReleaseOrder(s, r.proc, order) && rs == ReleaseAll(s, order).replies
    else
      rs == Replies(s, r)
  }

  // The one demand on clients: a suspended process sends no call.
  predicate Legal(s: State, r: Request) {
    IsCall(r) ==> r.proc !in Blocked(s)
  }

  // ------------------------------------------------------------------- runs

  datatype Event = Event(request: Request, replies: seq<Reply>)

  function After(s: State, es: seq<Event>): State
    decreases es
  {
    if es == [] then s else After(Next(s, es[0].request), es[1..])
  }

  ghost predicate Run(s: State, es: seq<Event>)
    decreases es
  {
    es == [] ||
    (Legal(s, es[0].request)
     && Produces(s, es[0].request, es[0].replies)
     && Run(Next(s, es[0].request), es[1..]))
  }

  lemma ConcatAssoc(a: seq<Reply>, b: seq<Reply>, c: seq<Reply>)
    ensures a + b + c == a + (b + c)
  {
  }

  lemma {:induction false} RunSplit(s: State, es: seq<Event>, k: nat)
    requires Run(s, es) && k <= |es|
    ensures Run(s, es[..k]) && Run(After(s, es[..k]), es[k..])
    ensures After(s, es) == After(After(s, es[..k]), es[k..])
    decreases es
  {
    if k == 0 {
      assert es[..k] == [] && es[k..] == es;
    } else {
      assert es[..k][1..] == es[1..][..k - 1];
      assert es[k..] == es[1..][k - 1..];
      RunSplit(Next(s, es[0].request), es[1..], k - 1);
    }
  }
}
