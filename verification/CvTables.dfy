// Facts about the two slot tables of the server that involve no heap.
module CvTables {
  import opened Sequences
  import opened CvModel
  import opened CvInvariant
  import opened SlotTable
  import opened CvLimits

  // An unused mutex slot has an empty queue.
  ghost predicate IdleEmpty(t: seq<Slot<Mutex>>) {
    forall i :: 0 <= i < |t| && !t[i].used ==> t[i].value.queue == []
  }

  lemma EmptyContents<V>(t: seq<Slot<V>>)
    requires forall i :: 0 <= i < |t| ==> !t[i].used
    ensures UniqueNumbers(t) && Contents(t) == map[]
  {
    OneLists(t, Contents(t), map[]);
  }

  lemma RoomForOne(t: seq<Slot<Mutex>>, n: int)
    requires UniqueNumbers(t) && n !in Contents(t) && |Contents(t).Keys + {n}| <= |t|
    ensures |Contents(t)| < |t|
  {
  }

  // -------------------------------------------- taking a process out of rows

  function PurgeMutex(x: Slot<Mutex>, p: int): Slot<Mutex> {
    x.(value := Mutex(x.value.owner, RemoveFirst(x.value.queue, p)))
  }

  function FirstOf(ws: seq<Waiter>, p: int): (k: nat)
    ensures k <= |ws|
    ensures k < |ws| ==> ws[k].proc == p
    ensures forall i :: 0 <= i < k ==> ws[i].proc != p
  {
    if ws == [] || ws[0].proc == p then 0 else 1 + FirstOf(ws[1..], p)
  }

  // The first entry of p goes; a slot that loses its only waiter is freed.
  function PurgeList(x: Slot<seq<Waiter>>, p: int): Slot<seq<Waiter>> {
    var k := FirstOf(x.value, p);
    if !x.used || k == |x.value| then x
    else if |x.value| == 1 then x.(used := false)
    else x.(value := x.value[..k] + x.value[k + 1..])
  }

  lemma PurgedMutexes(t: seq<Slot<Mutex>>, u: seq<Slot<Mutex>>, p: int)
    requires UniqueNumbers(t) && IdleEmpty(t)
    requires |u| == |t| && forall i :: 0 <= i < |t| ==> u[i] == PurgeMutex(t[i], p)
    requires forall i :: 0 <= i < |t| ==> Distinct(t[i].value.queue)
    ensures UniqueNumbers(u) && IdleEmpty(u)
    ensures var m := Contents(t);
            Contents(u) == map n | n in m :: Mutex(m[n].owner, Without(m[n].queue, p))
  {
    var m := Contents(t);
    var w := map n | n in m :: Mutex(m[n].owner, Without(m[n].queue, p));
    forall i | 0 <= i < |t| ensures u[i].value.queue == Without(t[i].value.queue, p) {
      RemoveFirstDistinct(t[i].value.queue, p);
    }
    forall n | n in w ensures exists i :: Holds(u, i, n) {
      var i :| Holds(t, i, n);
      assert Holds(u, i, n);
    }
    OneLists(u, Contents(u), w);
  }

  lemma {:induction false} WithoutOneProc(ws: seq<Waiter>, p: int, k: nat)
    requires k < |ws| && ws[k].proc == p && forall i :: 0 <= i < |ws| && i != k ==> ws[i].proc != p
    ensures WithoutProc(ws, p) == ws[..k] + ws[k + 1..]
  {
    var rest := ws[1..];
    if k == 0 {
      assert forall i :: 0 <= i < |rest| ==> rest[i] == ws[i + 1];
      NoneThere(rest, p);
    } else {
      assert forall i :: 0 <= i < |rest| ==> rest[i] == ws[i + 1];
      WithoutOneProc(rest, p, k - 1);
      assert [ws[0]] + (rest[..k - 1] + rest[k..]) == ws[..k] + ws[k + 1..];
    }
  }

  // Filtering out p is removing its first entry, when it has at most one.
  lemma {:induction false} WithoutProcAt(ws: seq<Waiter>, p: int, k: nat)
    requires DistinctProcs(ws) && k == FirstOf(ws, p)
    ensures WithoutProc(ws, p) == if k == |ws| then ws else ws[..k] + ws[k + 1..]
  {
    if k == |ws| {
      NoneThere(ws, p);
    } else {
      WithoutOneProc(ws, p, k);
    }
  }

  lemma {:induction false} NoneThere(ws: seq<Waiter>, p: int)
    requires forall i :: 0 <= i < |ws| ==> ws[i].proc != p
    ensures WithoutProc(ws, p) == ws
  {
    if ws != [] {
      NoneThere(ws[1..], p);
    }
  }

  ghost predicate DistinctProcs(ws: seq<Waiter>) {
    forall i, j :: 0 <= i < j < |ws| ==> ws[i].proc != ws[j].proc
  }

  lemma PurgedSlot(x: Slot<seq<Waiter>>, p: int)
    requires x.used ==> DistinctProcs(x.value) && x.value != []
    ensures Filtered(x, PurgeList(x, p), p)
  {
    if x.used {
      WithoutProcAt(x.value, p, FirstOf(x.value, p));
    }
  }

  // y is x with p filtered out.
  ghost predicate Filtered(x: Slot<seq<Waiter>>, y: Slot<seq<Waiter>>, p: int) {
    && y.number == x.number
    && (y.used <==> x.used && WithoutProc(x.value, p) != [])
    && (y.used ==> y.value == WithoutProc(x.value, p))
  }

  lemma FilteredLists(t: seq<Slot<seq<Waiter>>>, u: seq<Slot<seq<Waiter>>>, p: int)
    requires UniqueNumbers(t) && |u| == |t|
    requires forall i :: 0 <= i < |t| ==> Filtered(t[i], u[i], p)
    ensures UniqueNumbers(u)
    ensures var m := Contents(t);
            Contents(u) == map n | n in m && WithoutProc(m[n], p) != [] :: WithoutProc(m[n], p)
  {
    var m := Contents(t);
    var w := map n | n in m && WithoutProc(m[n], p) != [] :: WithoutProc(m[n], p);
    forall n | n in w ensures exists i :: Holds(u, i, n) {
      var i :| Holds(t, i, n);
      assert Filtered(t[i], u[i], p);
      assert Holds(u, i, n);
    }
    forall i | 0 <= i < |u| && u[i].used ensures u[i].number in w && w[u[i].number] == u[i].value {
      assert Filtered(t[i], u[i], p);
    }
    OneLists(u, Contents(u), w);
  }

  lemma PurgedLists(t: seq<Slot<seq<Waiter>>>, u: seq<Slot<seq<Waiter>>>, p: int)
    requires UniqueNumbers(t)
    requires |u| == |t| && forall i :: 0 <= i < |t| ==> u[i] == PurgeList(t[i], p)
    requires forall i :: 0 <= i < |t| && t[i].used ==> DistinctProcs(t[i].value) && t[i].value != []
    ensures UniqueNumbers(u)
    ensures var m := Contents(t);
            Contents(u) == map n | n in m && WithoutProc(m[n], p) != [] :: WithoutProc(m[n], p)
  {
    forall i | 0 <= i < |t| ensures Filtered(t[i], u[i], p) {
      PurgedSlot(t[i], p);
    }
    FilteredLists(t, u, p);
  }

  // ------------------------------------------------------- loops as recursion

  // One more release at the end of the order.
  lemma {:induction false} ReleaseAllSnoc(s: State, order: seq<int>, m: int)
    requires Distinct(order + [m]) && forall n :: n in order + [m] ==> n in s.mutexes
    ensures Distinct(order) && (forall n :: n in order ==> n in s.mutexes)
    ensures var o := ReleaseAll(s, order);
            m in o.state.mutexes
            && ReleaseAll(s, order + [m]).state == Release(o.state, m)
            && ReleaseAll(s, order + [m]).replies == o.replies + ReleaseReplies(o.state, m)
    decreases |order|
  {
    assert forall i :: 0 <= i < |order| ==> order[i] == (order + [m])[i];
    if order == [] {
      assert order + [m] == [m];
      assert [m][1..] == [];
    } else {
      assert (order + [m])[1..] == order[1..] + [m];
      assert order[0] == (order + [m])[0];
      assert order[0] !in order[1..] + [m];
      ReleaseAllSnoc(Release(s, order[0]), order[1..], m);
    }
  }

  // The state of a broadcast after its first j waiters.
  ghost predicate Broadcasting(s: State, c: int, j: nat, g: State, rs: seq<Reply>) {
    var ws := Waiters(s, c);
    && j <= |ws|
    && Waiters(g, c) == ws[j..]
    && g.cvs == SetWaiters(s.cvs, c, ws[j..])
    && WakeAll(s, c) == Outcome(WakeAll(g, c).state, rs + WakeAll(g, c).replies)
  }

  lemma SetTwice(cvs: map<int, seq<Waiter>>, c: int, a: seq<Waiter>, b: seq<Waiter>)
    ensures SetWaiters(SetWaiters(cvs, c, a), c, b) == SetWaiters(cvs, c, b)
  {
  }

  lemma FirstWake(g: State, c: int)
    requires Waiters(g, c) != []
    ensures var w, t := Waiters(g, c)[0], WakeFirst(g, c);
            && t.mutexes == Acquire(g, w.proc, w.mutex).mutexes
            && t.cvs == SetWaiters(g.cvs, c, Waiters(g, c)[1..]) && Waiters(t, c) == Waiters(g, c)[1..]
            && WakeAll(g, c) == Outcome(WakeAll(t, c).state, WakeFirstReplies(g, c) + WakeAll(t, c).replies)
  {
  }

  lemma BroadcastStep(s: State, c: int, j: nat, g: State, rs: seq<Reply>)
    requires Broadcasting(s, c, j, g, rs) && j < |Waiters(s, c)|
    ensures Broadcasting(s, c, j + 1, WakeFirst(g, c), rs + WakeFirstReplies(g, c))
    ensures var w := Waiters(s, c)[j];
            WakeFirst(g, c).mutexes == Acquire(g, w.proc, w.mutex).mutexes
            && WakeFirstReplies(g, c) == if AcquireAnswer(g, w.proc, w.mutex) == DontReply then []
                                         else [Reply(w.proc, Ok)]
  {
    var ws := Waiters(s, c);
    assert ws[j..][1..] == ws[j + 1..];
    FirstWake(g, c);
    SetTwice(s.cvs, c, ws[j..], ws[j + 1..]);
    ConcatAssoc(rs, WakeFirstReplies(g, c), WakeAll(WakeFirst(g, c), c).replies);
  }

  lemma BroadcastStart(s: State, c: int)
    requires CvsUsed(s)
    ensures Broadcasting(s, c, 0, s, [])
  {
  }

  lemma BroadcastEnd(s: State, c: int, g: State, rs: seq<Reply>)
    requires Broadcasting(s, c, |Waiters(s, c)|, g, rs)
    ensures WakeAll(s, c) == Outcome(State(g.mutexes, s.cvs - {c}), rs)
  {
  }

  // ------------------------------------------------------------------- room

  // The mutexes the waiters of c will ask for.
  function WaitMutexes(s: State, c: int): set<int> {
    set w | w in Waiters(s, c) :: w.mutex
  }

  // A broadcast may create all of them.
  predicate MutexRoom(s: State, c: int) {
    |s.mutexes.Keys + WaitMutexes(s, c)| <= MAX_MUTEX
  }

  // A wait on c needs a slot or room in a list.
  predicate CvRoom(s: State, c: int) {
    if c in s.cvs then |s.cvs[c]| < MAX_WAITERS else |s.cvs| < MAX_CV
  }

  // The mutex table is large enough for this step.
  predicate MutexesFit(s: State, r: Request) {
    match r
    case Lock(_, m) => |s.mutexes.Keys + {m}| <= MAX_MUTEX
    case Broadcast(_, c) => MutexRoom(s, c)
    case _ => true
  }

  // Both tables are.
  predicate Room(s: State, r: Request) {
    MutexesFit(s, r) && (r.Wait? && Owns(s, r.proc, r.mutex) ==> CvRoom(s, r.cv))
  }

  lemma SubsetSize(a: set<int>, b: set<int>)
    requires a <= b
    ensures |a| <= |b|
  {
    assert b == a + (b - a);
  }

  lemma WaitMutexFits(s: State, g: State, c: int, j: nat)
    requires MutexRoom(s, c) && j < |Waiters(s, c)|
    requires g.mutexes.Keys <= s.mutexes.Keys + WaitMutexes(s, c)
    ensures var m := Waiters(s, c)[j].mutex;
            |g.mutexes.Keys + {m}| <= MAX_MUTEX && m in WaitMutexes(s, c)
  {
    var w := Waiters(s, c)[j];
    assert w in Waiters(s, c);
    SubsetSize(g.mutexes.Keys + {w.mutex}, s.mutexes.Keys + WaitMutexes(s, c));
  }

  // ------------------------------------------------- a broadcast in progress

  // A broadcast of c under way, j waiters served: s and t are the state and the
  // list table at the start, slot i is that of c, g is the abstract state now
  // and rs the replies so far.
  datatype Progress = Progress(s: State, t: seq<Slot<seq<Waiter>>>, c: int, i: nat, j: nat, g: State, rs: seq<Reply>)

  // mt and ct, the tables now, are where the progress says; entries before j
  // have been zeroed.
  ghost predicate Midway(mt: seq<Slot<Mutex>>, ct: seq<Slot<seq<Waiter>>>, pr: Progress) {
    match pr
    case Progress(s, t, c, i, j, g, rs) =>
      && UniqueNumbers(mt) && Contents(mt) == g.mutexes
      && g.mutexes.Keys <= s.mutexes.Keys + WaitMutexes(s, c)
      && MutexRoom(s, c)
      && Holds(t, i, c) && Waiters(s, c) == t[i].value
      && Broadcasting(s, c, j, g, rs)
      && |ct| == |t| && ct == t[i := ct[i]] && Holds(ct, i, c)
      && |ct[i].value| == |t[i].value| && ct[i].value[j..] == t[i].value[j..]
  }

  lemma MidwayNext(mt: seq<Slot<Mutex>>, ct: seq<Slot<seq<Waiter>>>, pr: Progress)
    requires Midway(mt, ct, pr) && pr.j < |pr.t[pr.i].value|
    ensures ct[pr.i].used && pr.j < |ct[pr.i].value| && ct[pr.i].value[pr.j] == pr.t[pr.i].value[pr.j]
    ensures |Contents(mt).Keys + {ct[pr.i].value[pr.j].mutex}| <= MAX_MUTEX
    ensures Waiters(pr.g, pr.c) != []
  {
    assert ct[pr.i].value[pr.j] == ct[pr.i].value[pr.j..][0] == pr.t[pr.i].value[pr.j..][0];
    WaitMutexFits(pr.s, pr.g, pr.c, pr.j);
  }

  function Advanced(pr: Progress): Progress
    requires Waiters(pr.g, pr.c) != []
  {
    pr.(j := pr.j + 1, g := WakeFirst(pr.g, pr.c), rs := pr.rs + WakeFirstReplies(pr.g, pr.c))
  }

  lemma MidwayStep(mt: seq<Slot<Mutex>>, ct: seq<Slot<seq<Waiter>>>,
                   mt': seq<Slot<Mutex>>, ct': seq<Slot<seq<Waiter>>>, pr: Progress)
    requires Midway(mt, ct, pr) && pr.j < |pr.t[pr.i].value|
    requires UniqueNumbers(mt')
             && var w := pr.t[pr.i].value[pr.j]; Contents(mt') == Acquire(pr.g, w.proc, w.mutex).mutexes
    requires ct' == ct[pr.i := ct[pr.i].(value := ct[pr.i].value[pr.j := Waiter(0, 0)])]
    ensures Waiters(pr.g, pr.c) != [] && Midway(mt', ct', Advanced(pr))
    ensures var w := pr.t[pr.i].value[pr.j];
            WakeFirstReplies(pr.g, pr.c) == if AcquireAnswer(pr.g, w.proc, w.mutex) == DontReply then []
                                            else [Reply(w.proc, Ok)]
  {
    var v, ws, j := ct[pr.i].value, pr.t[pr.i].value, pr.j;
    BroadcastStep(pr.s, pr.c, j, pr.g, pr.rs);
    WaitMutexFits(pr.s, pr.g, pr.c, j);
    assert v[j := Waiter(0, 0)][j + 1..] == v[j..][1..];
    assert ws[j + 1..] == ws[j..][1..];
  }

  // ---------------------------------------------------- finding a process

  // p queues in one of the first n slots.
  ghost predicate InTable(t: seq<Slot<Mutex>>, p: int, n: nat) {
    exists k :: 0 <= k < n && k < |t| && p in t[k].value.queue
  }

  ghost predicate OnSlot(x: Slot<seq<Waiter>>, p: int) {
    x.used && FirstOf(x.value, p) < |x.value|
  }

  // p waits in one of the first n slots.
  ghost predicate OnTable(t: seq<Slot<seq<Waiter>>>, p: int, n: nat) {
    exists k :: 0 <= k < n && k < |t| && OnSlot(t[k], p)
  }

  lemma FirstIs(ws: seq<Waiter>, p: int, k: nat)
    requires k <= |ws| && (k < |ws| ==> ws[k].proc == p) && forall i :: 0 <= i < k ==> ws[i].proc != p
    ensures FirstOf(ws, p) == k
  {
  }

  ghost predicate InTableOnce(t: seq<Slot<Mutex>>, p: int) {
    forall i, j :: 0 <= i < |t| && 0 <= j < |t| && p in t[i].value.queue && p in t[j].value.queue ==> i == j
  }

  ghost predicate OnTableOnce(t: seq<Slot<seq<Waiter>>>, p: int) {
    forall i, j :: 0 <= i < |t| && 0 <= j < |t| && OnSlot(t[i], p) && OnSlot(t[j], p) ==> i == j
  }

  lemma SlotPlace(s: State, t: seq<Slot<seq<Waiter>>>, p: int, i: nat)
    requires UniqueNumbers(t) && s.cvs == Contents(t) && i < |t| && OnSlot(t[i], p)
    ensures p in At(s, OnList(t[i].number)) && p in Parked(s)
  {
  }

  lemma QueuePlace(s: State, t: seq<Slot<Mutex>>, p: int, i: nat)
    requires UniqueNumbers(t) && IdleEmpty(t) && s.mutexes == Contents(t) && i < |t| && p in t[i].value.queue
    ensures t[i].used && p in At(s, InQueue(t[i].number)) && p in Queued(s)
  {
  }

  // In a state with the invariant a process is found in one slot at most.
  lemma FoundOnce(mt: seq<Slot<Mutex>>, ct: seq<Slot<seq<Waiter>>>, p: int)
    requires UniqueNumbers(mt) && IdleEmpty(mt) && UniqueNumbers(ct)
    requires OnePlace(State(Contents(mt), Contents(ct)))
    ensures InTableOnce(mt, p) && OnTableOnce(ct, p)
  {
    var s := State(Contents(mt), Contents(ct));
    forall i, j | 0 <= i < |mt| && 0 <= j < |mt| && p in mt[i].value.queue && p in mt[j].value.queue ensures i == j {
      QueuePlace(s, mt, p, i);
      QueuePlace(s, mt, p, j);
    }
    forall i, j | 0 <= i < |ct| && 0 <= j < |ct| && OnSlot(ct[i], p) && OnSlot(ct[j], p) ensures i == j {
      SlotPlace(s, ct, p, i);
      SlotPlace(s, ct, p, j);
    }
  }

  lemma InTableQueued(s: State, t: seq<Slot<Mutex>>, p: int)
    requires UniqueNumbers(t) && IdleEmpty(t) && s.mutexes == Contents(t)
    ensures InTable(t, p, |t|) <==> p in Queued(s)
  {
  }

  lemma OnTableParked(s: State, t: seq<Slot<seq<Waiter>>>, p: int)
    requires UniqueNumbers(t) && s.cvs == Contents(t)
    ensures OnTable(t, p, |t|) <==> p in Parked(s)
  {
  }

  lemma QueuedOrParked(s: State, p: int)
    requires OnePlace(s)
    ensures p in Queued(s) ==> p !in Parked(s)
  {
    if m :| m in s.mutexes && p in s.mutexes[m].queue {
      assert p in Queue(s, m);
      QueuedNotWaiting(s, m, p);
      forall c, w | c in s.cvs && w in s.cvs[c] ensures w.proc != p {
        assert w in Waiters(s, c);
      }
    }
  }

  // Purging p row by row is forgetting p.
  lemma ForgetTables(mt: seq<Slot<Mutex>>, ct: seq<Slot<seq<Waiter>>>,
                     mt': seq<Slot<Mutex>>, ct': seq<Slot<seq<Waiter>>>, p: int)
    requires UniqueNumbers(mt) && IdleEmpty(mt) && UniqueNumbers(ct)
    requires Inv(State(Contents(mt), Contents(ct)))
    requires |mt'| == |mt| && forall i :: 0 <= i < |mt| ==> mt'[i] == PurgeMutex(mt[i], p)
    requires |ct'| == |ct| && forall i :: 0 <= i < |ct| ==> ct'[i] == PurgeList(ct[i], p)
    ensures UniqueNumbers(mt') && IdleEmpty(mt') && UniqueNumbers(ct')
    ensures State(Contents(mt'), Contents(ct')) == Forget(State(Contents(mt), Contents(ct)), p)
    ensures var s := State(Contents(mt), Contents(ct));
            && (InTable(mt, p, |mt|) <==> p in Queued(s)) && (OnTable(ct, p, |ct|) <==> p in Parked(s))
            && (p in Queued(s) ==> p !in Parked(s))
  {
    var s := State(Contents(mt), Contents(ct));
    RowsDistinct(s, mt, ct);
    PurgedMutexes(mt, mt', p);
    PurgedLists(ct, ct', p);
    InTableQueued(s, mt, p);
    OnTableParked(s, ct, p);
    QueuedOrParked(s, p);
  }

  lemma RowsDistinct(s: State, mt: seq<Slot<Mutex>>, ct: seq<Slot<seq<Waiter>>>)
    requires UniqueNumbers(mt) && IdleEmpty(mt) && UniqueNumbers(ct) && s == State(Contents(mt), Contents(ct))
    requires OncePerPlace(s) && CvsUsed(s)
    ensures forall i :: 0 <= i < |mt| ==> Distinct(mt[i].value.queue)
    ensures forall i :: 0 <= i < |ct| && ct[i].used ==> DistinctProcs(ct[i].value) && ct[i].value != []
  {
    forall i | 0 <= i < |mt| ensures Distinct(mt[i].value.queue) {
      if mt[i].used { assert Distinct(At(s, InQueue(mt[i].number))); }
    }
    forall i | 0 <= i < |ct| && ct[i].used ensures DistinctProcs(ct[i].value) && ct[i].value != [] {
      assert Distinct(At(s, OnList(ct[i].number)));
      assert Waiters(s, ct[i].number) == ct[i].value;
      ProcsDistinct(ct[i].value);
    }
  }

  lemma ProcsDistinct(ws: seq<Waiter>)
    requires Distinct(Procs(ws))
    ensures DistinctProcs(ws)
  {
    forall i, j | 0 <= i < j < |ws| ensures ws[i].proc != ws[j].proc {
      assert Procs(ws)[i] == ws[i].proc && Procs(ws)[j] == ws[j].proc;
    }
  }

  // --------------------------------------------------- the mutexes of one owner

  // `order` lists the mutexes p owns in the first n slots.
  ghost predicate OwnedBefore(t: seq<Slot<Mutex>>, p: int, n: nat, order: seq<int>) {
    && UniqueNumbers(t) && n <= |t| && Distinct(order)
    && (forall m :: m in order ==> m in Contents(t))
    && (forall m :: m in order <==> exists k :: 0 <= k < n && Holds(t, k, m) && t[k].value.owner == p)
  }

  lemma OwnedNext(t: seq<Slot<Mutex>>, p: int, n: nat, order: seq<int>)
    requires OwnedBefore(t, p, n, order) && n < |t| && t[n].used && t[n].value.owner == p
    ensures OwnedBefore(t, p, n + 1, order + [t[n].number])
    ensures t[n].number !in order
  {
    var m := t[n].number;
    assert forall k :: 0 <= k < n ==> !Holds(t, k, m);
    assert m !in order;
    assert Holds(t, n, m);
    forall x ensures x in order + [m] <==> exists k :: 0 <= k < n + 1 && Holds(t, k, x) && t[k].value.owner == p {
      if x in order {
        var k :| 0 <= k < n && Holds(t, k, x) && t[k].value.owner == p;
      }
    }
  }

  // Numbers in the order of their slots.
  ghost predicate InSlotOrder(t: seq<Slot<Mutex>>, order: seq<int>) {
    forall i, j, a, b :: 0 <= i < j < |order| && Holds(t, a, order[i]) && Holds(t, b, order[j]) ==> a < b
  }

  lemma SlotOrderNext(t: seq<Slot<Mutex>>, p: int, n: nat, order: seq<int>)
    requires OwnedBefore(t, p, n, order) && InSlotOrder(t, order) && n < |t| && t[n].used
    ensures InSlotOrder(t, order + [t[n].number])
  {
    var next := order + [t[n].number];
    forall i, j, a, b | 0 <= i < j < |next| && Holds(t, a, next[i]) && Holds(t, b, next[j]) ensures a < b {
      assert order[i] in order;
      var k :| 0 <= k < n && Holds(t, k, order[i]) && t[k].value.owner == p;
      assert a == k;
      assert j == |order| ==> Holds(t, n, next[j]);
    }
  }

  lemma OwnedAll(t: seq<Slot<Mutex>>, p: int, order: seq<int>)
    requires OwnedBefore(t, p, |t|, order)
    ensures forall cvs :: ReleaseOrder(State(Contents(t), cvs), p, order)
  {
  }

  // The release loop of an exit at slot i: s and t are the state and the mutex
  // table at the start, mt is the table now.
  datatype Sweep = Sweep(s: State, t: seq<Slot<Mutex>>, p: int, i: nat, order: seq<int>)

  ghost predicate Sweeping(mt: seq<Slot<Mutex>>, sw: Sweep) {
    match sw
    case Sweep(s, t, p, i, order) =>
      && OwnedBefore(t, p, i, order) && InSlotOrder(t, order) && s.mutexes == Contents(t)
      && UniqueNumbers(mt) && State(Contents(mt), s.cvs) == ReleaseAll(s, order).state
      && |mt| == |t| && forall k :: i <= k < |t| ==> mt[k] == t[k]
  }

  lemma SweepStart(s: State, t: seq<Slot<Mutex>>, p: int)
    requires UniqueNumbers(t) && s.mutexes == Contents(t)
    ensures Sweeping(t, Sweep(s, t, p, 0, []))
  {
  }

  lemma SweepPast(mt: seq<Slot<Mutex>>, sw: Sweep)
    requires Sweeping(mt, sw) && sw.i < |sw.t| && !(mt[sw.i].used && mt[sw.i].value.owner == sw.p)
    ensures Sweeping(mt, sw.(i := sw.i + 1))
  {
  }

  lemma SweepOver(mt: seq<Slot<Mutex>>, mt': seq<Slot<Mutex>>, sw: Sweep)
    requires Sweeping(mt, sw) && sw.i < |sw.t| && mt[sw.i].used && mt[sw.i].value.owner == sw.p
    requires UniqueNumbers(mt') && |mt'| == |mt|
    requires var n, s1 := mt[sw.i].number, State(Contents(mt), sw.s.cvs);
             State(Contents(mt'), sw.s.cvs) == Release(s1, n)
             && forall k :: 0 <= k < |mt| && !Holds(mt, k, n) ==> mt'[k] == mt[k]
    ensures var n := mt[sw.i].number;
            && Sweeping(mt', sw.(i := sw.i + 1, order := sw.order + [n]))
            && ReleaseAll(sw.s, sw.order + [n]).replies
               == ReleaseAll(sw.s, sw.order).replies + ReleaseReplies(State(Contents(mt), sw.s.cvs), n)
  {
    var n := mt[sw.i].number;
    assert mt[sw.i] == sw.t[sw.i];
    OwnedNext(sw.t, sw.p, sw.i, sw.order);
    SlotOrderNext(sw.t, sw.p, sw.i, sw.order);
    ReleaseAllSnoc(sw.s, sw.order, n);
    assert forall k :: sw.i < k < |mt| ==> !Holds(mt, k, n);
  }
}
