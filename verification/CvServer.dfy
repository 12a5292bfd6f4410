// The server as it is: fixed tables of slots, linked queues, parallel arrays of
// waiters and the global "current process". Every operation is proved to be the
// step of the abstract machine on what the tables stand for.
module CvServer {
  import opened Sequences
  import opened CvModel
  import opened CvInvariant
  import opened CvExit
  import opened CvLimits
  import opened CvQueue
  import opened SlotTable
  import opened CvTables
  import opened CvMessages
  import Traces = CvTrace

  datatype MutexSlot = MutexSlot(used: bool, number: int, owner: int)

  datatype CvSlot = CvSlot(used: bool, number: int, size: nat)

  // The value of the mutex table and the list elements behind it.
  class MutexShadow {
    ghost var table: seq<Slot<Mutex>>
    ghost var elements: set<Element>

    constructor (ghost t: seq<Slot<Mutex>>, ghost es: set<Element>)
      ensures table == t && elements == es
    {
      table, elements := t, es;
    }
  }

  // The value of the condition-variable table.
  class CvShadow {
    ghost var table: seq<Slot<seq<Waiter>>>

    constructor (ghost t: seq<Slot<seq<Waiter>>>)
      ensures table == t
    {
      table := t;
    }
  }

  class Server {
    const M: array<MutexSlot>
    const queues: seq<Queue>
    const C: array<CvSlot>
    const procs: array2<int>
    const mutexes: array2<int>
    var current: int
    var sent: seq<Reply>
    // What the start sentinels of the queues happen to carry.
    ghost const garbage: seq<int>
    const mx: MutexShadow
    const cv: CvShadow

    // Slot i of the mutex table: a well-formed queue of its own, and the value
    // recorded for the slot.
    ghost predicate MutexRow(i: nat)
      reads M, queues, mx, mx.elements
    {
      && i < M.Length && i < |queues| && i < |garbage| && i < |mx.table|
      && (forall j :: 0 <= j < |queues[i].nodes| ==> queues[i].nodes[j] in mx.elements)
      && queues[i].Valid()
      && queues[i].start.proc == garbage[i]
      && mx.table[i] == Slot(M[i].used, M[i].number, Mutex(M[i].owner, queues[i].Contents()))
    }

    // The heap behind the mutex table.
    ghost predicate QueueShape()
      reads M, queues, mx, mx.elements
    {
      && M.Length == |queues| == |garbage| == |mx.table| == MAX_MUTEX
      && (forall i, j :: 0 <= i < j < |queues| ==> queues[i] != queues[j])
      && (forall i :: 0 <= i < MAX_MUTEX ==> MutexRow(i))
    }

    // Slot i of the condition-variable table, waiter count in bounds.
    ghost predicate CvRow(i: nat)
      reads C, procs, mutexes, cv
    {
      && i < C.Length && i < |cv.table| && i < procs.Length0 && i < mutexes.Length0
      && C[i].size <= procs.Length1 && C[i].size <= mutexes.Length1
      && cv.table[i].used == C[i].used && cv.table[i].number == C[i].number && |cv.table[i].value| == C[i].size
      && (forall j :: 0 <= j < C[i].size ==> cv.table[i].value[j] == Waiter(procs[i, j], mutexes[i, j]))
    }

    ghost predicate ListShape()
      reads C, procs, mutexes, cv
    {
      && C.Length == |cv.table| == procs.Length0 == mutexes.Length0 == MAX_CV
      && procs.Length1 == mutexes.Length1 == MAX_WAITERS && procs != mutexes
      && (forall i :: 0 <= i < MAX_CV ==> CvRow(i))
    }

    ghost predicate Valid()
      reads M, queues, mx, mx.elements, C, procs, mutexes, cv
    {
      var holds := QueueShape() && UniqueNumbers(mx.table) && IdleEmpty(mx.table)
                   && ListShape() && UniqueNumbers(cv.table);
      holds
    }

    // What the tables stand for.
    ghost function Abs(): State
      requires UniqueNumbers(mx.table) && UniqueNumbers(cv.table)
      reads mx, cv
    {
      State(Contents(mx.table), Contents(cv.table))
    }

    constructor (memory: seq<int>)
      requires |memory| == MAX_MUTEX
      ensures Valid() && Abs() == EMPTY && sent == [] && garbage == memory
      ensures fresh(M) && fresh(C) && fresh(procs) && fresh(mutexes) && fresh(queues)
      ensures fresh(mx) && fresh(mx.elements) && fresh(cv)
    {
      M := new MutexSlot[MAX_MUTEX](_ => MutexSlot(false, 0, 0));
      C := new CvSlot[MAX_CV](_ => CvSlot(false, 0, 0));
      procs := new int[MAX_CV, MAX_WAITERS];
      mutexes := new int[MAX_CV, MAX_WAITERS];
      sent, current := [], 0;
      var qs, es := MakeQueues(memory);
      queues, garbage := qs, memory;
      mx := new MutexShadow(seq(MAX_MUTEX, _ => Slot(false, 0, Mutex(0, []))), es);
      cv := new CvShadow(seq(MAX_CV, _ => Slot(false, 0, [])));
      new;
      FreshRows();
      EmptyContents(mx.table);
      EmptyContents(cv.table);
    }

    lemma FreshRows()
      requires M.Length == |queues| == |garbage| == |mx.table| == MAX_MUTEX && C.Length == |cv.table| == MAX_CV
      requires procs.Length0 == mutexes.Length0 == MAX_CV
      requires forall i :: 0 <= i < MAX_MUTEX ==>
                 M[i] == MutexSlot(false, 0, 0) && mx.table[i] == Slot(false, 0, Mutex(0, []))
      requires forall i :: 0 <= i < MAX_MUTEX ==>
                 queues[i].Valid() && queues[i].Contents() == [] && queues[i].start.proc == garbage[i]
      requires forall i, j :: 0 <= i < MAX_MUTEX && 0 <= j < |queues[i].nodes| ==> queues[i].nodes[j] in mx.elements
      requires forall i :: 0 <= i < MAX_CV ==> C[i] == CvSlot(false, 0, 0) && cv.table[i] == Slot(false, 0, [])
      ensures forall i :: 0 <= i < MAX_MUTEX ==> MutexRow(i)
      ensures forall i :: 0 <= i < MAX_CV ==> CvRow(i)
    {
    }

    // ------------------------------------------------------ heap primitives

    method SetMutex(i: nat, s: MutexSlot)
      requires QueueShape() && i < MAX_MUTEX
      modifies M, mx`table
      ensures QueueShape()
      ensures mx.table == old(mx.table)[i := Slot(s.used, s.number, Mutex(s.owner, old(mx.table)[i].value.queue))]
    {
      assert MutexRow(i);
      M[i] := s;
      mx.table := mx.table[i := Slot(s.used, s.number, Mutex(s.owner, mx.table[i].value.queue))];
      forall k | 0 <= k < MAX_MUTEX ensures MutexRow(k) {
        assert old(MutexRow(k));
      }
    }

    // The queues share no element: each element belongs to one queue for good.
    lemma QueuesDisjoint(i: nat)
      requires i < MAX_MUTEX && QueueShape()
      ensures forall k, a, b :: 0 <= k < MAX_MUTEX && k != i && 0 <= a < |queues[k].nodes| && 0 <= b < |queues[i].nodes|
                ==> queues[k].nodes[a] != queues[i].nodes[b]
    {
      forall k, a, b | 0 <= k < MAX_MUTEX && k != i && 0 <= a < |queues[k].nodes| && 0 <= b < |queues[i].nodes|
        ensures queues[k].nodes[a] != queues[i].nodes[b]
      {
        assert MutexRow(k) && MutexRow(i);
        assert queues[k] != queues[i];
        assert queues[k].nodes[a].home == queues[k] && queues[i].nodes[b].home == queues[i];
      }
    }

    // Rows other than the i-th are untouched when their elements are.
    twostate lemma OthersKept(i: nat)
      requires i < MAX_MUTEX && old(QueueShape()) && unchanged(M) && unchanged(mx)
      requires forall k :: 0 <= k < MAX_MUTEX && k != i ==> unchanged(queues[k])
      requires forall k, a :: 0 <= k < MAX_MUTEX && k != i && 0 <= a < |queues[k].nodes| ==>
                 unchanged(queues[k].nodes[a])
      ensures forall k :: 0 <= k < MAX_MUTEX && k != i ==> MutexRow(k)
    {
      forall k | 0 <= k < MAX_MUTEX && k != i ensures MutexRow(k) {
        assert old(MutexRow(k));
        assert queues[k].nodes[0] == queues[k].start;
      }
    }

    // Rows do not depend on what is recorded for other slots, nor do they mind
    // more elements.
    twostate lemma RowsKept(i: nat)
      requires i < MAX_MUTEX && unchanged(M) && unchanged(queues) && old(mx.elements) <= mx.elements
      requires |mx.table| == old(|mx.table|)
      requires forall k :: 0 <= k < |mx.table| && k != i ==> mx.table[k] == old(mx.table[k])
      requires forall k :: 0 <= k < MAX_MUTEX && k != i ==> old(MutexRow(k))
      requires forall x :: x in old(mx.elements) ==> unchanged(x)
      ensures forall k :: 0 <= k < MAX_MUTEX && k != i ==> MutexRow(k)
    {
      forall k | 0 <= k < MAX_MUTEX && k != i ensures MutexRow(k) {
        assert old(MutexRow(k));
      }
    }

    method Enqueue(i: nat, p: int)
      requires QueueShape() && i < MAX_MUTEX
      modifies queues, mx, mx.elements
      ensures QueueShape() && (forall x :: x in mx.elements ==> x in old(mx.elements) || fresh(x))
      ensures var x := old(mx.table)[i].value;
              mx.table == old(mx.table)[i := old(mx.table)[i].(value := Mutex(x.owner, x.queue + [p]))]
    {
      assert MutexRow(i);
      QueuesDisjoint(i);
      queues[i].Append(p);
      OthersKept(i);
      label appended:
      mx.elements := mx.elements + set x | x in queues[i].nodes;
      mx.table := mx.table[i := mx.table[i].(value := Mutex(mx.table[i].value.owner, mx.table[i].value.queue + [p]))];
      RowsKept@appended(i);
    }

    method Dequeue(i: nat) returns (p: int)
      requires QueueShape() && i < MAX_MUTEX && mx.table[i].value.queue != []
      modifies queues, mx`table, mx.elements
      ensures QueueShape()
      ensures var x := old(mx.table)[i].value;
              p == x.queue[0]
              && mx.table == old(mx.table)[i := old(mx.table)[i].(value := Mutex(x.owner, x.queue[1..]))]
    {
      assert MutexRow(i);
      QueuesDisjoint(i);
      p := queues[i].PopFirst();
      OthersKept(i);
      assert forall j :: 0 <= j < |queues[i].nodes| ==> queues[i].nodes[j] in old(queues[i].nodes);
      label popped:
      mx.table := mx.table[i := mx.table[i].(value := Mutex(mx.table[i].value.owner, mx.table[i].value.queue[1..]))];
      RowsKept@popped(i);
    }

    method DiscardQueued(i: nat, p: int) returns (found: bool)
      requires QueueShape() && i < MAX_MUTEX && p !in garbage
      modifies queues, mx`table, mx.elements
      ensures QueueShape()
      ensures var x := old(mx.table)[i].value;
              (found <==> p in x.queue)
              && mx.table == old(mx.table)[i := old(mx.table)[i].(value := Mutex(x.owner, RemoveFirst(x.queue, p)))]
    {
      assert MutexRow(i);
      QueuesDisjoint(i);
      found := queues[i].Discard(p);
      OthersKept(i);
      assert forall j :: 0 <= j < |queues[i].nodes| ==> queues[i].nodes[j] in old(queues[i].nodes);
      label discarded:
      ghost var x := mx.table[i];
      mx.table := mx.table[i := x.(value := Mutex(x.value.owner, RemoveFirst(x.value.queue, p)))];
      RowsKept@discarded(i);
    }

    // ----------------------------------------------------------- operations

    // The slot in use for mutex n, or -1.
    method FindMutex(n: int) returns (i: int)
      requires Valid()
      ensures -1 <= i < MAX_MUTEX
      ensures i == -1 <==> n !in Abs().mutexes
      ensures i >= 0 ==> Holds(mx.table, i, n) && Abs().mutexes[n] == mx.table[i].value
    {
      i := 0;
      while i < MAX_MUTEX
        invariant 0 <= i <= MAX_MUTEX
        invariant forall k :: 0 <= k < i ==> !Holds(mx.table, k, n)
      {
        assert MutexRow(i);
        if M[i].used && M[i].number == n {
          assert Holds(mx.table, i, n);
          return;
        }
        i := i + 1;
      }
      i := -1;
    }

    // The slot in use for condition variable n, or -1.
    method FindCv(n: int) returns (i: int)
      requires Valid()
      ensures -1 <= i < MAX_CV
      ensures i == -1 <==> n !in Abs().cvs
      ensures i >= 0 ==> Holds(cv.table, i, n) && Abs().cvs[n] == cv.table[i].value
    {
      i := 0;
      while i < MAX_CV
        invariant 0 <= i <= MAX_CV
        invariant forall k :: 0 <= k < i ==> !Holds(cv.table, k, n)
      {
        assert CvRow(i);
        if C[i].used && C[i].number == n {
          assert Holds(cv.table, i, n);
          return;
        }
        i := i + 1;
      }
      i := -1;
    }

    // The first free slot for a new mutex of the current process. The table has no
    // check for being full: the caller must leave room.
    method TakeSlot(n: int) returns (j: int)
      requires Valid() && n !in Abs().mutexes && |Abs().mutexes.Keys + {n}| <= MAX_MUTEX
      modifies M, mx`table
      ensures Valid() && Abs() == State(old(Abs()).mutexes[n := Mutex(current, [])], old(Abs()).cvs)
      ensures 0 <= j < MAX_MUTEX && mx.table[j].used && mx.table[j].number == n
      ensures !old(mx.table)[j].used && forall k :: 0 <= k < j ==> old(mx.table)[k].used
    {
      ghost var t := mx.table;
      RoomForOne(t, n);
      FreeSlot(t);
      j := 0;
      while M[j].used
        invariant 0 <= j < MAX_MUTEX && forall k :: 0 <= k < j ==> t[k].used
        invariant exists k :: j <= k < MAX_MUTEX && !t[k].used
        decreases MAX_MUTEX - j
      {
        assert MutexRow(j);
        j := j + 1;
      }
      assert MutexRow(j);
      Fill(t, j, n, Mutex(current, []));
      SetMutex(j, MutexSlot(true, n, current));
    }

    // The current process joins the queue of the mutex in slot i.
    method JoinQueue(i: nat)
      requires Valid() && i < MAX_MUTEX && mx.table[i].used
      modifies queues, mx, mx.elements
      ensures Valid() && (forall x :: x in mx.elements ==> x in old(mx.elements) || fresh(x))
      ensures var x := old(mx.table)[i];
              Abs() == State(old(Abs()).mutexes[x.number := Mutex(x.value.owner, x.value.queue + [current])],
                             old(Abs()).cvs)
    {
      ghost var t := mx.table;
      Rewrite(t, i, Mutex(t[i].value.owner, t[i].value.queue + [current]));
      Enqueue(i, current);
    }

    // Lock for the current process.
    method Lock(n: int) returns (a: Answer)
      requires Valid() && |Abs().mutexes.Keys + {n}| <= MAX_MUTEX
      modifies M, queues, mx, mx.elements
      ensures Valid() && (forall x :: x in mx.elements ==> x in old(mx.elements) || fresh(x))
      ensures Abs() == Acquire(old(Abs()), current, n)
      ensures a == AcquireAnswer(old(Abs()), current, n)
    {
      var i := FindMutex(n);
      if i == -1 {
        i := TakeSlot(n);
        a := Send(Ok);
      } else {
        assert MutexRow(i);
        if M[i].owner == current {
          a := Send(EPerm);
        } else {
          JoinQueue(i);
          a := DontReply;
        }
      }
    }

    // The mutex in slot i passes to the head of its queue.
    method Grant(i: nat)
      requires Valid() && i < MAX_MUTEX && mx.table[i].used && mx.table[i].value.queue != []
      modifies M, queues, mx`table, mx.elements, `sent
      ensures Valid() && Abs() == Release(old(Abs()), old(mx.table)[i].number)
      ensures sent == old(sent) + [Reply(old(mx.table)[i].value.queue[0], Ok)]
      ensures forall k :: 0 <= k < MAX_MUTEX && k != i ==> mx.table[k] == old(mx.table)[k]
    {
      ghost var t := mx.table;
      Rewrite(t, i, Mutex(t[i].value.queue[0], t[i].value.queue[1..]));
      var heir := Dequeue(i);
      assert MutexRow(i);
      SetMutex(i, M[i].(owner := heir));
      assert mx.table == t[i := Slot(true, t[i].number, Mutex(heir, t[i].value.queue[1..]))];
      sent := sent + [Reply(heir, Ok)];
    }

    // Unlock for the current process.
    method Unlock(n: int) returns (a: Answer)
      requires Valid()
      modifies M, queues, mx`table, mx.elements, `sent
      ensures Valid()
      ensures var s := old(Abs());
              if Owns(s, current, n) then
                Abs() == Release(s, n) && sent == old(sent) + ReleaseReplies(s, n) && a == Send(Ok)
              else
                Abs() == s && sent == old(sent) && a == Send(EPerm)
      ensures forall k :: 0 <= k < MAX_MUTEX && !Holds(old(mx.table), k, n) ==> mx.table[k] == old(mx.table)[k]
    {
      var i := FindMutex(n);
      if i == -1 {
        return Send(EPerm);
      }
      assert MutexRow(i);
      if M[i].owner != current {
        return Send(EPerm);
      }
      var empty := queues[i].IsEmpty();
      if empty {
        ghost var t := mx.table;
        Clear(t, i, Slot(false, n, t[i].value));
        SetMutex(i, M[i].(used := false));
      } else {
        Grant(i);
      }
      a := Send(Ok);
    }

    // ------------------------------------------------------------ wait lists

    // Rows of the condition-variable table other than the i-th.
    twostate predicate OtherLists(i: nat)
      reads C, procs, mutexes, cv
    {
      && |cv.table| == old(|cv.table|)
      && (forall k :: 0 <= k < C.Length && k != i ==> C[k] == old(C[k]))
      && (forall k :: 0 <= k < |cv.table| && k != i ==> cv.table[k] == old(cv.table[k]))
      && (forall k, j :: 0 <= k < procs.Length0 && 0 <= j < procs.Length1 && k != i ==> procs[k, j] == old(procs[k, j]))
      && (forall k, j :: 0 <= k < mutexes.Length0 && 0 <= j < mutexes.Length1 && k != i ==>
            mutexes[k, j] == old(mutexes[k, j]))
    }

    twostate lemma ListsKept(i: nat)
      requires old(ListShape()) && OtherLists(i) && CvRow(i)
      ensures ListShape()
    {
      forall k | 0 <= k < MAX_CV ensures CvRow(k) {
        assert old(CvRow(k));
      }
    }

    // Takes waiter j off list i; the last waiter frees the slot.
    method RemoveWaiter(i: nat, j: nat)
      requires ListShape() && i < MAX_CV && cv.table[i].used && j < |cv.table[i].value|
      modifies C, procs, mutexes, cv
      ensures ListShape()
      ensures var x := old(cv.table)[i];
              cv.table == old(cv.table)[i := if |x.value| == 1 then x.(used := false)
                                             else x.(value := x.value[..j] + x.value[j + 1..])]
    {
      assert CvRow(i);
      ghost var ws := cv.table[i].value;
      if C[i].size == 1 {
        C[i] := C[i].(used := false);
        cv.table := cv.table[i := cv.table[i].(used := false)];
      } else {
        var k := j + 1;
        while k < C[i].size
          invariant j < k <= C[i].size == |ws| <= MAX_WAITERS
          invariant C[i] == old(C[i]) && OtherLists(i) && cv.table == old(cv.table)
          invariant forall l :: 0 <= l < j ==> Waiter(procs[i, l], mutexes[i, l]) == ws[l]
          invariant forall l :: j <= l < k - 1 ==> Waiter(procs[i, l], mutexes[i, l]) == ws[l + 1]
          invariant forall l :: k <= l < |ws| ==> Waiter(procs[i, l], mutexes[i, l]) == ws[l]
        {
          procs[i, k - 1] := procs[i, k];
          mutexes[i, k - 1] := mutexes[i, k];
          k := k + 1;
        }
        C[i] := C[i].(size := C[i].size - 1);
        cv.table := cv.table[i := cv.table[i].(value := ws[..j] + ws[j + 1..])];
      }
      ListsKept(i);
    }

    // The slot i, used for c, gets one more waiter: the current process.
    method AddWaiter(i: nat, m: int)
      requires ListShape() && i < MAX_CV && |cv.table[i].value| < MAX_WAITERS
      modifies C, procs, mutexes, cv
      ensures ListShape()
      ensures var x := old(cv.table)[i];
              cv.table == old(cv.table)[i := x.(value := x.value + [Waiter(current, m)])]
    {
      assert CvRow(i);
      procs[i, C[i].size] := current;
      mutexes[i, C[i].size] := m;
      C[i] := C[i].(size := C[i].size + 1);
      cv.table := cv.table[i := cv.table[i].(value := cv.table[i].value + [Waiter(current, m)])];
      ListsKept(i);
    }

    method SetCv(i: nat, s: CvSlot)
      requires ListShape() && i < MAX_CV && s.size == 0
      modifies C, cv
      ensures ListShape() && cv.table == old(cv.table)[i := Slot(s.used, s.number, [])]
    {
      C[i] := s;
      cv.table := cv.table[i := Slot(s.used, s.number, [])];
      ListsKept(i);
    }

    // A free slot for a new condition variable.
    method OpenCv(c: int) returns (i: nat)
      requires Valid() && c !in Abs().cvs && |Abs().cvs| < MAX_CV
      modifies C, cv
      ensures Valid() && i < MAX_CV && Holds(cv.table, i, c) && cv.table[i].value == []
      ensures Abs() == State(old(Abs()).mutexes, old(Abs()).cvs[c := []])
    {
      ghost var t := cv.table;
      FreeSlot(t);
      i := 0;
      while C[i].used
        invariant 0 <= i < MAX_CV
        invariant exists k :: i <= k < MAX_CV && !t[k].used
        decreases MAX_CV - i
      {
        assert CvRow(i);
        i := i + 1;
      }
      assert CvRow(i);
      Fill(t, i, c, []);
      SetCv(i, CvSlot(true, c, 0));
    }

    // The current process goes on the list of c, a new one if need be.
    method ParkCurrent(c: int, m: int)
      requires Valid() && CvRoom(Abs(), c)
      modifies C, procs, mutexes, cv
      ensures Valid() && Abs() == Park(old(Abs()), current, c, m)
    {
      var i := FindCv(c);
      if i == -1 {
        i := OpenCv(c);
      }
      ghost var t := cv.table;
      Rewrite(t, i, t[i].value + [Waiter(current, m)]);
      AddWaiter(i, m);
    }

    // Wait for the current process. The table and the lists have no check for
    // being full either.
    method Wait(c: int, m: int) returns (a: Answer)
      requires Valid()
      requires Owns(Abs(), current, m) ==> CvRoom(Abs(), c)
      modifies M, queues, mx`table, mx.elements, C, procs, mutexes, cv, `sent
      ensures Valid()
      ensures var s := old(Abs());
              if Owns(s, current, m) then
                && Abs() == Park(Release(s, m), current, c, m)
                && sent == old(sent) + ReleaseReplies(s, m) && a == DontReply
              else
                Abs() == s && sent == old(sent) && a == Send(MinusEInval)
    {
      var i := FindMutex(m);
      if i == -1 {
        return Send(MinusEInval);
      }
      assert MutexRow(i);
      if M[i].owner != current {
        return Send(MinusEInval);
      }
      var _ := Unlock(m);
      ParkCurrent(c, m);
      a := DontReply;
    }

    // ------------------------------------------------------------- broadcast

    method Zero(i: nat, j: nat)
      requires Valid() && i < MAX_CV && cv.table[i].used && j < |cv.table[i].value|
      modifies procs, mutexes, cv
      ensures Valid()
      ensures cv.table == old(cv.table)[i := old(cv.table)[i].(value := old(cv.table)[i].value[j := Waiter(0, 0)])]
    {
      assert CvRow(i);
      Rewrite(cv.table, i, cv.table[i].value[j := Waiter(0, 0)]);
      procs[i, j] := 0;
      mutexes[i, j] := 0;
      cv.table := cv.table[i := cv.table[i].(value := cv.table[i].value[j := Waiter(0, 0)])];
      ListsKept(i);
    }

    // Waiter j of list i asks for its mutex again.
    method Wake(i: nat, j: nat)
      requires Valid() && i < MAX_CV && j < |cv.table[i].value|
      requires |Abs().mutexes.Keys + {cv.table[i].value[j].mutex}| <= MAX_MUTEX
      modifies M, queues, mx, mx.elements, `current, `sent
      ensures Valid() && (forall x :: x in mx.elements ==> x in old(mx.elements) || fresh(x))
      ensures var w := cv.table[i].value[j];
              && Abs() == Acquire(old(Abs()), w.proc, w.mutex)
              && sent == old(sent) + if AcquireAnswer(old(Abs()), w.proc, w.mutex) == DontReply then []
                                     else [Reply(w.proc, Ok)]
    {
      assert CvRow(i);
      current := procs[i, j];
      var response := Lock(mutexes[i, j]);
      if response != DontReply {
        sent := sent + [Reply(current, Ok)];
      }
    }

    method WakeNext(i: nat, j: nat, ghost pr: Progress)
      requires Valid() && Midway(mx.table, cv.table, pr) && i == pr.i < MAX_CV && j == pr.j < |pr.t[i].value|
      modifies M, queues, mx, mx.elements, procs, mutexes, cv, `current, `sent
      ensures Valid() && (forall x :: x in mx.elements ==> x in old(mx.elements) || fresh(x))
      ensures Waiters(pr.g, pr.c) != [] && Midway(mx.table, cv.table, Advanced(pr))
      ensures sent == old(sent) + WakeFirstReplies(pr.g, pr.c)
    {
      MidwayNext(mx.table, cv.table, pr);
      Wake(i, j);
      Zero(i, j);
      MidwayStep(old(mx.table), old(cv.table), mx.table, cv.table, pr);
    }

    // The list in slot i, used for c, is given up.
    method CloseCv(i: nat, ghost c: int, ghost t: seq<Slot<seq<Waiter>>>)
      requires Valid() && i < MAX_CV && UniqueNumbers(t) && Holds(t, i, c) && Holds(cv.table, i, c)
      requires |t| == |cv.table| && cv.table == t[i := cv.table[i]]
      modifies C, cv
      ensures Valid() && Contents(cv.table) == Contents(t) - {c}
    {
      Clear(cv.table, i, Slot(false, 0, []));
      SetCv(i, CvSlot(false, 0, 0));
      assert cv.table == t[i := Slot(false, 0, [])];
      Clear(t, i, Slot(false, 0, []));
    }

    method Broadcast(c: int) returns (a: Answer)
      requires Valid() && Inv(Abs()) && MutexRoom(Abs(), c)
      modifies M, queues, mx, mx.elements, C, procs, mutexes, cv, `current, `sent
      ensures Valid() && (forall x :: x in mx.elements ==> x in old(mx.elements) || fresh(x)) && current == old(current)
      ensures var o := WakeAll(old(Abs()), c);
              Abs() == o.state && sent == old(sent) + o.replies && a == Send(Ok)
    {
      var i := FindCv(c);
      if i != -1 {
        var original := current;
        WakeList(i, c);
        current := original;
      }
      a := Send(Ok);
    }

    method WakeList(i: nat, c: int)
      requires Valid() && Inv(Abs()) && MutexRoom(Abs(), c) && i < MAX_CV && Holds(cv.table, i, c)
      modifies M, queues, mx, mx.elements, C, procs, mutexes, cv, `current, `sent
      ensures Valid() && (forall x :: x in mx.elements ==> x in old(mx.elements) || fresh(x))
      ensures var o := WakeAll(old(Abs()), c);
              Abs() == o.state && sent == old(sent) + o.replies
    {
      ghost var t, pr := cv.table, Progress(Abs(), cv.table, c, i, 0, Abs(), []);
      BroadcastStart(Abs(), c);
      assert cv.table == t[i := cv.table[i]];
      var j := 0;
      assert CvRow(i);
      while j < C[i].size
        invariant Valid() && (forall x :: x in mx.elements ==> x in old(mx.elements) || fresh(x))
        invariant Midway(mx.table, cv.table, pr) && pr.s == old(Abs()) && pr.t == t && pr.i == i && pr.c == c
        invariant pr.j == j <= |t[i].value| == C[i].size
        invariant sent == old(sent) + pr.rs
      {
        ghost var replies := WakeFirstReplies(pr.g, c);
        WakeNext(i, j, pr);
        ConcatAssoc(old(sent), pr.rs, replies);
        pr := Advanced(pr);
        j := j + 1;
        assert CvRow(i);
      }
      CloseCv(i, c, t);
      BroadcastEnd(pr.s, c, pr.g, pr.rs);
    }

    // ---------------------------------------------------- interrupt and exit

    // p leaves every queue; if it is to be notified, it is told so wherever it
    // is found.
    method LeaveQueues(p: int, notify: bool)
      requires QueueShape() && p !in garbage && InTableOnce(mx.table, p)
      modifies queues, mx`table, mx.elements, `sent
      ensures QueueShape()
      ensures forall k :: 0 <= k < MAX_MUTEX ==> mx.table[k] == PurgeMutex(old(mx.table)[k], p)
      ensures sent == old(sent)
              + if notify && InTable(old(mx.table), p, MAX_MUTEX) then [Reply(p, EIntr)] else []
    {
      ghost var t := mx.table;
      var i := 0;
      while i < MAX_MUTEX
        invariant 0 <= i <= MAX_MUTEX && QueueShape()
        invariant forall k :: 0 <= k < i ==> mx.table[k] == PurgeMutex(t[k], p)
        invariant forall k :: i <= k < MAX_MUTEX ==> mx.table[k] == t[k]
        invariant sent == old(sent) + if notify && InTable(t, p, i) then [Reply(p, EIntr)] else []
      {
        assert MutexRow(i);
        var empty := queues[i].IsEmpty();
        if !empty {
          var found := DiscardQueued(i, p);
          if found && notify {
            sent := sent + [Reply(p, EIntr)];
          }
        }
        i := i + 1;
      }
    }

    // p leaves list i, if it is there.
    method LeaveList(i: nat, p: int) returns (found: bool)
      requires ListShape() && i < MAX_CV && cv.table[i].used
      modifies C, procs, mutexes, cv
      ensures ListShape()
      ensures found <==> FirstOf(old(cv.table)[i].value, p) < |old(cv.table)[i].value|
      ensures cv.table == old(cv.table)[i := PurgeList(old(cv.table)[i], p)]
    {
      ghost var ws := cv.table[i].value;
      var j := 0;
      assert CvRow(i);
      while j < C[i].size
        invariant 0 <= j <= |ws| == C[i].size
        invariant forall k :: 0 <= k < j ==> ws[k].proc != p
      {
        if procs[i, j] == p {
          FirstIs(ws, p, j);
          RemoveWaiter(i, j);
          return true;
        }
        j := j + 1;
      }
      FirstIs(ws, p, j);
      return false;
    }

    // p leaves every wait list, and is told so if it is to be notified.
    method LeaveLists(p: int, notify: bool)
      requires ListShape() && OnTableOnce(cv.table, p)
      modifies C, procs, mutexes, cv, `sent
      ensures ListShape()
      ensures forall k :: 0 <= k < MAX_CV ==> cv.table[k] == PurgeList(old(cv.table)[k], p)
      ensures sent == old(sent)
              + if notify && OnTable(old(cv.table), p, MAX_CV) then [Reply(p, EIntr)] else []
    {
      ghost var t := cv.table;
      var i := 0;
      while i < MAX_CV
        invariant 0 <= i <= MAX_CV && ListShape()
        invariant forall k :: 0 <= k < i ==> cv.table[k] == PurgeList(t[k], p)
        invariant forall k :: i <= k < MAX_CV ==> cv.table[k] == t[k]
        invariant sent == old(sent) + if notify && OnTable(t, p, i) then [Reply(p, EIntr)] else []
      {
        assert CvRow(i);
        if C[i].used {
          var found := LeaveList(i, p);
          if found && notify {
            sent := sent + [Reply(p, EIntr)];
          }
        }
        i := i + 1;
      }
    }

    method LeaveEverything(p: int, notify: bool)
      requires Valid() && Inv(Abs()) && p !in garbage
      modifies queues, mx`table, mx.elements, C, procs, mutexes, cv, `sent
      ensures Valid() && Abs() == Forget(old(Abs()), p)
      ensures sent == old(sent) + if notify && p in Blocked(old(Abs())) then [Reply(p, EIntr)] else []
    {
      FoundOnce(mx.table, cv.table, p);
      LeaveQueues(p, notify);
      LeaveLists(p, notify);
      ForgetTables(old(mx.table), old(cv.table), mx.table, cv.table, p);
    }

    // One slot that the exiting process owns; before is what had been sent at the
    // start of the loop.
    method ReleaseSlot(i: int, ghost sw: Sweep, ghost before: seq<Reply>) returns (ghost next: Sweep)
      requires Valid() && current == sw.p && Sweeping(mx.table, sw) && sw.s.cvs == Abs().cvs
      requires 0 <= i == sw.i < MAX_MUTEX && |sw.t| == MAX_MUTEX
      requires mx.table[i].used && mx.table[i].value.owner == sw.p
      requires sent == before + ReleaseAll(sw.s, sw.order).replies
      modifies M, queues, mx`table, mx.elements, `sent
      ensures Valid() && Sweeping(mx.table, next) && next == sw.(i := i + 1, order := next.order)
      ensures sent == before + ReleaseAll(next.s, next.order).replies
    {
      assert MutexRow(i);
      ghost var u, n := mx.table, M[i].number;
      ConcatAssoc(before, ReleaseAll(sw.s, sw.order).replies, ReleaseReplies(Abs(), n));
      var _ := Unlock(M[i].number);
      SweepOver(u, mx.table, sw);
      next := sw.(i := i + 1, order := sw.order + [n]);
    }

    // The mutexes of p are released in slot order.
    method ReleaseOwned(p: int) returns (ghost order: seq<int>)
      requires Valid() && current == p
      modifies M, queues, mx`table, mx.elements, `sent
      ensures Valid() && ReleaseOrder(old(Abs()), p, order) && InSlotOrder(old(mx.table), order)
      ensures var o := ReleaseAll(old(Abs()), order);
              Abs() == o.state && sent == old(sent) + o.replies
    {
      ghost var s, sw := Abs(), Sweep(Abs(), mx.table, p, 0, []);
      SweepStart(s, mx.table, p);
      var i := 0;
      while i < MAX_MUTEX
        invariant Valid() && Sweeping(mx.table, sw) && cv.table == old(cv.table)
        invariant sw.s == s && sw.t == old(mx.table) && sw.p == p && sw.i == i <= MAX_MUTEX
        invariant sent == old(sent) + ReleaseAll(s, sw.order).replies
      {
        assert MutexRow(i);
        if M[i].used && M[i].owner == p {
          sw := ReleaseSlot(i, sw, old(sent));
        } else {
          SweepPast(mx.table, sw);
          sw := sw.(i := i + 1);
        }
        i := i + 1;
      }
      order := sw.order;
      OwnedAll(sw.t, p, order);
    }

    method Exit(p: int) returns (ghost order: seq<int>)
      requires Valid() && Inv(Abs()) && p !in garbage
      modifies M, queues, mx`table, mx.elements, C, procs, mutexes, cv, `current, `sent
      ensures Valid() && current == old(current)
      ensures ReleaseOrder(old(Abs()), p, order) && InSlotOrder(old(mx.table), order)
      ensures Abs() == Departed(old(Abs()), p)
      ensures sent == old(sent) + ReleaseAll(old(Abs()), order).replies
    {
      ghost var s := Abs();
      var original := current;
      current := p;
      order := ReleaseOwned(p);
      ReleaseAllKeeps(s, order);
      DepartedAnyOrder(s, p, order);
      LeaveEverything(p, false);
      current := original;
    }

    // ----------------------------------------------------------- the message

    // What the environment owes before a message is handled.
    ghost predicate Ready(r: Request)
      requires UniqueNumbers(mx.table) && UniqueNumbers(cv.table)
      reads mx, cv
    {
      Legal(Abs(), r) && Room(Abs(), r) && (IsCall(r) || r.proc !in garbage)
    }

    // A call of the current process: its step, but for the answer to the caller
    // itself.
    method Call(r: Request) returns (result: Answer)
      requires Valid() && Inv(Abs()) && IsCall(r) && current == r.proc && Ready(r)
      modifies M, queues, mx, mx.elements, C, procs, mutexes, cv, `current, `sent
      ensures Valid() && current == r.proc && (forall x :: x in mx.elements ==> x in old(mx.elements) || fresh(x))
      ensures Abs() == Next(old(Abs()), r)
      ensures old(sent) + Replies(old(Abs()), r) == sent + Answered(r.proc, result)
    {
      if r.Wait? || r.Broadcast? {
        result := CallCv(r);
      } else {
        result := CallMutex(r);
      }
    }

    method CallMutex(r: Request) returns (result: Answer)
      requires Valid() && current == r.proc && Ready(r) && (r.Lock? || r.Unlock? || r.Unknown?)
      modifies M, queues, mx, mx.elements, `sent
      ensures Valid() && current == r.proc && (forall x :: x in mx.elements ==> x in old(mx.elements) || fresh(x))
      ensures Abs() == Next(old(Abs()), r)
      ensures old(sent) + Replies(old(Abs()), r) == sent + Answered(r.proc, result)
    {
      match r {
        case Lock(_, n) => result := Lock(n);
        case Unlock(_, n) => result := Unlock(n);
        case Unknown(_) => result := Send(EInval);
      }
    }

    method CallCv(r: Request) returns (result: Answer)
      requires Valid() && Inv(Abs()) && current == r.proc && Ready(r) && (r.Wait? || r.Broadcast?)
      modifies M, queues, mx, mx.elements, C, procs, mutexes, cv, `current, `sent
      ensures Valid() && current == r.proc && (forall x :: x in mx.elements ==> x in old(mx.elements) || fresh(x))
      ensures Abs() == Next(old(Abs()), r)
      ensures old(sent) + Replies(old(Abs()), r) == sent + Answered(r.proc, result)
    {
      if r.Wait? {
        result := CallWait(r);
      } else {
        result := Broadcast(r.cv);
      }
    }

    method CallWait(r: Request) returns (result: Answer)
      requires Valid() && current == r.proc && Ready(r) && r.Wait?
      modifies M, queues, mx`table, mx.elements, C, procs, mutexes, cv, `sent
      ensures Valid() && Abs() == Next(old(Abs()), r)
      ensures old(sent) + Replies(old(Abs()), r) == sent + Answered(r.proc, result)
    {
      result := Wait(r.cv, r.mutex);
    }

    // A notice of the process manager: nobody is answered for sending it.
    method Notice(r: Request) returns (ghost rs: seq<Reply>)
      requires Valid() && Inv(Abs()) && !IsCall(r) && Ready(r)
      modifies M, queues, mx`table, mx.elements, C, procs, mutexes, cv, `current, `sent
      ensures Valid() && Abs() == Next(old(Abs()), r)
      ensures Produces(old(Abs()), r, rs) && sent == old(sent) + rs
    {
      ghost var s := Abs();
      match r {
        case Interrupt(p) =>
          LeaveEverything(p, true);
          rs := Replies(s, r);
        case Exit(p) =>
          ghost var order := Exit(p);
          rs := ReleaseAll(s, order).replies;
      }
    }

    // One message is one step of the abstract machine, with its replies.
    method Handle(m: Message) returns (ghost rs: seq<Reply>)
      requires Valid() && Inv(Abs()) && Ready(Decode(m))
      modifies M, queues, mx, mx.elements, C, procs, mutexes, cv, `current, `sent
      ensures Valid() && (forall x :: x in mx.elements ==> x in old(mx.elements) || fresh(x))
      ensures Abs() == Next(old(Abs()), Decode(m))
      ensures Produces(old(Abs()), Decode(m), rs) && sent == old(sent) + rs
      ensures MessageLaw(old(Abs()), Abs(), m, rs)
    {
      DecodeLaws(Abs(), m);
      current := m.source;
      var r := Decode(m);
      if IsCall(r) {
        rs := Replies(Abs(), r);
        var result := Call(r);
        if result != DontReply {
          sent := sent + [Reply(current, result.code)];
        }
      } else {
        rs := Notice(r);
      }
    }

    // The receive loop, on a finite input: the replies sent are those of a run
    // of the abstract machine on the decoded messages, in the same order. Room for
    // waiters is not asked of the input; at most 512 callers live at once.
    method Serve(input: seq<Message>) returns (ghost es: seq<Event>)
      requires Valid() && Abs() == EMPTY && sent == [] && Serviceable(EMPTY, {}, input, garbage)
      modifies M, queues, mx, mx.elements, C, procs, mutexes, cv, `current, `sent
      ensures Valid() && Run(EMPTY, es) && Abs() == After(EMPTY, es)
      ensures |es| == |input| && forall k :: 0 <= k < |es| ==> es[k].request == Decode(input[k])
      ensures forall k :: 0 <= k < |es| ==> LawAt(input, es, k)
      ensures sent == AllReplies(es)
    {
      es := [];
      var i := 0;
      Traces.EmptyAgrees();
      while i < |input|
        invariant Valid() && (forall x :: x in mx.elements ==> x in old(mx.elements) || fresh(x))
        invariant Served(input, i, es, Abs(), sent, garbage)
      {
        ghost var s, before := Abs(), sent;
        ServedNext(input, i, es, s, before, garbage);
        var rs := Handle(input[i]);
        ServedStep(input, i, es, s, before, garbage, rs);
        es := es + [Event(Decode(input[i]), rs)];
        i := i + 1;
      }
      assert input[i..] == [];
      RunLaws(input, es);
    }
  }

  // The first i messages have been handled as the events es, leading to s.
  ghost predicate Served(input: seq<Message>, i: int, es: seq<Event>, s: State, sent: seq<Reply>, garbage: seq<int>) {
    var holds := 0 <= i <= |input| && |es| == i && Run(EMPTY, es) && s == After(EMPTY, es) && Inv(s)
                 && (forall k :: 0 <= k < i ==> es[k].request == Decode(input[k]))
                 && Serviceable(s, Living(es), input[i..], garbage) && sent == AllReplies(es);
    holds
  }

  lemma ServedNext(input: seq<Message>, i: int, es: seq<Event>, s: State, sent: seq<Reply>, garbage: seq<int>)
    requires Served(input, i, es, s, sent, garbage) && i < |input|
    ensures var r := Decode(input[i]);
            Inv(s) && Legal(s, r) && Room(s, r) && (IsCall(r) || r.proc !in garbage)
  {
    var r := Decode(input[i]);
    if r.Wait? {
      RunsFit(es, r.proc);
      assert |Waiters(s, r.cv)| < MAX_WAITERS;
    }
  }

  lemma ServedStep(input: seq<Message>, i: int, es: seq<Event>, s: State, sent: seq<Reply>, garbage: seq<int>,
                   rs: seq<Reply>)
    requires Served(input, i, es, s, sent, garbage) && i < |input| && Produces(s, Decode(input[i]), rs)
    ensures Served(input, i + 1, es + [Event(Decode(input[i]), rs)], Next(s, Decode(input[i])), sent + rs, garbage)
  {
    var e := Event(Decode(input[i]), rs);
    NextKeeps(s, e.request);
    RunSnoc(EMPTY, es, e);
    LivingSnoc({}, es, e);
    assert input[i..][1..] == input[i + 1..];
  }

  // Every message of the input keeps to what the surroundings owe when its turn
  // comes; live are the callers up to then that have not exited since.
  ghost predicate Serviceable(s: State, live: set<int>, input: seq<Message>, garbage: seq<int>)
    decreases input
  {
    input == [] ||
    var r := Decode(input[0]);
    && Legal(s, r) && MutexesFit(s, r) && (IsCall(r) || r.proc !in garbage)
    && (r.Wait? ==> |live + {r.proc}| <= MAX_CV)
    && Serviceable(Next(s, r), LiveAfter(live, r), input[1..], garbage)
  }

  function AllReplies(es: seq<Event>): seq<Reply> {
    if es == [] then [] else es[0].replies + AllReplies(es[1..])
  }

  lemma {:induction false} RunSnoc(s: State, es: seq<Event>, e: Event)
    requires Run(s, es) && Legal(After(s, es), e.request) && Produces(After(s, es), e.request, e.replies)
    ensures Run(s, es + [e]) && After(s, es + [e]) == Next(After(s, es), e.request)
    ensures AllReplies(es + [e]) == AllReplies(es) + e.replies
    decreases es
  {
    if es == [] {
      assert es + [e] == [e];
      assert [e][1..] == [];
    } else {
      assert (es + [e])[1..] == es[1..] + [e];
      RunSnoc(Next(s, es[0].request), es[1..], e);
      ConcatAssoc(es[0].replies, AllReplies(es[1..]), e.replies);
    }
  }

  function Answered(p: int, a: Answer): seq<Reply> {
    if a == DontReply then [] else [Reply(p, a.code)]
  }

  method MakeQueues(memory: seq<int>) returns (qs: seq<Queue>, ghost es: set<Element>)
    requires |memory| == MAX_MUTEX
    ensures |qs| == MAX_MUTEX && fresh(qs) && fresh(es)
    ensures forall i, j :: 0 <= i < j < |qs| ==> qs[i] != qs[j]
    ensures forall i :: 0 <= i < |qs| ==> qs[i].Valid() && qs[i].Contents() == [] && qs[i].start.proc == memory[i]
    ensures forall i, j :: 0 <= i < |qs| && 0 <= j < |qs[i].nodes| ==> qs[i].nodes[j] in es
  {
    qs, es := [], {};
    while |qs| < MAX_MUTEX
      invariant |qs| <= MAX_MUTEX && fresh(qs) && fresh(es)
      invariant forall i, j :: 0 <= i < j < |qs| ==> qs[i] != qs[j]
      invariant forall i :: 0 <= i < |qs| ==> qs[i].Valid() && qs[i].Contents() == [] && qs[i].start.proc == memory[i]
      invariant forall i, j :: 0 <= i < |qs| && 0 <= j < |qs[i].nodes| ==> qs[i].nodes[j] in es
    {
      var q := new Queue(memory[|qs|]);
      qs, es := qs + [q], es + set x | x in q.nodes;
    }
  }
}
