// The process manager's table as the program keeps it: an array of slots that
// the routines change in place, a counter and two cursors. Every routine is
// proved equal to its function on the table. Stops of the system ("panic")
// appear as assertions.
module PmTable {
  import opened PmModel
  import opened PmInvariant
  import opened PmSteps
  import opened PmExit
  import opened PmLife
  import opened PmPid
  import opened PmRuns
  import opened PmTheorems
  import opened PmLaws

  datatype Check = Fine | BadSlot | DeadEndpoint

  datatype ForkResult = TryAgain | Refused | Forked(k: int, pid: int)

  // A message to the process manager.
  datatype Call =
    | ForkCall(p: int, granted: bool, gens: seq<int>)
    | ExitCall(x: int, status: int, utime: int, stime: int)
    | KillCall(x: int, signo: int, core: bool, utime: int, stime: int)
    | WaitCall(p: int, pid: int, noHang: bool)
    | VfsAnswer(e: Endpoint, kind: Ask, dumped: bool)
    | CaughtSignal(p: int)
    | SetsidCall(p: int)

  // ev is the event that the message stands for.
  predicate Means(m: Call, ev: Event) {
    match m
    case ForkCall(p, granted, gens) =>
      granted && ev.Forks? && ev.p == p && 0 <= ev.k < |gens| && ev.e == Endpoint(ev.k, gens[ev.k])
    case ExitCall(x, status, utime, stime) => ev == Exits(x, Called(status, utime, stime))
    case KillCall(x, signo, core, utime, stime) => ev == Exits(x, Killed(signo, core, utime, stime))
    case WaitCall(p, pid, noHang) => ev == Waits(p, pid, noHang)
    case VfsAnswer(e, _, dumped) => ev == Answers(e, dumped)
    case CaughtSignal(p) => ev == Interrupts(p)
    case SetsidCall(p) => ev == Regroups(p)
  }

  // A process that calls exit has been sent no signal; one that is killed leaves
  // the signal, kept as a signed byte, and the status 0.
  function Called(status: int, utime: int, stime: int): Death {
    Death(status, 0, false, utime, stime)
  }

  function Killed(signo: int, core: bool, utime: int, stime: int): Death {
    Death(0, AsChar(signo), core, utime, stime)
  }

  // The caller does not run, there is no room for a fork, or a system process
  // calls exit: it is sent a signal instead.
  predicate Ignored(s: State, m: Call) {
    match m
    case ForkCall(p, granted, _) => Runs(s, p) ==> TableFull(s, p) || !granted
    case ExitCall(x, _, _, _) => Runs(s, x) ==> s.procs[x].priv
    case KillCall(x, _, _, _, _) => !Runs(s, x)
    case WaitCall(p, _, _) => !Runs(s, p)
    case VfsAnswer(_, _, _) => false
    case CaughtSignal(p) => !Runs(s, p)
    case SetsidCall(p) => !Runs(s, p)
  }

  // For each slot the generation that the kernel gives the next process there:
  // the endpoint is new.
  ghost predicate FreshIn(s: State, gens: seq<int>) {
    |gens| == |s.procs| && forall k :: 0 <= k < |gens| ==> Endpoint(k, gens[k]) !in s.books.born
  }

  // What the surroundings promise of a message.
  ghost predicate Welcome(s: State, init: int, m: Call) {
    match m
    case ForkCall(p, _, gens) => Runs(s, p) ==> p > 0 && FreshIn(s, gens)
    case ExitCall(x, _, _, _) => Runs(s, x) ==> CanExit(s, x, init)
    case KillCall(x, _, _, _, _) => Runs(s, x) ==> CanExit(s, x, init)
    case WaitCall(_, _, _) => true
    case VfsAnswer(e, kind, _) => e in s.books.asked && s.books.asked[e] == kind
    case CaughtSignal(_) => true
    case SetsidCall(p) => Runs(s, p) ==> CanSetsid(s, p)
  }

  // The message m takes the table from s to u: by the event ev, or not at all.
  ghost predicate Effect(s: State, u: State, init: int, m: Call, done: bool, ev: Event)
    requires Inv(s, init)
  {
    var holds := if done then Legal(s, init, ev) && u == Step(s, init, ev) && Means(m, ev) else u == s && Ignored(s, m);
    holds
  }

  lemma ExitStep(s: State, init: int, x: int, how: Death)
    requires Inv(s, init) && CanExit(s, x, init)
    ensures Legal(s, init, Exits(x, how)) && Step(s, init, Exits(x, how)) == ExitProc(s, x, init, how)
  {
  }

  lemma SetsidEffect(s: State, init: int, p: int)
    requires Inv(s, init) && Welcome(s, init, SetsidCall(p))
    ensures var u := if Runs(s, p) && s.procs[p].procgrp != s.procs[p].pid then Setsid(s, p) else s;
            Effect(s, u, init, SetsidCall(p), Runs(s, p), Regroups(p))
  {
  }

  lemma AnswerEffect(s: State, init: int, e: Endpoint, kind: Ask, dumped: bool)
    requires Inv(s, init) && Welcome(s, init, VfsAnswer(e, kind, dumped))
    ensures InTable(s, e)
    ensures Effect(s, VfsReply(s, e, dumped), init, VfsAnswer(e, kind, dumped), true, Answers(e, dumped))
  {
    AskedSlot(s, e);
  }

  lemma WaitEffect(s: State, init: int, p: int, pid: int, noHang: bool)
    requires Inv(s, init)
    ensures var u := if Runs(s, p) then Waitpid(s, p, pid, noHang) else s;
            Effect(s, u, init, WaitCall(p, pid, noHang), Runs(s, p), Waits(p, pid, noHang))
  {
  }

  // Every message of the input is welcome when its turn comes.
  ghost predicate Serviceable(s: State, init: int, input: seq<Call>)
    requires Inv(s, init)
    decreases input
  {
    input == [] ||
    (&& Welcome(s, init, input[0])
     && (Ignored(s, input[0]) ==> Serviceable(s, init, input[1..]))
     && forall ev :: Legal(s, init, ev) && Means(input[0], ev) ==>
          (StepKeeps(s, init, ev); Serviceable(Step(s, init, ev), init, input[1..])))
  }

  // evs are the events of the messages, in order, without those ignored.
  ghost predicate Explains(s: State, init: int, input: seq<Call>, evs: seq<Event>)
    requires Inv(s, init)
    decreases input
  {
    if input == [] then evs == []
    else
      var m, rest := input[|input| - 1], input[..|input| - 1];
      || (LegalRun(s, init, evs) && Ignored(Run(s, init, evs), m) && Explains(s, init, rest, evs))
      || (evs != [] && Means(m, evs[|evs| - 1]) && Explains(s, init, rest, evs[..|evs| - 1]))
  }

  // The messages have led from s to u by way of evs.
  ghost predicate Reached(s: State, u: State, init: int, input: seq<Call>, evs: seq<Event>) {
    var holds := Inv(s, init) && Inv(u, init) && LegalRun(s, init, evs) && u == Run(s, init, evs)
                 && Explains(s, init, input, evs);
    holds
  }

  // The first i messages have, and the others are welcome.
  ghost predicate Served(s: State, u: State, init: int, input: seq<Call>, i: int, evs: seq<Event>) {
    var holds := 0 <= i <= |input| && Reached(s, u, init, input[..i], evs)
                 && Inv(u, init) && Serviceable(u, init, input[i..]);
    holds
  }

  lemma ServedNext(s: State, u: State, init: int, input: seq<Call>, i: int, evs: seq<Event>)
    requires Served(s, u, init, input, i, evs) && i < |input|
    ensures Inv(u, init) && Welcome(u, init, input[i])
  {
  }

  lemma ReachedStep(s: State, u: State, init: int, input: seq<Call>, i: int, evs: seq<Event>, ev: Event)
    requires 0 <= i < |input| && Reached(s, u, init, input[..i], evs) && Inv(u, init)
    requires Legal(u, init, ev) && Means(input[i], ev)
    ensures Reached(s, Step(u, init, ev), init, input[..i + 1], evs + [ev])
  {
    RunSnoc(s, init, evs, ev);
    ExplainsNext(s, init, input, i, evs, ev);
  }

  lemma ServedStep(s: State, u: State, init: int, input: seq<Call>, i: int, evs: seq<Event>, ev: Event)
    requires Served(s, u, init, input, i, evs) && i < |input| && Inv(u, init)
    requires Legal(u, init, ev) && Means(input[i], ev)
    ensures Served(s, Step(u, init, ev), init, input, i + 1, evs + [ev])
  {
    ReachedStep(s, u, init, input, i, evs, ev);
    ServiceableNext(u, init, input[i..], ev);
    assert input[i..][1..] == input[i + 1..];
  }

  lemma ExplainsNext(s: State, init: int, input: seq<Call>, i: int, evs: seq<Event>, ev: Event)
    requires Inv(s, init) && 0 <= i < |input| && Explains(s, init, input[..i], evs) && Means(input[i], ev)
    ensures Explains(s, init, input[..i + 1], evs + [ev])
  {
    assert input[..i + 1][..i] == input[..i];
    assert (evs + [ev])[..|evs|] == evs;
  }

  lemma ServiceableNext(s: State, init: int, input: seq<Call>, ev: Event)
    requires Inv(s, init) && Serviceable(s, init, input) && input != [] && Legal(s, init, ev) && Means(input[0], ev)
    ensures Inv(Step(s, init, ev), init) && Serviceable(Step(s, init, ev), init, input[1..])
  {
    StepKeeps(s, init, ev);
  }

  lemma ServedSkip(s: State, u: State, init: int, input: seq<Call>, i: int, evs: seq<Event>)
    requires Served(s, u, init, input, i, evs) && i < |input| && Ignored(u, input[i])
    ensures Served(s, u, init, input, i + 1, evs)
  {
    assert input[i..][1..] == input[i + 1..];
    assert input[..i + 1][..i] == input[..i];
  }

  // The first free slot on the circle after a.
  ghost predicate FirstFree(procs: seq<Slot>, a: int, k: int) {
    && 0 <= a < |procs| && 0 <= k < |procs| && !procs[k].inUse
    && forall q :: 0 <= q < |procs| && Ahead(a, q, |procs|) < Ahead(a, k, |procs|) ==> procs[q].inUse
  }

  function Ahead(a: int, q: int, n: int): int {
    if q > a then q - a else q - a + n
  }

  class Table {
    const procs: array<Slot>
    const init: int
    const firstPid: int
    const lastPid: int
    const tasks: nat
    var used: int
    var nextChild: int
    var nextPid: int
    ghost var books: Books

    ghost predicate Cursors()
      reads this
    {
      0 <= nextChild < procs.Length && firstPid < nextPid <= lastPid && firstPid >= 0 && 0 < init < procs.Length
    }

    ghost function View(): State
      reads this, procs
    {
      State(procs[..], used, books)
    }

    constructor (s: State, init: int, firstPid: int, lastPid: int, tasks: nat)
      requires 0 < init < |s.procs| && 0 <= firstPid < lastPid
      ensures Cursors() && View() == s && fresh(procs) && procs.Length == |s.procs|
      ensures this.init == init && this.firstPid == firstPid && this.lastPid == lastPid && this.tasks == tasks
    {
      procs := new Slot[|s.procs|](i requires 0 <= i < |s.procs| => s.procs[i]);
      this.init, this.firstPid, this.lastPid, this.tasks := init, firstPid, lastPid, tasks;
      used, nextChild, nextPid, books := s.used, 0, firstPid + 1, s.books;
      new;
      assert procs[..] == s.procs;
    }

    // ------------------------------------------------------------- death

    method TellParent(c: int)
      requires Bounded(View()) && CanTell(View(), c)
      modifies this`books, procs
      ensures View() == PmModel.TellParent(old(View()), c)
      ensures !procs[old(procs[c]).parent].waiting
    {
      var p := procs[c].parent;
      assert p > 0 && procs[c].zombie && !procs[c].toldParent;
      var status := procs[c].exitStatus * 256 + procs[c].sigStatus % 256;
      books := books.(reports := books.reports + [Report(procs[p].endpoint, procs[c].endpoint, procs[c].pid, status)]);
      procs[p] := procs[p].(waiting := false);
      procs[c] := procs[c].(zombie := false);
      procs[c] := procs[c].(toldParent := true);
    }

    method Cleanup(c: int)
      requires Bounded(View()) && 0 <= c < procs.Length
      modifies this`used, this`books, procs
      ensures View() == PmModel.Cleanup(old(View()), c)
      ensures Blank(procs[c]) && used == old(used) - 1
    {
      books := books.(freed := books.freed + [procs[c].endpoint]);
      procs[c] := procs[c].(pid := 0);
      procs[c] := procs[c].(inUse := false, exiting := false, zombie := false, toldParent := false,
                            waiting := false, vfsCall := false, priv := false);
      procs[c] := procs[c].(childUtime := 0, childStime := 0);
      used := used - 1;
    }

    method CheckParent(c: int, tryCleanup: bool)
      requires Bounded(View()) && CanTell(View(), c)
      modifies this`used, this`books, procs
      ensures View() == PmModel.CheckParent(old(View()), c, tryCleanup)
      ensures books.reports != old(books.reports) ==> !procs[old(procs[c]).parent].waiting
    {
      var p := procs[c].parent;
      if procs[p].exiting {
      } else if WaitTest(procs[p], procs[c]) {
        TellParent(c);
        if tryCleanup && !procs[c].vfsCall {
          Cleanup(c);
        }
      }
    }

    method Zombify(c: int)
      requires Bounded(View()) && 0 <= c < procs.Length && procs[c].parent > 0
      requires !procs[c].zombie && !procs[c].toldParent
      modifies this`used, this`books, procs
      ensures View() == PmModel.Zombify(old(View()), c)
    {
      assert !procs[c].zombie;
      procs[c] := procs[c].(zombie := true);
      assert View() == MarkZombie(old(View()), c);
      CheckParent(c, false);
    }

    // -------------------------------------------------------------- exit

    method TellVfs(c: int, ask: Ask)
      requires 0 <= c < procs.Length && !procs[c].vfsCall
      modifies this`books, procs
      ensures procs[..] == old(procs[..])[c := old(procs[c]).(vfsCall := true)]
      ensures books == old(books).(asked := old(books).asked[old(procs[c]).endpoint := ask])
    {
      assert !procs[c].vfsCall;
      books := books.(asked := books.asked[procs[c].endpoint := ask]);
      procs[c] := procs[c].(vfsCall := true);
    }

    method BeginExit(x: int, how: Death)
      requires Bounded(View()) && 0 <= x < procs.Length && !procs[x].vfsCall && procs[x].parent != x
      modifies this`books, procs
      ensures View() == PmModel.BeginExit(old(View()), x, how)
    {
      ghost var s := View();
      ChargeParent(x, how.utime, how.stime);
      books := books.(utime := books.utime + how.utime, stime := books.stime + how.stime,
                      exits := books.exits + [procs[x].endpoint],
                      said := books.said[procs[x].endpoint := Said(procs[x].pid, AsChar(how.status), how.sig)]);
      procs[x] := procs[x].(sigStatus := how.sig);
      TellVfs(x, if how.dump then CoreAsk else ExitAsk);
      procs[x] := procs[x].(zombie := false, toldParent := false, waiting := false, exiting := true,
                            exitStatus := AsChar(how.status));
      assert books == PmModel.BeginExit(s, x, how).books;
    }

    method ChargeParent(x: int, utime: int, stime: int)
      requires Bounded(View()) && 0 <= x < procs.Length && procs[x].parent != x
      modifies procs
      ensures var p := old(procs[x]).parent;
              procs[..] == old(procs[..])[p := old(procs[p]).(
                childUtime := old(procs[p]).childUtime + utime + old(procs[x]).childUtime,
                childStime := old(procs[p]).childStime + stime + old(procs[x]).childStime)]
    {
      var p := procs[x].parent;
      procs[p] := procs[p].(childUtime := procs[p].childUtime + utime + procs[x].childUtime);
      procs[p] := procs[p].(childStime := procs[p].childStime + stime + procs[x].childStime);
    }

    // One child of an exiting process.
    method Disinherit(x: int, c: int)
      requires Bounded(View()) && 0 <= c < procs.Length && 0 < init < procs.Length
      requires !(procs[c].zombie && procs[c].toldParent)
      modifies this`used, this`books, procs
      ensures View() == Adopt(old(View()), x, init, c)
    {
      if procs[c].inUse {
        if procs[c].parent == x {
          procs[c] := procs[c].(parent := init);
          assert View() == Reparent(old(View()), c, init);
          if procs[c].zombie {
            CheckParent(c, true);
          }
        }
      }
    }

    method Exit(x: int, how: Death)
      requires Inv(View(), init) && CanExit(View(), x, init)
      modifies this`used, this`books, procs
      ensures View() == ExitProc(old(View()), x, init, how)
      ensures Inv(View(), init) && ExitLaw(old(View()), View(), x, how)
      ensures books.utime == old(books).utime + how.utime && books.stime == old(books).stime + how.stime
    {
      ghost var s := View();
      ExitRecord(s, x, init, how);
      ExitKeeps(s, init, x, how);
      ExitAsks(s, init, x, how);
      var dump := how.dump;
      if dump && procs[x].realUid != procs[x].effUid {
        dump := false;
      }
      if dump && procs[x].priv {
        dump := false;
      }
      assert how.(dump := dump) == Final(s.procs[x], how);
      Start(x, how.(dump := dump));
      DisinheritAll(x);
    }

    method DisinheritAll(x: int)
      requires Bounded(View()) && Untold(View()) && 0 < init < procs.Length
      modifies this`used, this`books, procs
      ensures View() == AdoptFrom(old(View()), x, init, 0)
    {
      ghost var b := View();
      var c := 0;
      while c < procs.Length
        invariant 0 <= c <= procs.Length && Bounded(View()) && Untold(View())
        invariant AdoptFrom(View(), x, init, c) == AdoptFrom(b, x, init, 0)
      {
        AdoptUntold(View(), x, init, c);
        Disinherit(x, c);
        c := c + 1;
      }
    }

    method Start(x: int, how: Death)
      requires Inv(View(), init) && CanExit(View(), x, init)
      modifies this`used, this`books, procs
      ensures View() == Begun(old(View()), x, how)
      ensures Bounded(View()) && Untold(View())
    {
      BegunUntold(View(), init, x, how);
      LiveParent(View(), init, x);
      assert HasParent(View(), -1, 0, x);
      BeginExit(x, how);
      if !how.dump {
        Zombify(x);
      }
    }

    // ------------------------------------------------- file system replies

    method IsOkEndpoint(e: Endpoint) returns (r: Check)
      ensures r == Fine && e.slot >= 0 <==> InTable(View(), e)
      ensures r == BadSlot <==> e.slot + tasks < 0 || e.slot >= procs.Length
    {
      if e.slot + tasks < 0 || e.slot >= procs.Length {
        return BadSlot;
      }
      if e.slot >= 0 && e != procs[e.slot].endpoint {
        return DeadEndpoint;
      }
      if e.slot >= 0 && !procs[e.slot].inUse {
        return DeadEndpoint;
      }
      return Fine;
    }

    method ExitRestart(x: int, dump: bool)
      requires Bounded(View()) && 0 <= x < procs.Length
      requires dump ==> procs[x].parent > 0 && !procs[x].zombie && !procs[x].toldParent
      modifies this`used, this`books, procs
      ensures View() == PmModel.ExitRestart(old(View()), x, dump)
    {
      if dump {
        Zombify(x);
      }
      if procs[x].toldParent {
        Cleanup(x);
      }
    }

    // A reply that names no process of the table, or one with no request, would
    // stop the system.
    method MarkIdle(e: Endpoint, kind: Ask, dumped: bool)
      requires Bounded(View()) && e in books.asked && books.asked[e] == kind
      requires InTable(View(), e) && procs[e.slot].vfsCall
      modifies this`books, procs
      ensures View() == Answered(old(View()), e, dumped)
    {
      var ok := IsOkEndpoint(e);
      assert ok == Fine;
      assert procs[e.slot].vfsCall;
      procs[e.slot] := procs[e.slot].(vfsCall := false);
      books := books.(asked := books.asked - {e});
      if kind == CoreAsk && dumped {
        books := books.(cored := books.cored + {e});
        procs[e.slot] := procs[e.slot].(sigStatus := SetDumped(procs[e.slot].sigStatus));
      }
    }

    // The kind of reply is the kind of request.
    method HandleVfsReply(e: Endpoint, kind: Ask, dumped: bool)
      requires Inv(View(), init) && e in books.asked && books.asked[e] == kind
      modifies this`used, this`books, procs
      ensures InTable(old(View()), e) && View() == VfsReply(old(View()), e, dumped)
      ensures Inv(View(), init)
    {
      VfsReplyKeeps(View(), init, e, dumped);
      ReplyReady(View(), init, e);
      MarkIdle(e, kind, dumped);
      match kind
      case ForkAsk =>
      case SetsidAsk =>
      case ExitAsk => ExitRestart(e.slot, false);
      case CoreAsk => ExitRestart(e.slot, true);
    }

    // -------------------------------------------------------------- fork

    method FindSlot() returns (k: int)
      requires Cursors() && exists c :: 0 <= c < procs.Length && !procs[c].inUse
      modifies this`nextChild
      ensures Cursors() && nextChild == k && FirstFree(procs[..], old(nextChild), k)
    {
      ghost var a, goal := nextChild, FreeSlotIn(procs[..]);
      AheadNext(a, a, goal, procs.Length);
      nextChild := (nextChild + 1) % procs.Length;
      var n := 1;
      while procs[nextChild].inUse && n <= procs.Length
        invariant 0 <= nextChild < procs.Length && 1 <= n <= Ahead(a, goal, procs.Length)
        invariant Ahead(a, nextChild, procs.Length) == n
        invariant forall q :: 0 <= q < procs.Length && Ahead(a, q, procs.Length) < n ==> procs[q].inUse
      {
        forall q | 0 <= q < procs.Length ensures Ahead(a, q, procs.Length) == n ==> q == nextChild {
          AheadNext(a, nextChild, q, procs.Length);
        }
        AheadNext(a, nextChild, goal, procs.Length);
        nextChild := (nextChild + 1) % procs.Length;
        n := n + 1;
      }
      assert n <= procs.Length;
      assert nextChild < procs.Length && !procs[nextChild].inUse;
      k := nextChild;
    }

    method GetFreePid() returns (pid: int)
      requires Cursors() && exists q :: firstPid < q <= lastPid && Unused(procs[..], q)
      modifies this`nextPid
      ensures Cursors() && nextPid == pid && FirstUnused(procs[..], old(nextPid), pid, firstPid, lastPid)
    {
      ghost var a := nextPid;
      ghost var goal :| firstPid < goal <= lastPid && Unused(procs[..], goal);
      ghost var j := 0;
      var taken := true;
      while taken
        invariant Cursors() && 0 <= j <= Steps(a, goal, firstPid, lastPid)
        invariant if j == 0 then nextPid == a && taken else Steps(a, nextPid, firstPid, lastPid) == j
        invariant !taken ==> Unused(procs[..], nextPid)
        invariant forall q :: firstPid < q <= lastPid && Steps(a, q, firstPid, lastPid) < j ==> !Unused(procs[..], q)
        invariant taken && j > 0 ==> !Unused(procs[..], nextPid)
        decreases Steps(a, goal, firstPid, lastPid) - j, taken
      {
        forall q | firstPid < q <= lastPid
          ensures Steps(a, q, firstPid, lastPid) == j + 1 <==> q == NextPid(nextPid, firstPid, lastPid)
          ensures j > 0 ==> (Steps(a, q, firstPid, lastPid) == j <==> q == nextPid)
        {
          NextStep(a, nextPid, q, firstPid, lastPid);
        }
        taken := false;
        nextPid := if nextPid < lastPid then nextPid + 1 else firstPid + 1;
        j := j + 1;
        taken := Bears(nextPid);
      }
      pid := nextPid;
    }

    method Bears(pid: int) returns (taken: bool)
      ensures taken <==> !Unused(procs[..], pid)
    {
      taken := false;
      var c := 0;
      while c < procs.Length
        invariant 0 <= c <= procs.Length
        invariant Unused(procs[..c], pid)
      {
        if procs[c].pid == pid || procs[c].procgrp == pid {
          taken := true;
          break;
        }
        c := c + 1;
      }
    }

    // The kernel either refuses or makes a new endpoint for the slot it is given.
    method DoFork(p: int, granted: bool, gens: seq<int>) returns (r: ForkResult)
      requires Cursors() && Inv(View(), init) && Runs(View(), p) && p > 0
      requires lastPid - firstPid > 2 * procs.Length
      requires FreshIn(View(), gens)
      modifies this, procs
      ensures Cursors() && Inv(View(), init)
      ensures r == TryAgain <==> TableFull(old(View()), p)
      ensures var free := FreeSlots(old(procs[..]));
              r == TryAgain <==> free == 0 || (free <= 2 && old(procs[p]).effUid != 0)
      ensures r == Refused <==> !TableFull(old(View()), p) && !granted
      ensures match r
              case Forked(k, pid) =>
                && 0 <= k < |gens|
                && CanFork(old(View()), p, k, pid, Endpoint(k, gens[k]))
                && View() == Fork(old(View()), p, k, pid, Endpoint(k, gens[k]))
                && ForkLaw(old(View()), View(), p, k, pid, Endpoint(k, gens[k]))
                && FirstFree(old(procs[..]), old(nextChild), k)
              case _ => View() == old(View())
    {
      RefusedWhen(View(), p);
      if used == procs.Length || (used >= procs.Length - LAST_FEW && procs[p].effUid != 0) {
        return TryAgain;
      }
      ghost var s := View();
      RoomIn(s);
      var k := FindSlot();
      if !granted {
        return Refused;
      }
      var pid := Spawn(p, k, Endpoint(k, gens[k]));
      ForkKeeps(s, init, p, k, pid, Endpoint(k, gens[k]));
      ForkObeys(s, p, k, pid, Endpoint(k, gens[k]));
      return Forked(k, pid);
    }

    method Spawn(p: int, k: int, e: Endpoint) returns (pid: int)
      requires Cursors() && Runs(View(), p) && p > 0 && lastPid - firstPid > 2 * procs.Length
      requires 0 <= k < procs.Length && !procs[k].inUse && e.slot == k && e !in books.born
      modifies this`used, this`books, this`nextPid, procs
      ensures Cursors()
      ensures CanFork(old(View()), p, k, pid, e) && View() == Fork(old(View()), p, k, pid, e)
    {
      ghost var s := View();
      used := used + 1;
      CopySlot(p, k, e);
      UnusedPidExists(procs[..], firstPid, lastPid);
      pid := GetFreePid();
      UnusedCopy(procs[..], s.procs, p, k, pid);
      procs[k] := procs[k].(pid := pid);
      books := books.(born := books.born[e := procs[p].endpoint]);
      TellVfs(k, ForkAsk);
      assert procs[..] == Fork(s, p, k, pid, e).procs;
    }

    // The child's slot but for the pid.
    method CopySlot(p: int, k: int, e: Endpoint)
      requires 0 <= p < procs.Length && 0 <= k < procs.Length && p != k && procs[p].inUse
      modifies procs
      ensures procs[..] == old(procs[..])[k := Child(old(procs[p]), p, old(procs[p]).pid, e).(vfsCall := false)]
    {
      procs[k] := procs[p];
      procs[k] := procs[k].(parent := p);
      procs[k] := procs[k].(exiting := false, zombie := false, toldParent := false, waiting := false,
                            vfsCall := false, priv := false);
      procs[k] := procs[k].(childUtime := 0, childStime := 0, exitStatus := 0, sigStatus := 0);
      procs[k] := procs[k].(endpoint := e);
    }

    // -------------------------------------------------------------- wait

    method Collect(c: int)
      requires Bounded(View()) && CanTell(View(), c)
      modifies this`used, this`books, procs
      ensures View() == PmModel.Collect(old(View()), c)
    {
      TellParent(c);
      if !procs[c].vfsCall {
        Cleanup(c);
      }
    }

    method DoWaitpid(p: int, pid: int, noHang: bool) returns (r: WaitResult)
      requires Inv(View(), init) && Runs(View(), p)
      modifies this`used, this`books, procs
      ensures View() == Waitpid(old(View()), p, pid, noHang) && Inv(View(), init)
      ensures r == WaitpidResult(old(View()), p, pid, noHang)
    {
      WaitpidKeeps(View(), init, p, pid, noHang);
      ZombiesTellable(View(), init);
      r := ScanChildren(p, pid, noHang);
    }

    method ScanChildren(p: int, pid: int, noHang: bool) returns (r: WaitResult)
      requires Bounded(View()) && Tellable(View()) && Runs(View(), p)
      modifies this`used, this`books, procs
      ensures View() == Waitpid(old(View()), p, pid, noHang)
      ensures r == WaitpidResult(old(View()), p, pid, noHang)
    {
      var arg := pid;
      if arg == 0 {
        arg := -procs[p].procgrp;
      }
      var c, children := FindDead(p, arg);
      if c < procs.Length {
        Collect(c);
        return Suspend;
      }
      if children > 0 {
        if noHang {
          return NoneYet;
        }
        procs[p] := procs[p].(waiting := true, wpid := arg);
        return Suspend;
      }
      return NoChild;
    }

    // The loop over the table, left at the first dead child asked for.
    method FindDead(p: int, arg: int) returns (c: int, children: int)
      ensures c == FirstDead(View(), p, arg, 0)
      ensures c == procs.Length ==> (children > 0 <==> SomeChild(View(), p, arg))
    {
      children, c := 0, 0;
      while c < procs.Length
        invariant 0 <= c <= procs.Length && children >= 0
        invariant FirstDead(View(), p, arg, 0) == FirstDead(View(), p, arg, c)
        invariant children > 0 <==> exists i :: 0 <= i < c && Candidate(View(), p, arg, i)
      {
        if procs[c].inUse && !procs[c].toldParent && procs[c].parent == p && Selects(arg, procs[c]) {
          assert Candidate(View(), p, arg, c);
          children := children + 1;
          if procs[c].zombie {
            return;
          }
        }
        c := c + 1;
      }
    }

    // -------------------------------------------------------------- calls

    // Every message is at most one step of the machine over all runs; calls from
    // processes that do not run are dropped.
    method Handle(m: Call) returns (done: bool, ghost ev: Event)
      requires Cursors() && Inv(View(), init) && Welcome(View(), init, m) && lastPid - firstPid > 2 * procs.Length
      modifies this, procs
      ensures Cursors() && Effect(old(View()), View(), init, m, done, ev)
    {
      match m
      case ForkCall(p, granted, gens) => done, ev := TryFork(p, granted, gens);
      case ExitCall(x, status, utime, stime) => done, ev := DoExit(x, status, utime, stime);
      case KillCall(x, signo, core, utime, stime) => done, ev := SigExit(x, signo, core, utime, stime);
      case WaitCall(p, pid, noHang) => done, ev := TryWait(p, pid, noHang);
      case VfsAnswer(e, kind, dumped) => done, ev := TakeAnswer(e, kind, dumped);
      case CaughtSignal(p) => done, ev := TryInterrupt(p);
      case SetsidCall(p) => done, ev := DoSetsid(p);
    }

    method TryFork(p: int, granted: bool, gens: seq<int>) returns (done: bool, ghost ev: Event)
      requires Cursors() && Inv(View(), init) && lastPid - firstPid > 2 * procs.Length
      requires Welcome(View(), init, ForkCall(p, granted, gens))
      modifies this, procs
      ensures Cursors() && Effect(old(View()), View(), init, ForkCall(p, granted, gens), done, ev)
      ensures done ==> ev.Forks? && ForkLaw(old(View()), View(), p, ev.k, ev.pid, ev.e)
    {
      done, ev := IsRunning(p), Interrupts(p);
      if done {
        var r := DoFork(p, granted, gens);
        done := r.Forked?;
        if done {
          ev := Forks(p, r.k, r.pid, Endpoint(r.k, gens[r.k]));
        }
      }
    }

    // A call of exit; the field for the signal is left as it is.
    method DoExit(x: int, status: int, utime: int, stime: int) returns (done: bool, ghost ev: Event)
      requires Inv(View(), init) && Welcome(View(), init, ExitCall(x, status, utime, stime))
      modifies this`used, this`books, procs
      ensures Effect(old(View()), View(), init, ExitCall(x, status, utime, stime), done, ev)
      ensures done ==> 0 <= x < procs.Length && procs[x].exitStatus == AsChar(status) && procs[x].sigStatus == 0
      ensures done ==> procs[x].endpoint in books.asked && books.asked[procs[x].endpoint] == ExitAsk
      ensures done ==> books.utime == old(books).utime + utime && books.stime == old(books).stime + stime
    {
      done, ev := IsRunning(x) && !procs[x].priv, Exits(x, Called(status, utime, stime));
      if done {
        assert FlagsOk(View().procs[x]);
        ExitStep(View(), init, x, Called(status, utime, stime));
        Exit(x, Death(status, procs[x].sigStatus, false, utime, stime));
      }
    }

    // A signal that kills; core is whether it is one of those that ask for a core.
    method SigExit(x: int, signo: int, core: bool, utime: int, stime: int) returns (done: bool, ghost ev: Event)
      requires Inv(View(), init) && Welcome(View(), init, KillCall(x, signo, core, utime, stime))
      modifies this`used, this`books, procs
      ensures Effect(old(View()), View(), init, KillCall(x, signo, core, utime, stime), done, ev)
      ensures done ==> 0 <= x < procs.Length && procs[x].exitStatus == 0 && procs[x].sigStatus == AsChar(signo)
      ensures done ==> procs[x].endpoint in books.asked
                       && (books.asked[procs[x].endpoint] == CoreAsk <==>
                           core && old(procs[x]).realUid == old(procs[x]).effUid && !old(procs[x]).priv)
      ensures done ==> books.utime == old(books).utime + utime && books.stime == old(books).stime + stime
    {
      done, ev := IsRunning(x), Exits(x, Killed(signo, core, utime, stime));
      if done {
        ExitStep(View(), init, x, Killed(signo, core, utime, stime));
        Exit(x, Killed(signo, core, utime, stime));
      }
    }

    method DoSetsid(p: int) returns (done: bool, ghost ev: Event)
      requires Inv(View(), init) && Welcome(View(), init, SetsidCall(p))
      modifies this`books, procs
      ensures Effect(old(View()), View(), init, SetsidCall(p), done, ev)
      ensures done ==> 0 <= p < procs.Length && procs[p].procgrp == old(procs[p]).pid
    {
      done, ev := IsRunning(p), Regroups(p);
      SetsidEffect(View(), init, p);
      if done && procs[p].procgrp != procs[p].pid {
        ghost var s := View();
        procs[p] := procs[p].(procgrp := procs[p].pid);
        TellVfs(p, SetsidAsk);
        assert View() == Setsid(s, p);
      }
    }

    method TryWait(p: int, pid: int, noHang: bool) returns (done: bool, ghost ev: Event)
      requires Inv(View(), init)
      modifies this`used, this`books, procs
      ensures Effect(old(View()), View(), init, WaitCall(p, pid, noHang), done, ev)
      ensures done ==> Runs(old(View()), p) && View() == Waitpid(old(View()), p, pid, noHang)
    {
      done, ev := IsRunning(p), Waits(p, pid, noHang);
      WaitEffect(View(), init, p, pid, noHang);
      if done {
        var _ := DoWaitpid(p, pid, noHang);
      }
    }

    method TakeAnswer(e: Endpoint, kind: Ask, dumped: bool) returns (done: bool, ghost ev: Event)
      requires Inv(View(), init) && Welcome(View(), init, VfsAnswer(e, kind, dumped))
      modifies this`used, this`books, procs
      ensures Effect(old(View()), View(), init, VfsAnswer(e, kind, dumped), done, ev)
      ensures done && InTable(old(View()), e) && View() == VfsReply(old(View()), e, dumped)
    {
      done, ev := true, Answers(e, dumped);
      AnswerEffect(View(), init, e, kind, dumped);
      HandleVfsReply(e, kind, dumped);
    }

    method TryInterrupt(p: int) returns (done: bool, ghost ev: Event)
      requires Inv(View(), init)
      modifies procs
      ensures Effect(old(View()), View(), init, CaughtSignal(p), done, ev)
      ensures done ==> 0 <= p < procs.Length && procs[..] == old(procs[..])[p := old(procs[p]).(waiting := false)]
    {
      done, ev := IsRunning(p), Interrupts(p);
      if done {
        procs[p] := procs[p].(waiting := false);
      }
    }

    // The receive loop, on a finite input: the table goes through a run of the
    // machine that the messages explain, so all that holds of runs holds of it.
    method Serve(input: seq<Call>) returns (ghost evs: seq<Event>)
      requires Cursors() && Sound(View(), init) && lastPid - firstPid > 2 * procs.Length
      requires Serviceable(View(), init, input)
      modifies this, procs
      ensures Cursors() && Sound(View(), init)
      ensures LegalRun(old(View()), init, evs) && View() == Run(old(View()), init, evs)
      ensures Explains(old(View()), init, input, evs)
    {
      ghost var s := View();
      evs := [];
      var i := 0;
      while i < |input|
        invariant Cursors() && Served(s, View(), init, input, i, evs)
      {
        ServedNext(s, View(), init, input, i, evs);
        ghost var before := View();
        var done;
        ghost var ev;
        done, ev := Handle(input[i]);
        if done {
          ServedStep(s, before, init, input, i, evs, ev);
          evs := evs + [ev];
        } else {
          ServedSkip(s, before, init, input, i, evs);
        }
        i := i + 1;
      }
      assert input[..i] == input;
      RunSound(s, init, evs);
    }

    predicate IsRunning(p: int)
      reads procs
    {
      0 <= p < procs.Length && procs[p].inUse && !procs[p].exiting
    }
  }

  // ------------------------------------------------------------------ helpers

  // Nobody is a zombie whose parent has been told.
  ghost predicate Untold(s: State) {
    forall c :: 0 <= c < |s.procs| ==> !(s.procs[c].zombie && s.procs[c].toldParent)
  }

  lemma AdoptUntold(s: State, x: int, init: int, c: int)
    requires Bounded(s) && Untold(s) && 0 <= c < |s.procs| && 0 < init < |s.procs|
    ensures Untold(Adopt(s, x, init, c))
  {
  }

  lemma BegunUntold(s: State, init: int, x: int, how: Death)
    requires Inv(s, init) && CanExit(s, x, init)
    ensures Bounded(Begun(s, x, how)) && Untold(Begun(s, x, how))
  {
    BegunKeeps(s, init, x, how);
    var u := Begun(s, x, how);
    forall c | 0 <= c < |u.procs| ensures FlagsOk(u.procs[c]) {
    }
  }

  // No zombie would stop the system when its parent is told.
  ghost predicate Tellable(s: State) {
    forall c :: 0 <= c < |s.procs| && s.procs[c].zombie ==> CanTell(s, c)
  }

  lemma ZombiesTellable(s: State, init: int)
    requires Inv(s, init)
    ensures Tellable(s)
  {
    forall c | 0 <= c < |s.procs| && s.procs[c].zombie ensures CanTell(s, c) {
      CollectKeeps(s, init, c);
    }
  }

  // A process whose core was being written has a parent to tell.
  lemma ReplyReady(s: State, init: int, e: Endpoint)
    requires Inv(s, init) && e in s.books.asked
    ensures 0 <= e.slot < |s.procs| && s.procs[e.slot].parent > 0
    ensures s.books.asked[e] == CoreAsk ==> !s.procs[e.slot].zombie && !s.procs[e.slot].toldParent
  {
    AskedSlot(s, e);
    assert HasParent(s, -1, 0, e.slot);
  }

  lemma RoomIn(s: State)
    requires Balanced(s) && s.used != |s.procs|
    ensures exists c :: 0 <= c < |s.procs| && !s.procs[c].inUse
  {
    UsedAll(s.procs);
  }

  ghost function FreeSlotIn(t: seq<Slot>): (c: int)
    requires exists c :: 0 <= c < |t| && !t[c].inUse
    ensures 0 <= c < |t| && !t[c].inUse
  {
    var c :| 0 <= c < |t| && !t[c].inUse; c
  }

  lemma AheadNext(a: int, m: int, q: int, n: int)
    requires 0 <= a < n && 0 <= m < n && 0 <= q < n
    ensures 1 <= Ahead(a, q, n) <= n && (Ahead(a, q, n) == Ahead(a, m, n) <==> q == m)
    ensures Ahead(a, m, n) < n ==> Ahead(a, (m + 1) % n, n) == Ahead(a, m, n) + 1
    ensures Ahead(a, (a + 1) % n, n) == 1
  {
    Wrap(m, n);
    Wrap(a, n);
  }

  lemma Wrap(m: int, n: int)
    requires 0 <= m < n
    ensures (m + 1) % n == if m + 1 == n then 0 else m + 1
  {
  }

  lemma UnusedCopy(t: seq<Slot>, was: seq<Slot>, p: int, k: int, pid: int)
    requires |t| == |was| && 0 <= p < |t| && 0 <= k < |t| && Unused(t, pid)
    requires forall c :: 0 <= c < |t| && c != k ==> t[c] == was[c]
    requires t[k].pid == was[p].pid && t[k].procgrp == was[p].procgrp
    ensures Unused(was[k := was[p]], pid)
  {
  }
}
