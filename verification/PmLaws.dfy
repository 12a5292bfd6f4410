// What the events of the process manager do, said slot by slot and field by field,
// and what follows for the rest of the run.
module PmLaws {
  import opened PmModel
  import opened PmInvariant
  import opened PmSteps
  import opened PmExit
  import opened PmLife
  import opened PmReports
  import opened PmSleep
  import opened PmRuns
  import opened PmTheorems

  // ------------------------------------------------------------------- fork

  // The child in slot k: a child of p with the group and the rights of p, but no
  // system process, with nothing on its account.
  predicate ChildOfCaller(caller: Slot, child: Slot, p: int, pid: int, e: Endpoint) {
    && child.parent == p && child.pid == pid && child.endpoint == e
    && child.procgrp == caller.procgrp && child.realUid == caller.realUid && child.effUid == caller.effUid
    && child.inUse && !child.exiting && !child.zombie && !child.toldParent && !child.waiting && child.vfsCall
    && !child.priv && child.childUtime == 0 && child.childStime == 0 && child.exitStatus == 0 && child.sigStatus == 0
  }

  ghost predicate ForkLaw(s: State, u: State, p: int, k: int, pid: int, e: Endpoint) {
    && 0 <= p < |s.procs| == |u.procs| && 0 <= k < |s.procs| && k != p && !s.procs[k].inUse
    && ChildOfCaller(s.procs[p], u.procs[k], p, pid, e)
    && (forall c :: 0 <= c < |s.procs| && c != k ==> u.procs[c] == s.procs[c])
    && u.used == s.used + 1 && u.books.reports == s.books.reports && u.books.freed == s.books.freed
    && e in u.books.asked && u.books.asked[e] == ForkAsk
    && e in u.books.born && u.books.born[e] == s.procs[p].endpoint
  }

  function FreeSlots(t: seq<Slot>): nat {
    if t == [] then 0 else FreeSlots(t[..|t| - 1]) + (if t[|t| - 1].inUse then 0 else 1)
  }

  lemma {:induction false} FreeOrUsed(t: seq<Slot>)
    ensures FreeSlots(t) + Total(Used, t) == |t|
  {
    if t != [] {
      FreeOrUsed(t[..|t| - 1]);
    }
  }

  // A fork is refused with no slot left, and with two or fewer left to all but the
  // superuser.
  lemma RefusedWhen(s: State, p: int)
    requires Balanced(s) && 0 <= p < |s.procs|
    ensures TableFull(s, p) <==> FreeSlots(s.procs) == 0 || (FreeSlots(s.procs) <= 2 && s.procs[p].effUid != 0)
  {
    FreeOrUsed(s.procs);
  }

  lemma ForkObeys(s: State, p: int, k: int, pid: int, e: Endpoint)
    requires CanFork(s, p, k, pid, e)
    ensures ForkLaw(s, Fork(s, p, k, pid, e), p, k, pid, e)
  {
  }

  lemma ForkMakes(s: State, init: int, p: int, k: int, pid: int, e: Endpoint)
    requires Inv(s, init) && Legal(s, init, Forks(p, k, pid, e)) && Runs(s, p) && !TableFull(s, p)
    ensures ForkLaw(s, Step(s, init, Forks(p, k, pid, e)), p, k, pid, e)
  {
    ForkObeys(s, p, k, pid, e);
  }

  // Who made a process is never forgotten, and init keeps its endpoint.
  lemma {:induction false} MakerStays(s: State, init: int, evs: seq<Event>, e: Endpoint)
    requires Inv(s, init) && LegalRun(s, init, evs) && e in s.books.born
    ensures var u := Run(s, init, evs); e in u.books.born && u.books.born[e] == s.books.born[e]
    decreases evs
  {
    if evs != [] {
      StepKeeps(s, init, evs[0]);
      StepRecord(s, init, evs[0]);
      MakerStays(Step(s, init, evs[0]), init, evs[1..], e);
    }
  }

  lemma StepInit(s: State, init: int, ev: Event)
    requires Inv(s, init) && Legal(s, init, ev)
    ensures |Step(s, init, ev).procs| == |s.procs| && 0 <= init < |s.procs|
    ensures Step(s, init, ev).procs[init].endpoint == s.procs[init].endpoint
  {
    if ev.Waits? && Runs(s, ev.p) {
      var k := FirstDead(s, ev.p, WaitArg(s.procs[ev.p], ev.pid), 0);
      if k < |s.procs| {
        CollectCalm(s, k);
        assert Sleeps(s.procs[init], Collect(s, k).procs[init]);
      }
    } else if !ev.Waits? && !ev.Forks? && !ev.Regroups? {
      StepCalm(s, init, ev);
      assert Sleeps(s.procs[init], Step(s, init, ev).procs[init]);
    }
  }

  lemma {:induction false} InitStays(s: State, init: int, evs: seq<Event>)
    requires Inv(s, init) && LegalRun(s, init, evs)
    ensures |Run(s, init, evs).procs| == |s.procs| && 0 <= init < |s.procs|
    ensures Run(s, init, evs).procs[init].endpoint == s.procs[init].endpoint
    decreases evs
  {
    if evs != [] {
      StepKeeps(s, init, evs[0]);
      StepInit(s, init, evs[0]);
      InitStays(Step(s, init, evs[0]), init, evs[1..]);
    }
  }

  // From a fork to the end of any run: the process made is a child of the process
  // that called fork, or of init, and whoever hears of its death is one of them.
  lemma ChildStays(s: State, init: int, p: int, k: int, pid: int, e: Endpoint, evs: seq<Event>, i: nat)
    requires Sound(s, init) && Legal(s, init, Forks(p, k, pid, e)) && Runs(s, p) && !TableFull(s, p)
    requires var t := Step(s, init, Forks(p, k, pid, e)); Inv(t, init) && LegalRun(t, init, evs)
    ensures var u := Run(Step(s, init, Forks(p, k, pid, e)), init, evs);
            && 0 <= init < |s.procs| == |u.procs|
            && (InTable(u, e) ==>
                  && 0 <= u.procs[k].parent < |u.procs| && e.slot == k
                  && u.procs[u.procs[k].parent].endpoint in {s.procs[p].endpoint, s.procs[init].endpoint})
            && (i < |u.books.reports| && u.books.reports[i].child == e ==>
                  u.books.reports[i].parent in {s.procs[p].endpoint, s.procs[init].endpoint})
  {
    var ev := Forks(p, k, pid, e);
    var t := Step(s, init, ev);
    StepHonest(s, init, ev);
    StepZero(s, init, ev);
    StepInit(s, init, ev);
    ForkMakes(s, init, p, k, pid, e);
    MakerStays(t, init, evs, e);
    InitStays(t, init, evs);
    RunSound(t, init, evs);
    var u := Run(t, init, evs);
    MadeBy(u, init, e, i);
  }

  lemma MadeBy(u: State, init: int, e: Endpoint, i: nat)
    requires Honest(u, init) && e in u.books.born
    ensures InTable(u, e) ==>
              && 0 <= u.procs[e.slot].parent < |u.procs|
              && u.procs[u.procs[e.slot].parent].endpoint in {u.books.born[e], u.procs[init].endpoint}
    ensures i < |u.books.reports| && u.books.reports[i].child == e ==>
              u.books.reports[i].parent in {u.books.born[e], u.procs[init].endpoint}
  {
    if InTable(u, e) {
      assert Vouched(u, init, e.slot);
    }
  }

  // ------------------------------------------------------------------- exit

  // What an exit leaves of another slot: it is freed, or keeps all but its parent
  // and whether it is dead and its parent told, or sleeps.
  predicate Spared(x: Slot, y: Slot, parent: int, utime: int, stime: int) {
    y.inUse ==>
      && x.inUse && y.exiting == x.exiting && y.vfsCall == x.vfsCall && y.priv == x.priv && y.pid == x.pid
      && y.procgrp == x.procgrp && y.endpoint == x.endpoint && y.realUid == x.realUid && y.effUid == x.effUid
      && y.exitStatus == x.exitStatus && y.sigStatus == x.sigStatus && (x.toldParent ==> y.toldParent)
      && y.parent == parent && y.childUtime == x.childUtime + utime && y.childStime == x.childStime + stime
  }

  function Heir(s: State, c: int, x: int, init: int): int
    requires 0 <= c < |s.procs|
  {
    if s.procs[c].inUse && s.procs[c].parent == x then init else s.procs[c].parent
  }

  lemma TellSpares(s: State, c: int, k: int)
    requires Bounded(s) && 0 <= c < |s.procs| && 0 <= k < |s.procs|
    ensures Spared(s.procs[k], TellParent(s, c).procs[k], s.procs[k].parent, 0, 0)
  {
  }

  lemma CheckSpares(s: State, c: int, k: int)
    requires Bounded(s) && 0 <= c < |s.procs| && 0 <= k < |s.procs|
    ensures Spared(s.procs[k], CheckParent(s, c, true).procs[k], s.procs[k].parent, 0, 0)
  {
    TellSpares(s, c, k);
  }

  lemma AdoptSpares(s: State, x: int, init: int, c: int, k: int)
    requires Bounded(s) && 0 <= c < |s.procs| && 0 < init < |s.procs| && 0 <= k < |s.procs|
    ensures Spared(s.procs[k], Adopt(s, x, init, c).procs[k],
                   if k == c then Heir(s, c, x, init) else s.procs[k].parent, 0, 0)
  {
    CheckSpares(Reparent(s, c, init), c, k);
  }

  lemma {:induction false} AdoptFromSpares(s: State, x: int, init: int, c: int, k: int)
    requires Bounded(s) && 0 <= c <= |s.procs| && 0 < init < |s.procs| && 0 <= k < |s.procs| && x != init
    ensures Spared(s.procs[k], AdoptFrom(s, x, init, c).procs[k],
                   if k >= c then Heir(s, k, x, init) else s.procs[k].parent, 0, 0)
    decreases |s.procs| - c
  {
    if c < |s.procs| {
      AdoptSpares(s, x, init, c, k);
      AdoptFromSpares(Adopt(s, x, init, c), x, init, c + 1, k);
    }
  }

  // The exit of x, seen at slot k: the parent of x is charged with what x used and
  // with what had been charged to x, the children of x go to init, and nothing else
  // changes but deaths made known.
  lemma BegunSpares(s: State, x: int, how: Death, k: int)
    requires Bounded(s) && 0 <= x < |s.procs| && 0 <= k < |s.procs| && k != x && s.procs[x].parent != x
    ensures var mine := k == s.procs[x].parent;
            Spared(s.procs[k], Begun(s, x, how).procs[k], s.procs[k].parent,
                   if mine then how.utime + s.procs[x].childUtime else 0,
                   if mine then how.stime + s.procs[x].childStime else 0)
            && Begun(s, x, how).procs[k].inUse == s.procs[k].inUse
            && Begun(s, x, how).procs[k].parent == s.procs[k].parent
  {
  }

  lemma ExitSpares(s: State, init: int, x: int, how: Death, k: int)
    requires Inv(s, init) && CanExit(s, x, init) && 0 <= k < |s.procs| && k != x
    ensures var mine := k == s.procs[x].parent;
            |ExitProc(s, x, init, how).procs| == |s.procs|
            && Spared(s.procs[k], ExitProc(s, x, init, how).procs[k], Heir(s, k, x, init),
                      if mine then how.utime + s.procs[x].childUtime else 0,
                      if mine then how.stime + s.procs[x].childStime else 0)
  {
    LiveParent(s, init, x);
    BegunSpares(s, x, Final(s.procs[x], how), k);
    AdoptFromSpares(Begun(s, x, Final(s.procs[x], how)), x, init, 0, k);
  }

  // What an exit leaves of x. The file system is asked for a core exactly if the
  // signal says so and the process has its own user's rights and is no system
  // process; then its parent is not told yet. Otherwise it is a zombie or reported
  // at once.
  ghost predicate ExitLaw(s: State, u: State, x: int, how: Death) {
    && 0 <= x < |s.procs| == |u.procs|
    && var y, z := s.procs[x], u.procs[x];
       var core := how.dump && y.realUid == y.effUid && !y.priv;
       && InTable(u, y.endpoint) && y.endpoint.slot == x && z.exiting && z.vfsCall
       && z.exitStatus == AsChar(how.status) && z.sigStatus == how.sig && z.pid == y.pid
       && y.endpoint in u.books.asked && u.books.asked[y.endpoint] == (if core then CoreAsk else ExitAsk)
       && (z.zombie || z.toldParent <==> !core)
  }

  lemma ExitAsks(s: State, init: int, x: int, how: Death)
    requires Inv(s, init) && CanExit(s, x, init)
    ensures ExitLaw(s, ExitProc(s, x, init, how), x, how)
  {
    var u, e, core := ExitProc(s, x, init, how), s.procs[x].endpoint, Final(s.procs[x], how);
    ExitKeeps(s, init, x, how);
    ExitRecord(s, x, init, how);
    AskedSlot(u, e);
    BegunMarks(s, x, core);
    AdoptFromSpares(Begun(s, x, core), x, init, 0, x);
  }

  lemma BegunMarks(s: State, x: int, how: Death)
    requires Bounded(s) && 0 <= x < |s.procs|
    ensures var z := Begun(s, x, how).procs[x];
            z.exitStatus == AsChar(how.status) && z.sigStatus == how.sig && z.pid == s.procs[x].pid
  {
  }

  // e has exited, and no core of it is or will be asked for.
  predicate Coreless(b: Books, e: Endpoint) {
    e in b.exits && e !in b.cored && (e in b.asked ==> b.asked[e] == ExitAsk)
  }

  lemma StepCoreless(s: State, init: int, ev: Event, e: Endpoint)
    requires Inv(s, init) && Legal(s, init, ev) && Coreless(s.books, e)
    ensures Coreless(Step(s, init, ev).books, e)
  {
    StepRecord(s, init, ev);
    ExitedApart(s, init, ev, e);
  }

  // No core of a process that asked for none is ever on record.
  lemma {:induction false} NoCore(s: State, init: int, evs: seq<Event>, e: Endpoint)
    requires Inv(s, init) && LegalRun(s, init, evs) && Coreless(s.books, e)
    ensures e !in Run(s, init, evs).books.cored
    decreases evs
  {
    if evs != [] {
      StepKeeps(s, init, evs[0]);
      StepCoreless(s, init, evs[0], e);
      NoCore(Step(s, init, evs[0]), init, evs[1..], e);
    }
  }

  // Nothing is asked on behalf of a process that has exited.
  lemma ExitedApart(s: State, init: int, ev: Event, e: Endpoint)
    requires Inv(s, init) && Legal(s, init, ev) && e in s.books.exits
    ensures e in s.books.born
    ensures match ev
            case Exits(x, _) => Runs(s, x) ==> s.procs[x].endpoint != e
            case Forks(p, _, _, f) => Runs(s, p) && !TableFull(s, p) ==> f != e
            case Regroups(p) => Runs(s, p) ==> s.procs[p].endpoint != e
            case _ => true
  {
    match ev
    case Exits(x, _) => if Runs(s, x) { assert Tracked(s.books, s.procs[x]); }
    case Regroups(p) => if Runs(s, p) { assert Tracked(s.books, s.procs[p]); }
    case _ =>
  }

  // From the exit of a set-uid or system process, or one that is asked for no core,
  // to the end of any run: no core of it is written, and its parent is told the
  // signal without the dump bit.
  lemma NoCoreReported(s: State, init: int, x: int, how: Death, evs: seq<Event>, i: nat)
    requires Sound(s, init) && CanExit(s, x, init)
    requires !how.dump || s.procs[x].realUid != s.procs[x].effUid || s.procs[x].priv
    requires var t := Step(s, init, Exits(x, how)); Inv(t, init) && LegalRun(t, init, evs)
    ensures var b := Run(Step(s, init, Exits(x, how)), init, evs).books;
            && s.procs[x].endpoint !in b.cored
            && (i < |b.reports| && b.reports[i].child == s.procs[x].endpoint ==>
                  b.reports[i].status % 256 == how.sig % 256)
  {
    var ev, e := Exits(x, how), s.procs[x].endpoint;
    var t := Step(s, init, ev);
    StepRecord(s, init, ev);
    ExitAsks(s, init, x, how);
    assert Vouched(s, init, x);
    NoCore(t, init, evs, e);
    CoredWhen(t, init, evs, e);
    var b := Run(t, init, evs).books;
    if i < |b.reports| && b.reports[i].child == e {
      ValueReported(s, init, ev, evs, i);
    }
  }

  // ---------------------------------------------------------- the other events

  // A slot given back bears no pid, no flags and no times.
  predicate Blank(x: Slot) {
    && !x.inUse && !x.exiting && !x.zombie && !x.toldParent && !x.waiting && !x.vfsCall && !x.priv
    && x.pid == 0 && x.childUtime == 0 && x.childStime == 0
  }

  // A process that goes on is idle after the answer; one that has exited is freed
  // if its parent has been told, and else goes on as a zombie.
  lemma AnswerLaw(s: State, init: int, e: Endpoint, dumped: bool)
    requires Inv(s, init) && e in s.books.asked && s.books.asked[e] != CoreAsk
    ensures InTable(s, e)
    ensures var u, x := Step(s, init, Answers(e, dumped)), s.procs[e.slot];
            && |u.procs| == |s.procs| && u.books.reports == s.books.reports
            && (forall c :: 0 <= c < |s.procs| && c != e.slot ==> u.procs[c] == s.procs[c])
            && (if s.books.asked[e] == ExitAsk && x.toldParent then
                  Blank(u.procs[e.slot]) && u.used == s.used - 1 && u.books.freed == s.books.freed + [e]
                else u.procs[e.slot] == x.(vfsCall := false) && u.used == s.used && u.books.freed == s.books.freed)
  {
    AskedSlot(s, e);
  }

  // A caught signal ends a wait, and does nothing else.
  lemma InterruptLaw(s: State, init: int, p: int)
    requires Inv(s, init) && Runs(s, p)
    ensures var u := Step(s, init, Interrupts(p));
            && |u.procs| == |s.procs| && !u.procs[p].waiting && u.procs[p] == s.procs[p].(waiting := false)
            && (forall c :: 0 <= c < |s.procs| && c != p ==> u.procs[c] == s.procs[c])
            && u.used == s.used && u.books == s.books
  {
  }

  // A change of group makes the caller the leader of the group of its own pid.
  lemma SetsidLaw(s: State, init: int, p: int)
    requires Inv(s, init) && CanSetsid(s, p)
    ensures var u := Step(s, init, Regroups(p));
            && |u.procs| == |s.procs| && u.procs[p].procgrp == s.procs[p].pid
            && u.procs[p] == s.procs[p].(procgrp := s.procs[p].pid, vfsCall := u.procs[p].vfsCall)
            && (u.procs[p].vfsCall <==> s.procs[p].procgrp != s.procs[p].pid)
            && (forall c :: 0 <= c < |s.procs| && c != p ==> u.procs[c] == s.procs[c]) && u.used == s.used
  {
  }
}
