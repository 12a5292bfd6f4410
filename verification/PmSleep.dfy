// Who sleeps in wait, and with what argument: only a call of wait puts a process
// to sleep, and nothing but waking up touches a sleeper's argument and group.
module PmSleep {
  import opened PmModel
  import opened PmInvariant
  import opened PmExit
  import opened PmLife

  // Whoever sleeps in u slept in s, for the same children.
  predicate Sleeps(x: Slot, y: Slot) {
    y.procgrp == x.procgrp && y.endpoint == x.endpoint && (y.waiting ==> x.waiting && y.wpid == x.wpid)
  }

  ghost predicate CalmStep(s: State, u: State) {
    |u.procs| == |s.procs| && forall c :: 0 <= c < |s.procs| ==> Sleeps(s.procs[c], u.procs[c])
  }

  lemma CalmTwice(s: State, t: State, u: State)
    requires CalmStep(s, t) && CalmStep(t, u)
    ensures CalmStep(s, u)
  {
    forall c | 0 <= c < |s.procs| ensures Sleeps(s.procs[c], u.procs[c]) {
      assert Sleeps(s.procs[c], t.procs[c]) && Sleeps(t.procs[c], u.procs[c]);
    }
  }

  lemma CheckParentCalm(s: State, c: int, tryCleanup: bool)
    requires Bounded(s) && 0 <= c < |s.procs|
    ensures CalmStep(s, CheckParent(s, c, tryCleanup))
  {
  }

  lemma {:induction false} AdoptFromCalm(s: State, x: int, init: int, c: int)
    requires Bounded(s) && 0 <= c <= |s.procs| && 0 < init < |s.procs|
    ensures CalmStep(s, AdoptFrom(s, x, init, c))
    decreases |s.procs| - c
  {
    if c < |s.procs| {
      CheckParentCalm(Reparent(s, c, init), c, true);
      AdoptFromCalm(Adopt(s, x, init, c), x, init, c + 1);
      CalmTwice(s, Adopt(s, x, init, c), AdoptFrom(s, x, init, c));
    }
  }

  lemma ExitCalm(s: State, x: int, init: int, how: Death)
    requires Bounded(s) && CanExit(s, x, init)
    ensures CalmStep(s, ExitProc(s, x, init, how))
  {
    var core := Final(s.procs[x], how);
    var b, z := BeginExit(s, x, core), Begun(s, x, core);
    CheckParentCalm(MarkZombie(b, x), x, false);
    CalmTwice(s, b, z);
    AdoptFromCalm(z, x, init, 0);
    CalmTwice(s, z, AdoptFrom(z, x, init, 0));
  }

  lemma VfsReplyCalm(s: State, e: Endpoint, dumped: bool)
    requires Bounded(s) && e in s.books.asked && 0 <= e.slot < |s.procs|
    ensures CalmStep(s, VfsReply(s, e, dumped))
  {
    var idle := Answered(s, e, dumped);
    CheckParentCalm(MarkZombie(idle, e.slot), e.slot, false);
    CalmTwice(s, idle, Zombify(idle, e.slot));
  }

  lemma CollectCalm(s: State, c: int)
    requires Bounded(s) && 0 <= c < |s.procs|
    ensures CalmStep(s, Collect(s, c))
  {
  }

  // ----------------------------------------------------- the argument 0

  // The argument 0 is kept only for members of group 0, and init is in another.
  ghost predicate ZeroKept(s: State, init: int) {
    && 0 <= init < |s.procs| && s.procs[init].procgrp > 0
    && forall c :: 0 <= c < |s.procs| && s.procs[c].waiting && s.procs[c].wpid == 0 ==> s.procs[c].procgrp == 0
  }

  lemma CalmZero(s: State, u: State, init: int)
    requires CalmStep(s, u) && ZeroKept(s, init)
    ensures ZeroKept(u, init)
  {
    forall c | 0 <= c < |u.procs| ensures Sleeps(s.procs[c], u.procs[c]) {
    }
  }

  lemma WaitpidZero(s: State, init: int, p: int, pid: int, noHang: bool)
    requires Bounded(s) && Runs(s, p) && ZeroKept(s, init)
    ensures ZeroKept(Waitpid(s, p, pid, noHang), init)
  {
    var k := FirstDead(s, p, WaitArg(s.procs[p], pid), 0);
    if k < |s.procs| {
      CollectCalm(s, k);
      CalmZero(s, Collect(s, k), init);
    }
  }

  lemma SetsidZero(s: State, init: int, p: int)
    requires ZeroKept(s, init) && Identified(s) && CanSetsid(s, p)
    ensures ZeroKept(Setsid(s, p), init)
  {
  }

  lemma ForkZero(s: State, init: int, p: int, k: int, pid: int, e: Endpoint)
    requires ZeroKept(s, init) && CanFork(s, p, k, pid, e) && s.procs[init].inUse
    ensures ZeroKept(Fork(s, p, k, pid, e), init)
  {
  }
}
