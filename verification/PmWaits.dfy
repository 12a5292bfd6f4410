// Wait as IEEE Std 1003.1 has it, against what the program does: whom waitpid
// collects, whom it wakes, and who sleeps on.
module PmWaits {
  import opened PmModel
  import opened PmInvariant
  import opened PmSteps
  import opened PmExit
  import opened PmLife
  import opened PmReports
  import opened PmSleep
  import opened PmRuns

  // ------------------------------------------------------- whom a call is for

  // The children that waitpid(pid) asks for: System Interfaces, waitpid().
  predicate Asked(caller: Slot, pid: int, child: Slot) {
    if pid == -1 then true
    else if pid > 0 then child.pid == pid
    else if pid == 0 then child.procgrp == caller.procgrp
    else child.procgrp == -pid
  }

  // The children that the program counts instead: waitpid(0) from group 0 or 1
  // takes any child.
  predicate Takes(caller: Slot, pid: int, child: Slot) {
    Asked(caller, pid, child) || (pid == 0 && caller.procgrp <= 1)
  }

  lemma SelectionIs(caller: Slot, pid: int, child: Slot)
    requires caller.procgrp >= 0
    ensures Selects(WaitArg(caller, pid), child) <==> Takes(caller, pid, child)
  {
  }

  // The test made at a death passes for the children asked for, and besides them,
  // for waitpid(0) from group 1, for all others.
  lemma TestIs(caller: Slot, pid: int, child: Slot)
    requires caller.procgrp >= 0 && child.pid > 0 && child.procgrp >= 0
    requires caller.waiting && caller.wpid == WaitArg(caller, pid)
    ensures WaitTest(caller, child) <==> Asked(caller, pid, child) || (pid == 0 && caller.procgrp == 1)
  {
  }

  // The loop keeps to the standard, whatever the children, exactly for these
  // calls.
  lemma SelectionStandard(caller: Slot, pid: int)
    requires caller.procgrp >= 0
    ensures (forall child: Slot :: child.pid > 0 && child.procgrp >= 0 ==>
               (Selects(WaitArg(caller, pid), child) <==> Asked(caller, pid, child)))
            <==> pid != 0 || caller.procgrp > 1
  {
    var stranger := caller.(pid := 1, procgrp := caller.procgrp + 1);
    SelectionIs(caller, pid, stranger);
    forall child: Slot ensures pid != 0 || caller.procgrp > 1 ==>
        (Selects(WaitArg(caller, pid), child) <==> Asked(caller, pid, child)) {
      SelectionIs(caller, pid, child);
    }
  }

  // -------------------------------------------------------- what waitpid does

  ghost predicate ChildOf(s: State, p: int, c: int) {
    0 <= c < |s.procs| && s.procs[c].inUse && !s.procs[c].toldParent && s.procs[c].parent == p
  }

  ghost predicate TakenChild(s: State, p: int, pid: int, c: int) {
    0 <= p < |s.procs| && ChildOf(s, p, c) && Takes(s.procs[p], pid, s.procs[c])
  }

  ghost predicate TakenDead(s: State, p: int, pid: int, c: int) {
    TakenChild(s, p, pid, c) && s.procs[c].zombie
  }

  lemma CandidateTaken(s: State, p: int, pid: int)
    requires Identified(s) && Runs(s, p)
    ensures forall c :: Candidate(s, p, WaitArg(s.procs[p], pid), c) <==> TakenChild(s, p, pid, c)
  {
    forall c ensures Candidate(s, p, WaitArg(s.procs[p], pid), c) <==> TakenChild(s, p, pid, c) {
      if 0 <= c < |s.procs| {
        SelectionIs(s.procs[p], pid, s.procs[c]);
      }
    }
  }

  // Of the dead children that the call takes the one in the lowest slot is
  // reported to the caller, and its slot is freed unless the file system still
  // works for it.
  lemma WaitpidReports(s: State, init: int, p: int, pid: int, noHang: bool, c: int)
    requires Inv(s, init) && Runs(s, p)
    requires TakenDead(s, p, pid, c) && forall k :: 0 <= k < c ==> !TakenDead(s, p, pid, k)
    ensures var u := Waitpid(s, p, pid, noHang);
            && u.books.reports == s.books.reports
                 + [Report(s.procs[p].endpoint, s.procs[c].endpoint, s.procs[c].pid, StatusWord(s.procs[c]))]
            && !u.procs[p].waiting && u.procs[c].inUse == s.procs[c].vfsCall
            && WaitpidResult(s, p, pid, noHang) == Suspend
  {
    FirstTaken(s, p, pid, c);
    CollectIs(s, c);
  }

  lemma CollectIs(s: State, c: int)
    requires Bounded(s) && Flagged(s) && 0 <= c < |s.procs| && s.procs[c].zombie
    ensures var u, p := Collect(s, c), s.procs[c].parent;
            && u.books.reports == s.books.reports
                 + [Report(s.procs[p].endpoint, s.procs[c].endpoint, s.procs[c].pid, StatusWord(s.procs[c]))]
            && !u.procs[p].waiting && u.procs[c].inUse == s.procs[c].vfsCall
  {
    assert FlagsOk(s.procs[c]);
  }

  lemma FirstTaken(s: State, p: int, pid: int, c: int)
    requires Identified(s) && Runs(s, p)
    requires TakenDead(s, p, pid, c) && forall k :: 0 <= k < c ==> !TakenDead(s, p, pid, k)
    ensures FirstDead(s, p, WaitArg(s.procs[p], pid), 0) == c
  {
    CandidateTaken(s, p, pid);
    forall k | 0 <= k < c ensures !(Candidate(s, p, WaitArg(s.procs[p], pid), k) && s.procs[k].zombie) {
      assert !TakenDead(s, p, pid, k);
    }
    FirstDeadIs(s, p, WaitArg(s.procs[p], pid), c);
  }

  lemma FirstDeadIs(s: State, p: int, arg: int, c: int)
    requires Candidate(s, p, arg, c) && s.procs[c].zombie
    requires forall k :: 0 <= k < c ==> !(Candidate(s, p, arg, k) && s.procs[k].zombie)
    ensures FirstDead(s, p, arg, 0) == c
  {
  }

  // With no dead child that it takes, the caller goes to sleep if there is a living
  // one and it is willing to, and is told "none yet" or "no child" otherwise;
  // apart from that the table stays as it is.
  lemma WaitpidBlocks(s: State, p: int, pid: int, noHang: bool)
    requires Bounded(s) && Identified(s) && Runs(s, p) && forall k :: !TakenDead(s, p, pid, k)
    ensures var u, r := Waitpid(s, p, pid, noHang), WaitpidResult(s, p, pid, noHang);
            && (r == NoChild <==> forall k :: !TakenChild(s, p, pid, k))
            && (r == NoneYet <==> noHang && exists k :: TakenChild(s, p, pid, k))
            && u == if r == Suspend then SetWait(s, p, true, WaitArg(s.procs[p], pid)) else s
  {
    CandidateTaken(s, p, pid);
    var arg := WaitArg(s.procs[p], pid);
    var d := FirstDead(s, p, arg, 0);
    assert d < |s.procs| ==> TakenDead(s, p, pid, d);
    assert SomeChild(s, p, arg) <==> exists k :: TakenChild(s, p, pid, k);
  }

  // ------------------------------------------------------------------ asleep

  // Since p was put to sleep nothing has changed what it sleeps for.
  lemma {:induction false} AsleepSince(s: State, init: int, evs: seq<Event>, p: int)
    requires Inv(s, init) && LegalRun(s, init, evs) && 0 <= p < |s.procs|
    requires forall i :: 0 <= i < |evs| && evs[i].Waits? ==> evs[i].p != p
    ensures |Run(s, init, evs).procs| == |s.procs|
    ensures Run(s, init, evs).procs[p].waiting ==> Sleeps(s.procs[p], Run(s, init, evs).procs[p]) && s.procs[p].waiting
    decreases evs
  {
    if evs != [] {
      StepKeeps(s, init, evs[0]);
      StepAsleep(s, init, evs[0], p);
      AsleepSince(Step(s, init, evs[0]), init, evs[1..], p);
    }
  }

  lemma StepAsleep(s: State, init: int, ev: Event, p: int)
    requires Inv(s, init) && Legal(s, init, ev) && 0 <= p < |s.procs| && (ev.Waits? ==> ev.p != p)
    ensures |Step(s, init, ev).procs| == |s.procs|
    ensures Step(s, init, ev).procs[p].waiting ==> Sleeps(s.procs[p], Step(s, init, ev).procs[p]) && s.procs[p].waiting
  {
    if ev.Waits? && Runs(s, ev.p) {
      var k := FirstDead(s, ev.p, WaitArg(s.procs[ev.p], ev.pid), 0);
      if k < |s.procs| {
        CollectCalm(s, k);
        assert Sleeps(s.procs[p], Collect(s, k).procs[p]);
      }
    } else if !ev.Waits? && !ev.Forks? && !ev.Regroups? {
      StepCalm(s, init, ev);
      assert Sleeps(s.procs[p], Step(s, init, ev).procs[p]);
    }
  }

  // p called waitpid(pid) in s and sleeps; then evs happened, and p still sleeps.
  ghost predicate SleepsOn(s: State, init: int, p: int, pid: int, noHang: bool, evs: seq<Event>)
    requires Inv(s, init)
  {
    && Runs(s, p) && !s.procs[p].waiting && LegalRun(s, init, [Waits(p, pid, noHang)] + evs)
    && (forall i :: 0 <= i < |evs| && evs[i].Waits? ==> evs[i].p != p)
    && p < |Run(s, init, [Waits(p, pid, noHang)] + evs).procs|
    && Run(s, init, [Waits(p, pid, noHang)] + evs).procs[p].waiting
  }

  lemma SleepsFor(s: State, init: int, p: int, pid: int, noHang: bool, evs: seq<Event>)
    requires Sound(s, init) && SleepsOn(s, init, p, pid, noHang, evs)
    ensures var u := Run(s, init, [Waits(p, pid, noHang)] + evs);
            && Sound(u, init) && Runs(u, p) && !noHang
            && u.procs[p].wpid == WaitArg(s.procs[p], pid) && u.procs[p].procgrp == s.procs[p].procgrp
  {
    var all := [Waits(p, pid, noHang)] + evs;
    RunSound(s, init, all);
    RunFirst(s, init, Waits(p, pid, noHang), evs);
    AsleepSince(Waitpid(s, p, pid, noHang), init, evs, p);
    WaitSleeps(s, p, pid, noHang);
    SleepersRun(Run(s, init, all), p);
  }

  lemma SleepersRun(u: State, p: int)
    requires Flagged(u) && 0 <= p < |u.procs| && u.procs[p].waiting
    ensures Runs(u, p)
  {
    assert FlagsOk(u.procs[p]);
  }

  lemma WaitSleeps(s: State, p: int, pid: int, noHang: bool)
    requires Bounded(s) && Runs(s, p) && !s.procs[p].waiting
    ensures var u := Waitpid(s, p, pid, noHang);
            && |u.procs| == |s.procs|
            && (u.procs[p].waiting ==> !noHang && u == SetWait(s, p, true, WaitArg(s.procs[p], pid)))
  {
    var k := FirstDead(s, p, WaitArg(s.procs[p], pid), 0);
    if k < |s.procs| {
      CollectCalm(s, k);
      assert Sleeps(s.procs[p], Collect(s, k).procs[p]);
    }
  }

  // No wakeup is lost: whatever happens after any call of waitpid, its caller,
  // init included, does not sleep while a child it asked for is dead and unreported.
  lemma NoWakeupLost(s: State, init: int, p: int, pid: int, noHang: bool, evs: seq<Event>, c: int)
    requires Sound(s, init) && SleepsOn(s, init, p, pid, noHang, evs)
    ensures var u := Run(s, init, [Waits(p, pid, noHang)] + evs);
            Runs(u, p) && !(ChildOf(u, p, c) && u.procs[c].zombie && Asked(s.procs[p], pid, u.procs[c]))
  {
    SleepsFor(s, init, p, pid, noHang, evs);
    var u := Run(s, init, [Waits(p, pid, noHang)] + evs);
    if ChildOf(u, p, c) {
      assert Woken(u, c);
      TestIs(u.procs[p], pid, u.procs[c]);
    }
  }

  // ------------------------------------ asleep, though a second call would not be

  // p sleeps beside a dead child that the loop of its own call would collect.
  ghost predicate Missed(s: State, p: int, c: int) {
    && Runs(s, p) && s.procs[p].waiting
    && 0 <= c < |s.procs| && s.procs[c].zombie && s.procs[c].parent == p && Selects(s.procs[p].wpid, s.procs[c])
  }

  // In every reachable state: a sleeper misses a dead child exactly if its
  // argument was kept as 0, and then it is in group 0, is not init, and the child
  // is in another group.
  lemma {:induction false} MissedExactly(s: State, init: int, evs: seq<Event>, p: int, c: int)
    requires Sound(s, init) && LegalRun(s, init, evs)
    requires var u := Run(s, init, evs);
             Runs(u, p) && u.procs[p].waiting && 0 <= c < |u.procs| && u.procs[c].zombie && u.procs[c].parent == p
    ensures var u := Run(s, init, evs);
            && (Missed(u, p, c) <==> u.procs[p].wpid == 0)
            && (Missed(u, p, c) ==> u.procs[p].procgrp == 0 && p != init && u.procs[c].procgrp != 0)
  {
    RunSound(s, init, evs);
    var u := Run(s, init, evs);
    assert Woken(u, c) && FlagsOk(u.procs[c]);
    MissedBy(u.procs[p], u.procs[c]);
  }

  lemma MissedBy(p: Slot, c: Slot)
    requires p.waiting && c.pid > 0 && c.procgrp >= 0 && !WaitTest(p, c)
    ensures Selects(p.wpid, c) <==> p.wpid == 0
    ensures p.wpid == 0 ==> c.procgrp != 0
  {
    if p.wpid == 0 {
      SelectionDiffers(p, c);
    } else {
      SelectionAgrees(p, c);
    }
  }

  // The same from the call on: a sleeper with a dead child misses it exactly if
  // it called waitpid(0) as a member of group 0.
  lemma MissedSinceCall(s: State, init: int, p: int, pid: int, noHang: bool, evs: seq<Event>, c: int)
    requires Sound(s, init) && SleepsOn(s, init, p, pid, noHang, evs)
    requires var u := Run(s, init, [Waits(p, pid, noHang)] + evs);
             0 <= c < |u.procs| && u.procs[c].zombie && u.procs[c].parent == p
    ensures Missed(Run(s, init, [Waits(p, pid, noHang)] + evs), p, c) <==> pid == 0 && s.procs[p].procgrp == 0
  {
    SleepsFor(s, init, p, pid, noHang, evs);
    MissedExactly(s, init, [Waits(p, pid, noHang)] + evs, p, c);
  }

  // ------------------------------------------------------------- at the death

  // Slots that are neither children of x nor init are left alone by adoption.
  lemma {:induction false} AdoptLeaves(s: State, x: int, init: int, c: int, k: int)
    requires Bounded(s) && 0 <= c <= |s.procs| && 0 < init < |s.procs| && 0 <= k < |s.procs|
    requires k != init && s.procs[k].parent != x
    ensures AdoptFrom(s, x, init, c).procs[k] == s.procs[k]
    decreases |s.procs| - c
  {
    if c < |s.procs| {
      var t := Adopt(s, x, init, c);
      assert t.procs[k] == s.procs[k];
      AdoptLeaves(t, x, init, c + 1, k);
    }
  }

  // x becomes known as dead in this step: it exits without a dump, or its dump is
  // done.
  predicate Dies(s: State, ev: Event, x: int) {
    match ev
    case Exits(y, how) => y == x && Runs(s, x) && !Dumps(s.procs[x], how.dump)
    case Answers(e, _) => e.slot == x && e in s.books.asked && s.books.asked[e] == CoreAsk
    case _ => false
  }

  lemma ZombifyHeard(s: State, x: int)
    requires Bounded(s) && 0 <= x < |s.procs| && s.procs[x].parent != x
    requires Live(s.procs[s.procs[x].parent]) && DumpPending(s.procs[x])
    ensures var u, heard := Zombify(s, x), WaitTest(s.procs[s.procs[x].parent], s.procs[x]);
            && u.procs[x].toldParent == heard && u.procs[x].zombie == !heard
            && Reported(u.books.reports) == Reported(s.books.reports) + if heard then [s.procs[x].endpoint] else []
  {
    var r := Report(s.procs[s.procs[x].parent].endpoint, s.procs[x].endpoint, s.procs[x].pid, StatusWord(s.procs[x]));
    ReportedSnoc(s.books.reports, r);
  }

  // What a death leaves of x and its parent.
  predicate DiesTo(s: State, u: State, x: int)
    requires 0 <= x < |s.procs| == |u.procs| && 0 <= s.procs[x].parent < |s.procs|
  {
    var p := s.procs[x].parent;
    var heard := WaitTest(s.procs[p], s.procs[x]);
    && Live(s.procs[p]) && s.procs[x].inUse && u.procs[x].zombie == !heard
    && (!heard ==> u.procs[x].parent == p)
  }

  lemma HeardAtExit(s: State, init: int, x: int, how: Death)
    requires Inv(s, init) && CanExit(s, x, init) && !Dumps(s.procs[x], how.dump)
    ensures var u, p := ExitProc(s, x, init, how), s.procs[x].parent;
            && |u.procs| == |s.procs| && 0 <= p < |s.procs| && DiesTo(s, u, x)
            && u.procs[x].inUse && u.procs[x].endpoint == s.procs[x].endpoint
            && u.procs[x].toldParent == !u.procs[x].zombie
            && (p != init && u.procs[x].zombie ==> u.procs[p].waiting == s.procs[p].waiting)
  {
    var p := s.procs[x].parent;
    LiveParent(s, init, x);
    if p != init {
      NoCycle(s, init, x, p);
    }
    HeardOnArray(s, init, x, how);
  }

  // Neither x nor its parent, if that is not init, is touched by the adoption.
  lemma HeardOnArray(s: State, init: int, x: int, how: Death)
    requires Bounded(s) && CanExit(s, x, init) && !Dumps(s.procs[x], how.dump)
    requires var p := s.procs[x].parent; Live(s.procs[p]) && p != x && (p != init ==> s.procs[p].parent != x)
    ensures var u, p := ExitProc(s, x, init, how), s.procs[x].parent;
            && |u.procs| == |s.procs| && DiesTo(s, u, x)
            && u.procs[x].inUse && u.procs[x].endpoint == s.procs[x].endpoint
            && u.procs[x].toldParent == !u.procs[x].zombie
            && (p != init && u.procs[x].zombie ==> u.procs[p].waiting == s.procs[p].waiting)
  {
    var p := s.procs[x].parent;
    var begun := Begun(s, x, Final(s.procs[x], how));
    BegunHeard(s, x, Final(s.procs[x], how));
    AdoptLeaves(begun, x, init, 0, x);
    if p != init {
      AdoptLeaves(begun, x, init, 0, p);
    }
  }

  lemma BegunHeard(s: State, x: int, how: Death)
    requires Bounded(s) && Runs(s, x) && Live(s.procs[s.procs[x].parent]) && s.procs[x].parent != x && !how.dump
    ensures var u, p := Begun(s, x, how), s.procs[x].parent;
            && |u.procs| == |s.procs| && DiesTo(s, u, x) && u.procs[p].parent == s.procs[p].parent
            && u.procs[x].inUse && u.procs[x].endpoint == s.procs[x].endpoint
            && u.procs[x].toldParent == !u.procs[x].zombie
            && u.procs[x].parent == p && (u.procs[x].zombie ==> u.procs[p].waiting == s.procs[p].waiting)
  {
    ZombifyHeard(BeginExit(s, x, how), x);
  }

  lemma NoCycle(s: State, init: int, x: int, p: int)
    requires Tree(s, init) && Rooted(s, init) && Runs(s, x) && Runs(s, p)
    requires x != init && p != init && s.procs[x].parent == p
    ensures s.procs[p].parent != x && x != p
  {
  }

  lemma HeardAfterDump(s: State, init: int, e: Endpoint, dumped: bool)
    requires Inv(s, init) && e in s.books.asked && s.books.asked[e] == CoreAsk
    ensures InTable(s, e)
    ensures var u, x := VfsReply(s, e, dumped), e.slot;
            && |u.procs| == |s.procs| && 0 <= s.procs[x].parent < |s.procs| && DiesTo(s, u, x)
            && Reported(u.books.reports) == Reported(s.books.reports) + (if u.procs[x].zombie then [] else [e])
            && (u.procs[x].zombie ==> u.procs[s.procs[x].parent].waiting == s.procs[s.procs[x].parent].waiting)
  {
    AskedSlot(s, e);
    assert HasParent(s, -1, 0, e.slot) && FlagsOk(s.procs[e.slot]);
    ZombifyHeard(Answered(s, e, dumped), e.slot);
  }

  // At the death of x, with or without a dump, its parent is told in that step
  // exactly if it sleeps and the test made at a death passes; otherwise x is a
  // zombie.
  lemma DeathHeard(s: State, init: int, ev: Event, x: int)
    requires Sound(s, init) && Legal(s, init, ev) && Dies(s, ev, x)
    ensures 0 <= x < |s.procs| && 0 <= s.procs[x].parent < |s.procs| == |Step(s, init, ev).procs|
    ensures DiesTo(s, Step(s, init, ev), x)
    ensures var u := Step(s, init, ev);
            && s.procs[x].endpoint !in Reported(s.books.reports)
            && (s.procs[x].endpoint in Reported(u.books.reports) <==> !u.procs[x].zombie)
            && (u.procs[x].zombie && s.procs[x].parent != init
                ==> u.procs[s.procs[x].parent].waiting == s.procs[s.procs[x].parent].waiting)
  {
    StepKeeps(s, init, ev);
    match ev
    case Exits(_, how) =>
      HeardAtExit(s, init, x, how);
      assert Tracked(s.books, s.procs[x]) && Tracked(Step(s, init, ev).books, Step(s, init, ev).procs[x]);
      assert FlagsOk(s.procs[x]);
    case Answers(e, dumped) =>
      HeardAfterDump(s, init, e, dumped);
      assert Tracked(s.books, s.procs[x]);
  }

  // So the parent sleeps on, missing x, exactly if its argument was kept as 0 and
  // x is in a group other than 0.
  lemma DeathMissed(s: State, init: int, ev: Event, x: int)
    requires Sound(s, init) && Legal(s, init, ev) && Dies(s, ev, x)
    ensures 0 <= x < |s.procs| && 0 <= s.procs[x].parent < |s.procs|
    ensures var p := s.procs[x].parent;
            Missed(Step(s, init, ev), p, x) <==> s.procs[p].waiting && s.procs[p].wpid == 0 && s.procs[x].procgrp != 0
  {
    StepKeeps(s, init, ev);
    StepCalm(s, init, ev);
    DeathHeard(s, init, ev, x);
    MissedAfter(s, Step(s, init, ev), init, x);
  }

  lemma MissedAfter(s: State, u: State, init: int, x: int)
    requires CalmStep(s, u) && Bounded(s) && Identified(s) && ZeroKept(s, init)
    requires NoLostWakeup(u) && Identified(u) && Parented(u, -1, 0) && Flagged(u)
    requires 0 <= x < |s.procs| && DiesTo(s, u, x)
    requires u.procs[x].zombie && s.procs[x].parent != init
             ==> u.procs[s.procs[x].parent].waiting == s.procs[s.procs[x].parent].waiting
    ensures var p := s.procs[x].parent;
            Missed(u, p, x) <==> s.procs[p].waiting && s.procs[p].wpid == 0 && s.procs[x].procgrp != 0
  {
    var p := s.procs[x].parent;
    assert Sleeps(s.procs[x], u.procs[x]) && Sleeps(s.procs[p], u.procs[p]);
    assert Woken(u, x) && HasParent(u, -1, 0, x) && FlagsOk(u.procs[x]);
    if u.procs[x].zombie && u.procs[p].waiting {
      MissedBy(u.procs[p], u.procs[x]);
    }
  }

  // A boot image of four processes: slot 1 is the parent of slots 0 and 3, and all
  // but init, in slot 2, are in group 0.
  function Example(): State {
    var blank := Slot(true, false, false, false, false, false, false, 1, 0, 1, Endpoint(0, 0), 0, 0, 0, 0, 0, 0, 0);
    var at := c => Endpoint(c, 0);
    State([blank.(pid := 4), blank.(pid := 2, parent := 2, endpoint := at(1)),
           blank.(pid := 1, procgrp := 1, parent := 2, endpoint := at(2)), blank.(pid := 3, endpoint := at(3))],
          4,
          Books(map[], map[at(0) := at(1), at(1) := at(2), at(2) := at(2), at(3) := at(1)],
                map[], {}, [], [], [], 0, 0))
  }

  lemma ExampleUsed()
    ensures Total(Used, Example().procs) == 4
  {
    var t := Example().procs;
    assert Total(Used, t[..1]) == 1;
    assert Total(Used, t[..2]) == 2 by { assert t[..2][..1] == t[..1]; }
    assert Total(Used, t[..3]) == 3 by { assert t[..3][..2] == t[..2]; }
    assert t[..4][..3] == t[..3] && t[..4] == t;
  }

  lemma ExampleBooted()
    ensures Booted(Example(), 2, 1)
  {
    ExampleUsed();
  }

  lemma ExampleSound()
    ensures Sound(Example(), 2)
  {
    ExampleBooted();
    BootSound(Example(), 2, 1);
  }

  // p, in group 0, has a child x there; nobody is dead and nothing is asked.
  ghost predicate Ready(s: State, init: int, p: int, x: int) {
    && Runs(s, p) && Runs(s, x) && p != x && x != init && 0 < init < |s.procs| && Bounded(s)
    && s.procs[x].parent == p && s.procs[x].pid > 0 && s.procs[p].procgrp == 0 && s.procs[x].procgrp == 0
    && s.books.asked == map[] && s.procs[x].endpoint.slot == x
    && s.procs[x].vfsCall == s.procs[x].toldParent == false && !s.procs[p].waiting && !s.procs[x].waiting
    && forall c :: 0 <= c < |s.procs| ==> !s.procs[c].zombie
  }

  // x becomes the leader of a group, and is answered.
  function Regrouped(s: State, x: int): State
    requires Bounded(s) && Runs(s, x) && s.procs[x].endpoint.slot == x
  {
    Answered(Setsid(s, x), s.procs[x].endpoint, false)
  }

  lemma RegroupedFacts(s: State, init: int, p: int, x: int)
    requires Ready(s, init, p, x)
    ensures var u := Regrouped(s, x);
            && Runs(u, p) && CanExit(u, x, init) && u.procs[p].procgrp == 0 && u.procs[x].procgrp != 0
            && Candidate(u, p, 0, x) && FirstDead(u, p, 0, 0) == |u.procs|
  {
  }

  lemma RegroupedRun(s: State, init: int, p: int, x: int) returns (evs: seq<Event>)
    requires Inv(s, init) && Ready(s, init, p, x)
    ensures LegalRun(s, init, evs) && Run(s, init, evs) == Regrouped(s, x)
  {
    var a, b := Regroups(x), Answers(s.procs[x].endpoint, false);
    StepKeeps(s, init, a);
    evs := [a, b];
    TwoSteps(s, init, a, b);
  }

  // x leaves group 0, p waits for its own group, and x exits.
  lemma MissedFrom(s: State, init: int, p: int, x: int) returns (evs: seq<Event>)
    requires Sound(s, init) && Ready(s, init, p, x)
    ensures LegalRun(s, init, evs) && Missed(Run(s, init, evs), p, x)
  {
    var before := RegroupedRun(s, init, p, x);
    RunSound(s, init, before);
    RegroupedFacts(s, init, p, x);
    var after := MissedInTwo(Regrouped(s, x), init, p, x);
    RunConcat(s, init, before, after);
    evs := before + after;
  }

  lemma ExampleReady() returns (s: State)
    ensures Booted(s, 2, 1) && Sound(s, 2) && Ready(s, 2, 1, 3)
  {
    s := Example();
    ExampleBooted();
    ExampleSound();
  }

  // From a boot image it comes to that.
  lemma MissedExample() returns (s: State, evs: seq<Event>)
    ensures Booted(s, 2, 1) && Sound(s, 2) && LegalRun(s, 2, evs) && Missed(Run(s, 2, evs), 1, 3)
  {
    s := ExampleReady();
    evs := MissedFrom(s, 2, 1, 3);
  }

  lemma MissedInTwo(s: State, init: int, p: int, x: int) returns (evs: seq<Event>)
    requires Sound(s, init) && Runs(s, p) && CanExit(s, x, init) && Candidate(s, p, 0, x) && p != x
    requires s.procs[p].procgrp == 0 && s.procs[x].procgrp != 0 && FirstDead(s, p, 0, 0) == |s.procs|
    ensures LegalRun(s, init, evs) && Missed(Run(s, init, evs), p, x)
  {
    var a, b := Waits(p, 0, false), Exits(x, Death(0, 0, false, 0, 0));
    StepKeeps(s, init, a);
    StepHonest(s, init, a);
    StepZero(s, init, a);
    WaitStarts(s, p, x);
    DeathMissed(Step(s, init, a), init, b, x);
    evs := [a, b];
    TwoSteps(s, init, a, b);
  }

  lemma WaitStarts(s: State, p: int, x: int)
    requires Bounded(s) && Runs(s, p) && s.procs[p].procgrp == 0 && Candidate(s, p, 0, x)
    requires FirstDead(s, p, 0, 0) == |s.procs|
    ensures Waitpid(s, p, 0, false) == SetWait(s, p, true, 0)
  {
  }

  lemma OneStep(s: State, init: int, a: Event)
    requires Inv(s, init) && Legal(s, init, a)
    ensures LegalRun(s, init, [a]) && Run(s, init, [a]) == Step(s, init, a)
  {
    assert [] + [a] == [a];
    RunSnoc(s, init, [], a);
  }

  lemma TwoSteps(s: State, init: int, a: Event, b: Event)
    requires Inv(s, init) && Legal(s, init, a) && Inv(Step(s, init, a), init) && Legal(Step(s, init, a), init, b)
    ensures LegalRun(s, init, [a, b]) && Run(s, init, [a, b]) == Step(Step(s, init, a), init, b)
  {
    OneStep(s, init, a);
    assert [a] + [b] == [a, b];
    RunSnoc(s, init, [a], b);
  }
}
