// The invariant of the process manager through its elementary steps.
module PmSteps {
  import opened PmModel
  import opened PmInvariant

  // ---------------------------------------------- steps that only set flags

  predicate SameButFlags(x: Slot, y: Slot) {
    && y.inUse == x.inUse && y.exiting == x.exiting && y.parent == x.parent && y.pid == x.pid
    && y.procgrp == x.procgrp && y.endpoint == x.endpoint
    && y.childUtime == x.childUtime && y.childStime == x.childStime
  }

  ghost predicate FlagStep(s: State, u: State) {
    && |u.procs| == |s.procs| && (forall c :: 0 <= c < |s.procs| ==> SameButFlags(s.procs[c], u.procs[c]))
    && u.used == s.used && u.books.utime == s.books.utime && u.books.stime == s.books.stime
  }

  lemma {:induction false} TotalSame(m: Measure, t: seq<Slot>, u: seq<Slot>)
    requires |t| == |u| && forall c :: 0 <= c < |t| ==> SameButFlags(t[c], u[c])
    ensures Total(m, t) == Total(m, u)
  {
    if t != [] {
      TotalSame(m, t[..|t| - 1], u[..|t| - 1]);
    }
  }

  // The parts of the invariant that do not look at flags.
  ghost predicate Frame(s: State, init: int, x: int, i: int) {
    Rooted(s, init) && Parented(s, x, i) && Tree(s, init) && Identified(s) && Balanced(s)
  }

  lemma FlagStepParented(s: State, u: State, init: int, x: int, i: int)
    requires FlagStep(s, u) && Rooted(s, init) && Parented(s, x, i)
    ensures Rooted(u, init) && Parented(u, x, i)
  {
    forall c | 0 <= c < |u.procs| ensures SameButFlags(s.procs[c], u.procs[c]) && 0 <= u.procs[c].parent < |u.procs| {
    }
    forall c | 0 <= c < |u.procs| ensures HasParent(u, x, i, c) {
      assert HasParent(s, x, i, c) && SameButFlags(s.procs[c], u.procs[c]);
      assert SameButFlags(s.procs[s.procs[c].parent], u.procs[s.procs[c].parent]);
    }
    assert SameButFlags(s.procs[init], u.procs[init]);
  }

  lemma FlagStepTree(s: State, u: State, init: int)
    requires FlagStep(s, u) && Tree(s, init)
    ensures Tree(u, init)
  {
    var d :| Descends(s, init, d);
    forall c | 0 <= c < |u.procs| ensures 0 <= u.procs[c].parent < |u.procs| {
      assert SameButFlags(s.procs[c], u.procs[c]);
    }
    forall c | 0 <= c < |u.procs| && u.procs[c].inUse && c != init ensures d[u.procs[c].parent] < d[c] {
      assert SameButFlags(s.procs[c], u.procs[c]);
    }
    assert Descends(u, init, d);
  }

  lemma FlagStepIdentified(s: State, u: State)
    requires FlagStep(s, u) && Identified(s)
    ensures Identified(u)
  {
  }

  lemma FlagStepKeeps(s: State, u: State, init: int, x: int, i: int)
    requires FlagStep(s, u) && Frame(s, init, x, i)
    ensures Frame(u, init, x, i)
  {
    FlagStepParented(s, u, init, x, i);
    FlagStepTree(s, u, init);
    FlagStepIdentified(s, u);
    TotalSame(Used, s.procs, u.procs);
    TotalSame(Utime, s.procs, u.procs);
    TotalSame(Stime, s.procs, u.procs);
  }

  // ------------------------------------------------------------ tell parent

  lemma TellFlags(s: State, c: int)
    requires Bounded(s) && Flagged(s) && CanTell(s, c)
    ensures FlagStep(s, TellParent(s, c)) && Flagged(TellParent(s, c))
  {
    assert FlagsOk(s.procs[c]);
    forall k | 0 <= k < |s.procs| ensures FlagsOk(TellParent(s, c).procs[k]) {
      assert FlagsOk(s.procs[k]);
    }
  }

  lemma TellAsked(s: State, c: int)
    requires Bounded(s) && AskedFor(s) && 0 <= c < |s.procs|
    ensures AskedFor(TellParent(s, c))
  {
  }

  lemma ReportedSnoc(rs: seq<Report>, r: Report)
    ensures Reported(rs + [r]) == Reported(rs) + [r.child]
  {
  }

  lemma TellAccounted(s: State, c: int)
    requires Bounded(s) && Accounted(s) && Identified(s) && Flagged(s) && CanTell(s, c)
    ensures Accounted(TellParent(s, c))
  {
    var u, b, x := TellParent(s, c), s.books, s.procs[c];
    var r := Report(s.procs[x.parent].endpoint, x.endpoint, x.pid, StatusWord(x));
    ReportedSnoc(b.reports, r);
    assert FlagsOk(x) && Tracked(b, x);
    forall k | 0 <= k < |u.procs| && u.procs[k].inUse ensures Tracked(u.books, u.procs[k]) {
      assert Tracked(b, s.procs[k]);
    }
    forall e | e in b.exits ensures e in b.freed || InTable(u, e) {
      assert e in b.freed || InTable(s, e);
    }
  }

  // ----------------------------------------------------------------- cleanup

  // What cleanup relies on when it frees a slot.
  ghost predicate CanFree(s: State, init: int, c: int) {
    && 0 <= c < |s.procs| && c != init && s.procs[c].inUse && s.procs[c].toldParent && !s.procs[c].vfsCall
    && forall k :: 0 <= k < |s.procs| && s.procs[k].inUse ==> s.procs[k].parent != c
  }

  lemma CleanupParented(s: State, init: int, x: int, i: int, c: int)
    requires CanFree(s, init, c) && Rooted(s, init) && Parented(s, x, i)
    ensures Rooted(Cleanup(s, c), init) && Parented(Cleanup(s, c), x, i)
  {
    var u := Cleanup(s, c);
    forall k | 0 <= k < |u.procs| ensures HasParent(u, x, i, k) {
      assert HasParent(s, x, i, k);
    }
  }

  lemma CleanupTree(s: State, init: int, c: int)
    requires CanFree(s, init, c) && Tree(s, init)
    ensures Bounded(s) && Tree(Cleanup(s, c), init)
  {
    var d :| Descends(s, init, d);
    assert Descends(Cleanup(s, c), init, d);
  }

  lemma CleanupBalanced(s: State, c: int)
    requires Bounded(s) && Flagged(s) && Balanced(s) && 0 <= c < |s.procs| && s.procs[c].inUse && s.procs[c].exiting
    ensures Balanced(Cleanup(s, c))
  {
    var y := Cleanup(s, c).procs[c];
    TotalUpdate(Used, s.procs, c, y);
    TotalUpdate(Utime, s.procs, c, y);
    TotalUpdate(Stime, s.procs, c, y);
  }

  lemma CleanupAsked(s: State, c: int)
    requires Bounded(s) && AskedFor(s) && 0 <= c < |s.procs| && !s.procs[c].vfsCall
    ensures AskedFor(Cleanup(s, c))
  {
  }

  lemma CleanupFlags(s: State, c: int)
    requires Bounded(s) && Flagged(s) && 0 <= c < |s.procs|
    ensures Flagged(Cleanup(s, c))
  {
  }

  lemma CleanupWakeups(s: State, init: int, c: int)
    requires NoLostWakeup(s) && Flagged(s) && CanFree(s, init, c)
    ensures NoLostWakeup(Cleanup(s, c))
  {
    forall k | 0 <= k < |s.procs| ensures Woken(Cleanup(s, c), k) {
      assert FlagsOk(s.procs[k]) && Woken(s, k);
    }
  }

  lemma CleanupIdentified(s: State, c: int)
    requires Bounded(s) && Identified(s) && 0 <= c < |s.procs|
    ensures Identified(Cleanup(s, c))
  {
  }

  lemma CleanupAccounted(s: State, init: int, c: int)
    requires Bounded(s) && Accounted(s) && Identified(s) && CanFree(s, init, c)
    ensures Accounted(Cleanup(s, c))
  {
  }

  // ------------------------------------------------- both, with all of Core

  lemma TellCore(s: State, init: int, x: int, i: int, c: int)
    requires Core(s, init, x, i) && CanTell(s, c)
    ensures Core(TellParent(s, c), init, x, i)
  {
    TellFlags(s, c);
    FlagStepKeeps(s, TellParent(s, c), init, x, i);
    TellAsked(s, c);
    TellAccounted(s, c);
  }

  lemma CleanupCore(s: State, init: int, x: int, i: int, c: int)
    requires Core(s, init, x, i) && CanFree(s, init, c)
    ensures Core(Cleanup(s, c), init, x, i)
  {
    assert FlagsOk(s.procs[c]);
    CleanupParented(s, init, x, i, c);
    CleanupTree(s, init, c);
    CleanupFlags(s, c);
    CleanupAsked(s, c);
    CleanupIdentified(s, c);
    CleanupBalanced(s, c);
    CleanupAccounted(s, init, c);
  }

  // ------------------------------------------------------- except one slot

  ghost predicate WakeupsBut(s: State, k: int) {
    Bounded(s) && forall c :: 0 <= c < |s.procs| && c != k ==> Woken(s, c)
  }

  ghost predicate SettledBut(s: State, k: int) {
    forall c :: 0 <= c < |s.procs| && c != k && s.procs[c].toldParent ==> s.procs[c].vfsCall
  }

  ghost predicate DumpsBut(s: State, k: int) {
    forall c :: 0 <= c < |s.procs| && c != k && s.procs[c].exiting ==>
      (DumpPending(s.procs[c]) <==>
       s.procs[c].endpoint in s.books.asked && s.books.asked[s.procs[c].endpoint] == CoreAsk)
  }

  lemma TellRest(s: State, c: int)
    requires Bounded(s) && CanTell(s, c) && WakeupsBut(s, c) && DumpsAsked(s) && SettledBut(s, c)
    ensures var u := TellParent(s, c);
            NoLostWakeup(u) && DumpsAsked(u) && SettledBut(u, c) && u.procs[c].toldParent
            && u.procs[c].vfsCall == s.procs[c].vfsCall
  {
    forall k | 0 <= k < |s.procs| ensures Woken(TellParent(s, c), k) {
      assert k != c ==> Woken(s, k);
    }
  }

  lemma CleanupRest(s: State, init: int, c: int)
    requires Bounded(s) && Flagged(s) && CanFree(s, init, c) && NoLostWakeup(s) && DumpsAsked(s) && SettledBut(s, c)
    ensures var u := Cleanup(s, c); NoLostWakeup(u) && DumpsAsked(u) && Settled(u)
  {
    CleanupWakeups(s, init, c);
  }

  lemma UntoldRest(s: State, c: int)
    requires Identified(s) && Flagged(s) && WakeupsBut(s, c) && 0 <= c < |s.procs| && s.procs[c].inUse
    requires s.procs[s.procs[c].parent].exiting || !WaitTest(s.procs[s.procs[c].parent], s.procs[c])
    ensures NoLostWakeup(s)
  {
  }

  // An exiting process other than x is nobody's parent.
  lemma Childless(s: State, init: int, x: int, i: int, c: int)
    requires Rooted(s, init) && Parented(s, x, i) && 0 <= c < |s.procs| && c != x && s.procs[c].exiting
    ensures c != init && forall k :: 0 <= k < |s.procs| && s.procs[k].inUse ==> s.procs[k].parent != c
  {
    forall k | 0 <= k < |s.procs| && s.procs[k].inUse ensures s.procs[k].parent != c {
      assert HasParent(s, x, i, k);
    }
  }

  // A dead child that its parent has not heard of is looked at: in the end no
  // wakeup is lost, and it is freed if that was asked for and possible.
  lemma CheckParentKeeps(s: State, init: int, x: int, i: int, c: int, tryCleanup: bool)
    requires Core(s, init, x, i) && CanTell(s, c) && WakeupsBut(s, c) && DumpsAsked(s) && Settled(s)
    requires tryCleanup ==> c != x
    ensures var u := CheckParent(s, c, tryCleanup);
            && Core(u, init, x, i) && NoLostWakeup(u) && DumpsAsked(u) && SettledBut(u, c)
            && (tryCleanup || s.procs[c].vfsCall ==> Settled(u))
            && (!tryCleanup ==> u.procs[c].inUse && u.procs[c].exiting && u.procs[c].vfsCall == s.procs[c].vfsCall)
  {
    var p := s.procs[s.procs[c].parent];
    assert FlagsOk(s.procs[c]);
    if p.exiting || !WaitTest(p, s.procs[c]) {
      UntoldRest(s, c);
    } else {
      var told := TellParent(s, c);
      TellCore(s, init, x, i, c);
      TellRest(s, c);
      if tryCleanup && !told.procs[c].vfsCall {
        Childless(told, init, x, i, c);
        CleanupCore(told, init, x, i, c);
        CleanupRest(told, init, c);
      }
    }
  }
}
