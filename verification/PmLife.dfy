// The invariant of the process manager through the file system's replies, fork
// and wait.
module PmLife {
  import opened PmModel
  import opened PmInvariant
  import opened PmSteps
  import opened PmExit

  // ------------------------------------------------- the file system replies

  // Every request names a process in the table that waits for its answer.
  lemma AskedSlot(s: State, e: Endpoint)
    requires AskedFor(s) && e in s.books.asked
    ensures InTable(s, e) && s.procs[e.slot].vfsCall
    ensures GoesOn(s.books.asked[e]) <==> !s.procs[e.slot].exiting
  {
  }

  lemma AnsweredFlags(s: State, e: Endpoint, dumped: bool)
    requires Bounded(s) && Flagged(s) && AskedFor(s) && e in s.books.asked
    ensures 0 <= e.slot < |s.procs|
    ensures FlagStep(s, Answered(s, e, dumped)) && Flagged(Answered(s, e, dumped))
  {
    AskedSlot(s, e);
    forall k | 0 <= k < |s.procs| ensures FlagsOk(Answered(s, e, dumped).procs[k]) {
      assert FlagsOk(s.procs[k]);
    }
  }

  lemma AnsweredAsked(s: State, e: Endpoint, dumped: bool)
    requires Bounded(s) && AskedFor(s) && Identified(s) && Flagged(s) && e in s.books.asked && 0 <= e.slot < |s.procs|
    ensures AskedFor(Answered(s, e, dumped))
  {
    var u := Answered(s, e, dumped);
    forall c | 0 <= c < |u.procs| && u.procs[c].vfsCall ensures u.procs[c].endpoint in u.books.asked {
      assert FlagsOk(s.procs[c]);
    }
    forall f | f in u.books.asked ensures InTable(u, f) && u.procs[f.slot].vfsCall
                                        && (GoesOn(u.books.asked[f]) <==> !u.procs[f.slot].exiting) {
      AskedSlot(s, f);
      AskedSlot(s, e);
    }
  }

  lemma AnsweredAccounted(s: State, e: Endpoint, dumped: bool)
    requires Bounded(s) && Accounted(s) && e in s.books.asked && 0 <= e.slot < |s.procs|
    ensures Accounted(Answered(s, e, dumped))
  {
  }

  lemma AnsweredCore(s: State, init: int, e: Endpoint, dumped: bool)
    requires Core(s, init, -1, 0) && e in s.books.asked && 0 <= e.slot < |s.procs|
    ensures Core(Answered(s, e, dumped), init, -1, 0)
  {
    AnsweredFlags(s, e, dumped);
    FlagStepKeeps(s, Answered(s, e, dumped), init, -1, 0);
    AnsweredAsked(s, e, dumped);
    AnsweredAccounted(s, e, dumped);
  }

  lemma AnsweredRest(s: State, e: Endpoint, dumped: bool)
    requires NoLostWakeup(s) && DumpsAsked(s) && Settled(s) && Identified(s) && Flagged(s) && AskedFor(s)
    requires e in s.books.asked
    ensures 0 <= e.slot < |s.procs|
    ensures var u := Answered(s, e, dumped);
            && NoLostWakeup(u) && DumpsBut(u, e.slot) && SettledBut(u, e.slot)
            && e !in u.books.asked && u.procs[e.slot].endpoint == e && !u.procs[e.slot].vfsCall
            && u.procs[e.slot].exiting == !GoesOn(s.books.asked[e])
            && DumpPending(u.procs[e.slot]) == (s.books.asked[e] == CoreAsk)
  {
    AskedSlot(s, e);
    var u := Answered(s, e, dumped);
    forall c | 0 <= c < |u.procs| && c != e.slot && s.procs[c].inUse ensures u.procs[c].endpoint != e {
    }
    forall c | 0 <= c < |u.procs| ensures FlagsOk(s.procs[c]) && Woken(u, c) {
      assert Woken(s, c);
    }
  }

  // When the parent has been told and the file system has answered, the slot is
  // freed; until then it stays.
  lemma RestartKeeps(s: State, init: int, c: int)
    requires Core(s, init, -1, 0) && NoLostWakeup(s) && DumpsAsked(s) && SettledBut(s, c)
    requires 0 <= c < |s.procs| && s.procs[c].inUse && s.procs[c].exiting && !s.procs[c].vfsCall
    ensures Inv(ExitRestart(s, c, false), init)
    ensures var u := ExitRestart(s, c, false);
            u.books.freed == s.books.freed + if s.procs[c].toldParent then [s.procs[c].endpoint] else []
    ensures ExitRestart(s, c, false).procs[c].inUse == !s.procs[c].toldParent
  {
    if s.procs[c].toldParent {
      Childless(s, init, -1, 0, c);
      CleanupCore(s, init, -1, 0, c);
      CleanupRest(s, init, c);
    }
  }

  lemma CoreReplyKeeps(s: State, init: int, c: int)
    requires Core(s, init, -1, 0) && Dying(s, c) && !s.procs[c].vfsCall
    ensures Inv(ExitRestart(s, c, true), init)
  {
    ZombifyKeeps(s, init, -1, 0, c);
    RestartKeeps(Zombify(s, c), init, c);
  }

  // A process that goes on is idle again.
  lemma IdleKeeps(s: State, init: int, c: int)
    requires Core(s, init, -1, 0) && NoLostWakeup(s) && DumpsBut(s, c) && SettledBut(s, c)
    requires 0 <= c < |s.procs| && !s.procs[c].exiting
    ensures Inv(s, init)
  {
    assert FlagsOk(s.procs[c]);
  }

  lemma ExitReplyKeeps(s: State, init: int, c: int)
    requires Core(s, init, -1, 0) && NoLostWakeup(s) && DumpsBut(s, c) && SettledBut(s, c)
    requires 0 <= c < |s.procs| && s.procs[c].exiting && !DumpPending(s.procs[c]) && !s.procs[c].vfsCall
    requires s.procs[c].endpoint !in s.books.asked
    ensures Inv(ExitRestart(s, c, false), init)
  {
    assert FlagsOk(s.procs[c]);
    RestartKeeps(s, init, c);
  }

  lemma AnsweredKeeps(s: State, init: int, e: Endpoint, dumped: bool)
    requires Inv(s, init) && e in s.books.asked
    ensures 0 <= e.slot < |s.procs|
    ensures var u := Answered(s, e, dumped);
            if GoesOn(s.books.asked[e]) then Inv(u, init)
            else Inv(ExitRestart(u, e.slot, s.books.asked[e] == CoreAsk), init)
  {
    AskedSlot(s, e);
    var u := Answered(s, e, dumped);
    AnsweredCore(s, init, e, dumped);
    AnsweredRest(s, e, dumped);
    if GoesOn(s.books.asked[e]) {
      IdleKeeps(u, init, e.slot);
    } else if s.books.asked[e] == ExitAsk {
      ExitReplyKeeps(u, init, e.slot);
    } else {
      CoreReplyKeeps(u, init, e.slot);
    }
  }

  lemma VfsReplyIs(s: State, e: Endpoint, dumped: bool)
    requires Bounded(s) && e in s.books.asked && 0 <= e.slot < |s.procs|
    ensures var u := Answered(s, e, dumped);
            VfsReply(s, e, dumped)
            == if GoesOn(s.books.asked[e]) then u else ExitRestart(u, e.slot, s.books.asked[e] == CoreAsk)
  {
  }

  lemma VfsReplyKeeps(s: State, init: int, e: Endpoint, dumped: bool)
    requires Inv(s, init) && e in s.books.asked
    ensures InTable(s, e) && s.procs[e.slot].vfsCall
    ensures Inv(VfsReply(s, e, dumped), init)
  {
    AskedSlot(s, e);
    VfsReplyIs(s, e, dumped);
    AnsweredKeeps(s, init, e, dumped);
  }

  // ------------------------------------------------------------------- fork

  lemma ForkParented(s: State, init: int, p: int, k: int, pid: int, e: Endpoint)
    requires CanFork(s, p, k, pid, e) && Rooted(s, init) && Parented(s, -1, 0)
    ensures var u := Fork(s, p, k, pid, e); Rooted(u, init) && Parented(u, -1, 0)
  {
    var u := Fork(s, p, k, pid, e);
    forall c | 0 <= c < |u.procs| ensures HasParent(u, -1, 0, c) {
      assert HasParent(s, -1, 0, c);
    }
  }

  // The child hangs one level below its parent.
  lemma ForkTree(s: State, init: int, p: int, k: int, pid: int, e: Endpoint)
    requires CanFork(s, p, k, pid, e) && Rooted(s, init) && Parented(s, -1, 0) && Tree(s, init)
    ensures Tree(Fork(s, p, k, pid, e), init)
  {
    var u := Fork(s, p, k, pid, e);
    var d :| Descends(s, init, d);
    var below := d[k := d[p] + 1];
    forall c | 0 <= c < |u.procs| && u.procs[c].inUse && c != init ensures below[u.procs[c].parent] < below[c] {
      assert HasParent(s, -1, 0, c);
    }
    assert Descends(u, init, below);
  }

  lemma ForkFlags(s: State, p: int, k: int, pid: int, e: Endpoint)
    requires CanFork(s, p, k, pid, e) && Flagged(s)
    ensures Flagged(Fork(s, p, k, pid, e))
  {
  }

  lemma ForkAsked(s: State, p: int, k: int, pid: int, e: Endpoint)
    requires CanFork(s, p, k, pid, e) && AskedFor(s) && Flagged(s)
    ensures AskedFor(Fork(s, p, k, pid, e))
  {
  }

  lemma ForkIdentified(s: State, p: int, k: int, pid: int, e: Endpoint)
    requires CanFork(s, p, k, pid, e) && Identified(s)
    ensures Identified(Fork(s, p, k, pid, e))
  {
    forall c | 0 <= c < |s.procs| && c != k ensures s.procs[c].pid != pid {
      assert s.procs[k := s.procs[p]][c] == s.procs[c];
    }
  }

  lemma ForkBalanced(s: State, p: int, k: int, pid: int, e: Endpoint)
    requires CanFork(s, p, k, pid, e) && Balanced(s)
    ensures Balanced(Fork(s, p, k, pid, e))
  {
    var y := Child(s.procs[p], p, pid, e);
    TotalUpdate(Used, s.procs, k, y);
    TotalUpdate(Utime, s.procs, k, y);
    TotalUpdate(Stime, s.procs, k, y);
  }

  lemma ForkAccounted(s: State, p: int, k: int, pid: int, e: Endpoint)
    requires CanFork(s, p, k, pid, e) && Accounted(s)
    ensures Accounted(Fork(s, p, k, pid, e))
  {
  }

  lemma ForkRest(s: State, init: int, p: int, k: int, pid: int, e: Endpoint)
    requires CanFork(s, p, k, pid, e) && NoLostWakeup(s) && DumpsAsked(s) && Settled(s)
    requires Flagged(s) && Parented(s, -1, 0) && AskedFor(s) && Accounted(s)
    ensures var u := Fork(s, p, k, pid, e); NoLostWakeup(u) && DumpsAsked(u) && Settled(u)
  {
    var u := Fork(s, p, k, pid, e);
    forall c | 0 <= c < |u.procs| && c != k && u.procs[c].exiting ensures u.procs[c].endpoint != e {
      assert FlagsOk(s.procs[c]) && Tracked(s.books, s.procs[c]);
    }
    forall c | 0 <= c < |u.procs| ensures Woken(u, c) {
      assert FlagsOk(s.procs[c]) && Woken(s, c) && HasParent(s, -1, 0, c);
    }
  }

  lemma ForkKeeps(s: State, init: int, p: int, k: int, pid: int, e: Endpoint)
    requires Inv(s, init) && CanFork(s, p, k, pid, e)
    ensures Inv(Fork(s, p, k, pid, e), init)
  {
    ForkParented(s, init, p, k, pid, e);
    ForkTree(s, init, p, k, pid, e);
    ForkFlags(s, p, k, pid, e);
    ForkAsked(s, p, k, pid, e);
    ForkIdentified(s, p, k, pid, e);
    ForkBalanced(s, p, k, pid, e);
    ForkAccounted(s, p, k, pid, e);
    ForkRest(s, init, p, k, pid, e);
  }

  // ------------------------------------------------------------------- wait

  lemma WaitingFlags(s: State, p: int, w: bool, arg: int)
    requires Flagged(s) && Runs(s, p)
    ensures FlagStep(s, SetWait(s, p, w, arg)) && Flagged(SetWait(s, p, w, arg))
  {
  }

  lemma WaitingAsked(s: State, p: int, w: bool, arg: int)
    requires AskedFor(s) && Runs(s, p)
    ensures AskedFor(SetWait(s, p, w, arg))
  {
  }

  lemma WaitingAccounted(s: State, p: int, w: bool, arg: int)
    requires Accounted(s) && Runs(s, p)
    ensures Accounted(SetWait(s, p, w, arg))
  {
  }

  lemma WaitingRest(s: State, p: int, w: bool, arg: int)
    requires NoLostWakeup(s) && DumpsAsked(s) && Settled(s) && Flagged(s) && Identified(s) && Parented(s, -1, 0)
    requires Runs(s, p) && (w ==> FirstDead(s, p, arg, 0) == |s.procs|)
    ensures var u := SetWait(s, p, w, arg); NoLostWakeup(u) && DumpsAsked(u) && Settled(u)
  {
    var u := SetWait(s, p, w, arg);
    forall c | 0 <= c < |u.procs| ensures Woken(u, c) {
      assert FlagsOk(s.procs[c]) && Woken(s, c) && HasParent(s, -1, 0, c);
      assert w ==> !(Candidate(s, p, arg, c) && s.procs[c].zombie);
    }
  }

  lemma WaitingKeeps(s: State, init: int, p: int, w: bool, arg: int)
    requires Inv(s, init) && Runs(s, p) && (w ==> FirstDead(s, p, arg, 0) == |s.procs|)
    ensures Inv(SetWait(s, p, w, arg), init)
  {
    WaitingFlags(s, p, w, arg);
    FlagStepKeeps(s, SetWait(s, p, w, arg), init, -1, 0);
    WaitingAsked(s, p, w, arg);
    WaitingAccounted(s, p, w, arg);
    WaitingRest(s, p, w, arg);
  }

  lemma CollectKeeps(s: State, init: int, c: int)
    requires Inv(s, init) && 0 <= c < |s.procs| && s.procs[c].zombie
    ensures CanTell(s, c) && Inv(Collect(s, c), init)
  {
    assert FlagsOk(s.procs[c]) && HasParent(s, -1, 0, c);
    var told := TellParent(s, c);
    TellCore(s, init, -1, 0, c);
    TellRest(s, c);
    if !told.procs[c].vfsCall {
      Childless(told, init, -1, 0, c);
      CleanupCore(told, init, -1, 0, c);
      CleanupRest(told, init, c);
    }
  }

  lemma WaitpidKeeps(s: State, init: int, p: int, pid: int, noHang: bool)
    requires Inv(s, init) && Runs(s, p)
    ensures Inv(Waitpid(s, p, pid, noHang), init)
  {
    var arg := WaitArg(s.procs[p], pid);
    var k := FirstDead(s, p, arg, 0);
    if k < |s.procs| {
      CollectKeeps(s, init, k);
    } else {
      WaitingKeeps(s, init, p, true, arg);
    }
  }

  lemma CancelWaitKeeps(s: State, init: int, p: int)
    requires Inv(s, init) && Runs(s, p)
    ensures Inv(CancelWait(s, p), init)
  {
    WaitingKeeps(s, init, p, false, s.procs[p].wpid);
  }

  // ------------------------------------------------------------- new groups

  predicate CanSetsid(s: State, p: int) {
    Runs(s, p) && !s.procs[p].waiting && !s.procs[p].vfsCall
  }

  lemma SetsidFrame(s: State, init: int, p: int)
    requires Rooted(s, init) && Parented(s, -1, 0) && Tree(s, init) && Flagged(s) && CanSetsid(s, p)
    ensures var u := Setsid(s, p); Rooted(u, init) && Parented(u, -1, 0) && Tree(u, init) && Flagged(u)
  {
    var u := Setsid(s, p);
    forall c | 0 <= c < |u.procs| ensures FlagsOk(u.procs[c]) && HasParent(u, -1, 0, c) {
      assert FlagsOk(s.procs[c]) && HasParent(s, -1, 0, c);
    }
    var d :| Descends(s, init, d);
    assert Descends(u, init, d);
  }

  lemma SetsidAsked(s: State, p: int)
    requires AskedFor(s) && Identified(s) && CanSetsid(s, p)
    ensures AskedFor(Setsid(s, p))
  {
    var u := Setsid(s, p);
    forall f | f in u.books.asked && f != s.procs[p].endpoint
      ensures InTable(u, f) && u.procs[f.slot].vfsCall && (GoesOn(u.books.asked[f]) <==> !u.procs[f.slot].exiting)
    {
      AskedSlot(s, f);
    }
  }

  lemma SetsidIdentified(s: State, p: int)
    requires Identified(s) && Runs(s, p)
    ensures Identified(Setsid(s, p))
  {
  }

  lemma SetsidBalanced(s: State, p: int)
    requires Balanced(s) && Runs(s, p)
    ensures Balanced(Setsid(s, p))
  {
    var y := Setsid(s, p).procs[p];
    TotalUpdate(Used, s.procs, p, y);
    TotalUpdate(Utime, s.procs, p, y);
    TotalUpdate(Stime, s.procs, p, y);
  }

  lemma SetsidAccounted(s: State, p: int)
    requires Accounted(s) && Runs(s, p)
    ensures Accounted(Setsid(s, p))
  {
    var u := Setsid(s, p);
    forall k | 0 <= k < |u.procs| && u.procs[k].inUse ensures Tracked(u.books, u.procs[k]) {
      assert Tracked(s.books, s.procs[k]);
    }
    forall f | f in u.books.exits ensures f in u.books.freed || InTable(u, f) {
      assert f in s.books.freed || InTable(s, f);
    }
  }

  lemma SetsidRest(s: State, p: int)
    requires NoLostWakeup(s) && DumpsAsked(s) && Settled(s) && Flagged(s) && Identified(s) && Runs(s, p)
    ensures var u := Setsid(s, p); NoLostWakeup(u) && DumpsAsked(u) && Settled(u)
  {
    var u := Setsid(s, p);
    forall c | 0 <= c < |u.procs| ensures Woken(u, c) {
      assert FlagsOk(s.procs[c]) && Woken(s, c);
    }
  }

  lemma SetsidKeeps(s: State, init: int, p: int)
    requires Inv(s, init) && CanSetsid(s, p)
    ensures Inv(Setsid(s, p), init)
  {
    SetsidFrame(s, init, p);
    SetsidAsked(s, p);
    SetsidIdentified(s, p);
    SetsidBalanced(s, p);
    SetsidAccounted(s, p);
    SetsidRest(s, p);
  }
}
