// What parents are told: the pid, the exit value and the signal with which the
// child ended, told to the process that made the child or to init.
module PmReports {
  import opened PmModel
  import opened PmInvariant
  import opened PmSteps
  import opened PmExit
  import opened PmLife

  // The signal status: bit 7 says that the core was written.
  function SignalOf(b: Books, e: Endpoint): int
    requires e in b.said
  {
    if e in b.cored then SetDumped(b.said[e].sig) else b.said[e].sig
  }

  // A child's parent is its maker or init; an exiting process has its pid, value
  // and signal on record.
  ghost predicate Vouched(s: State, init: int, c: int)
    requires Bounded(s) && 0 <= c < |s.procs| && 0 <= init < |s.procs|
  {
    var x := s.procs[c];
    x.inUse ==>
      && x.endpoint in s.books.born
      && (x.parent == init || s.procs[x.parent].endpoint == s.books.born[x.endpoint])
      && (x.endpoint in s.books.cored ==> x.exiting)
      && (x.exiting ==> Recorded(s.books, x))
  }

  predicate Recorded(b: Books, x: Slot) {
    && x.endpoint in b.said && b.said[x.endpoint].pid == x.pid
    && b.said[x.endpoint].value == x.exitStatus && SignalOf(b, x.endpoint) == x.sigStatus
  }

  ghost predicate TrueReport(b: Books, root: Endpoint, r: Report) {
    && r.child in b.born && (r.parent == root || r.parent == b.born[r.child])
    && r.child in b.said && b.said[r.child].pid == r.pid
    && r.status / 256 == b.said[r.child].value && r.status % 256 == SignalOf(b, r.child) % 256
  }

  ghost predicate Honest(s: State, init: int) {
    && Bounded(s) && 0 <= init < |s.procs|
    && (forall e :: e in s.books.cored ==> e in s.books.born && e !in s.books.asked)
    && (forall c :: 0 <= c < |s.procs| ==> Vouched(s, init, c))
    && (forall i :: 0 <= i < |s.books.reports| ==> TrueReport(s.books, s.procs[init].endpoint, s.books.reports[i]))
  }

  // A step that leaves the records and the identity of every slot alone.
  ghost predicate SameIdentity(s: State, u: State) {
    && |u.procs| == |s.procs| && Bounded(u)
    && u.books.born == s.books.born && u.books.said == s.books.said && u.books.cored == s.books.cored
    && u.books.reports == s.books.reports && u.books.asked == s.books.asked
    && forall c :: 0 <= c < |s.procs| ==>
         u.procs[c].endpoint == s.procs[c].endpoint && SameOrFree(s.procs[c], u.procs[c])
  }

  predicate SameOrFree(x: Slot, y: Slot) {
    y.inUse ==>
      && x.inUse && y.exiting == x.exiting && y.parent == x.parent && y.pid == x.pid
      && y.exitStatus == x.exitStatus && y.sigStatus == x.sigStatus
  }

  lemma IdentityKeeps(s: State, u: State, init: int)
    requires Honest(s, init) && SameIdentity(s, u)
    ensures Honest(u, init)
  {
    forall c | 0 <= c < |u.procs| ensures Vouched(u, init, c) {
      assert Vouched(s, init, c);
      assert SameOrFree(s.procs[c], u.procs[c]);
      assert u.procs[s.procs[c].parent].endpoint == s.procs[s.procs[c].parent].endpoint;
    }
  }

  lemma TellHonest(s: State, init: int, c: int)
    requires Honest(s, init) && 0 <= c < |s.procs| && s.procs[c].inUse && s.procs[c].exiting
    ensures Honest(TellParent(s, c), init)
  {
    var u := TellParent(s, c);
    assert Vouched(s, init, c);
    var told := s.(procs := u.procs);
    IdentityKeeps(s, told, init);
    forall k | 0 <= k < |u.procs| ensures Vouched(u, init, k) {
      assert Vouched(told, init, k);
    }
    forall i | 0 <= i < |u.books.reports| ensures TrueReport(u.books, u.procs[init].endpoint, u.books.reports[i]) {
      if i < |s.books.reports| {
        assert TrueReport(s.books, s.procs[init].endpoint, s.books.reports[i]);
      }
    }
  }

  lemma CheckParentHonest(s: State, init: int, c: int, tryCleanup: bool)
    requires Honest(s, init) && 0 <= c < |s.procs| && s.procs[c].inUse && s.procs[c].exiting
    ensures Honest(CheckParent(s, c, tryCleanup), init)
  {
    var told := TellParent(s, c);
    TellHonest(s, init, c);
    IdentityKeeps(told, Cleanup(told, c), init);
  }

  lemma ReparentHonest(s: State, init: int, c: int)
    requires Honest(s, init) && 0 <= c < |s.procs|
    ensures Honest(Reparent(s, c, init), init)
  {
    var u := Reparent(s, c, init);
    forall k | 0 <= k < |u.procs| ensures Vouched(u, init, k) {
      assert Vouched(s, init, k);
    }
  }

  // In the middle of an exit, with the children from slot c on to be given away.
  ghost predicate HonestExit(s: State, init: int, x: int, c: int) {
    var holds := Honest(s, init) && Good(s, init, x, c) && 0 <= c <= |s.procs| && x != init;
    holds
  }

  lemma AdoptHonestKeeps(s: State, init: int, x: int, c: int)
    requires HonestExit(s, init, x, c) && c < |s.procs|
    ensures HonestExit(Adopt(s, x, init, c), init, x, c + 1)
  {
    AdoptHonest(s, init, x, c);
    AdoptKeeps(s, init, x, c);
  }

  lemma {:induction false} AdoptFromHonest(s: State, init: int, x: int, c: int)
    requires HonestExit(s, init, x, c)
    ensures Honest(AdoptFrom(s, x, init, c), init)
    decreases |s.procs| - c
  {
    if c < |s.procs| {
      AdoptHonestKeeps(s, init, x, c);
      AdoptFromHonest(Adopt(s, x, init, c), init, x, c + 1);
    }
  }

  lemma AdoptHonest(s: State, init: int, x: int, c: int)
    requires Honest(s, init) && Flagged(s) && 0 <= c < |s.procs| && init > 0
    ensures Honest(Adopt(s, x, init, c), init)
  {
    assert FlagsOk(s.procs[c]);
    ReparentHonest(s, init, c);
    if s.procs[c].inUse && s.procs[c].zombie {
      CheckParentHonest(Reparent(s, c, init), init, c, true);
    }
  }

  lemma BeginHonest(s: State, init: int, x: int, how: Death)
    requires Honest(s, init) && Identified(s) && Accounted(s) && Runs(s, x)
    ensures Honest(BeginExit(s, x, how), init)
  {
    var u := BeginExit(s, x, how);
    assert Tracked(s.books, s.procs[x]) && Vouched(s, init, x);
    forall c | 0 <= c < |u.procs| ensures Vouched(u, init, c) {
      assert Vouched(s, init, c);
    }
    forall i | 0 <= i < |u.books.reports| ensures TrueReport(u.books, u.procs[init].endpoint, u.books.reports[i]) {
      assert TrueReport(s.books, s.procs[init].endpoint, s.books.reports[i]);
      assert s.books.reports[i].child == Reported(s.books.reports)[i];
    }
  }

  lemma ExitHonest(s: State, init: int, x: int, how: Death)
    requires Honest(s, init) && Inv(s, init) && CanExit(s, x, init)
    ensures Honest(ExitProc(s, x, init, how), init)
  {
    var core := Final(s.procs[x], how);
    BeginHonest(s, init, x, core);
    BegunHonest(s, init, x, core);
    BegunKeeps(s, init, x, core);
    AdoptFromHonest(Begun(s, x, core), init, x, 0);
  }

  lemma BegunHonest(s: State, init: int, x: int, how: Death)
    requires Bounded(s) && Runs(s, x) && Honest(BeginExit(s, x, how), init)
    ensures Honest(Begun(s, x, how), init)
  {
    var u := BeginExit(s, x, how);
    IdentityKeeps(u, MarkZombie(u, x), init);
    CheckParentHonest(MarkZombie(u, x), init, x, false);
  }

  lemma RestartHonest(s: State, init: int, x: int, dump: bool)
    requires Honest(s, init) && 0 <= x < |s.procs| && s.procs[x].inUse && s.procs[x].exiting
    ensures Honest(ExitRestart(s, x, dump), init)
  {
    IdentityKeeps(s, MarkZombie(s, x), init);
    CheckParentHonest(MarkZombie(s, x), init, x, false);
    var z := if dump then Zombify(s, x) else s;
    IdentityKeeps(z, Cleanup(z, x), init);
  }

  // That a core was written is noted before anybody is told.
  lemma AnsweredHonest(s: State, init: int, e: Endpoint, dumped: bool)
    requires Honest(s, init) && AskedFor(s) && Identified(s) && Accounted(s) && DumpsAsked(s) && e in s.books.asked
    ensures 0 <= e.slot < |s.procs| && Honest(Answered(s, e, dumped), init)
  {
    AskedSlot(s, e);
    var u := Answered(s, e, dumped);
    assert Tracked(s.books, s.procs[e.slot]);
    forall c | 0 <= c < |u.procs| ensures Vouched(u, init, c) {
      assert Vouched(s, init, c);
    }
    forall i | 0 <= i < |u.books.reports| ensures TrueReport(u.books, u.procs[init].endpoint, u.books.reports[i]) {
      assert TrueReport(s.books, s.procs[init].endpoint, s.books.reports[i]);
      assert s.books.reports[i].child == Reported(s.books.reports)[i];
    }
  }

  lemma VfsReplyHonest(s: State, init: int, e: Endpoint, dumped: bool)
    requires Honest(s, init) && Inv(s, init) && e in s.books.asked
    ensures 0 <= e.slot < |s.procs| && Honest(VfsReply(s, e, dumped), init)
  {
    AskedSlot(s, e);
    var u := Answered(s, e, dumped);
    AnsweredHonest(s, init, e, dumped);
    if !GoesOn(s.books.asked[e]) {
      RestartHonest(u, init, e.slot, s.books.asked[e] == CoreAsk);
    }
  }

  lemma ForkHonest(s: State, init: int, p: int, k: int, pid: int, e: Endpoint)
    requires Honest(s, init) && CanFork(s, p, k, pid, e) && Rooted(s, init) && Parented(s, -1, 0)
    ensures Honest(Fork(s, p, k, pid, e), init)
  {
    var u := Fork(s, p, k, pid, e);
    forall c | 0 <= c < |u.procs| ensures Vouched(u, init, c) {
      assert Vouched(s, init, c) && HasParent(s, -1, 0, c);
    }
    forall i | 0 <= i < |u.books.reports| ensures TrueReport(u.books, u.procs[init].endpoint, u.books.reports[i]) {
      assert TrueReport(s.books, s.procs[init].endpoint, s.books.reports[i]);
    }
  }

  lemma WaitpidHonest(s: State, init: int, p: int, pid: int, noHang: bool)
    requires Honest(s, init) && Flagged(s) && Runs(s, p)
    ensures Honest(Waitpid(s, p, pid, noHang), init)
  {
    var arg := WaitArg(s.procs[p], pid);
    var k := FirstDead(s, p, arg, 0);
    if k < |s.procs| {
      assert FlagsOk(s.procs[k]);
      var told := TellParent(s, k);
      TellHonest(s, init, k);
      IdentityKeeps(told, Cleanup(told, k), init);
    } else {
      IdentityKeeps(s, SetWait(s, p, true, arg), init);
    }
  }

  lemma SetsidHonest(s: State, init: int, p: int)
    requires Honest(s, init) && Runs(s, p)
    ensures Honest(Setsid(s, p), init)
  {
    var u := Setsid(s, p);
    assert Vouched(s, init, p);
    forall c | 0 <= c < |u.procs| ensures Vouched(u, init, c) {
      assert Vouched(s, init, c);
    }
  }
}
