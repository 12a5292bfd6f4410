// Calls of wait and their answers: a report ends the wait of the process it goes to,
// and no process is sent more reports than it has called wait.
module PmCalls {
  import opened PmModel
  import opened PmInvariant
  import opened PmSteps
  import opened PmExit
  import opened PmLife
  import opened PmReports
  import opened PmSleep
  import opened PmRuns
  import opened PmWaits

  // -------------------------------------------------- a report ends the wait

  // Whoever was sent a report on the way from s to u does not sleep in u.
  ghost predicate Quieted(s: State, u: State) {
    && |u.procs| == |s.procs| && |s.books.reports| <= |u.books.reports|
    && u.books.reports[..|s.books.reports|] == s.books.reports
    && forall i :: |s.books.reports| <= i < |u.books.reports| ==> Awake(u, u.books.reports[i].parent)
  }

  predicate Awake(u: State, e: Endpoint) {
    0 <= e.slot < |u.procs| ==> !u.procs[e.slot].waiting
  }

  lemma QuietedTwice(s: State, t: State, u: State)
    requires Quieted(s, t) && Quieted(t, u) && CalmStep(t, u)
    ensures Quieted(s, u)
  {
    forall i | |s.books.reports| <= i < |u.books.reports| ensures Awake(u, u.books.reports[i].parent) {
      if i < |t.books.reports| {
        var e := t.books.reports[i].parent;
        assert u.books.reports[i] == t.books.reports[i] && Awake(t, e);
        if 0 <= e.slot < |t.procs| {
          assert Sleeps(t.procs[e.slot], u.procs[e.slot]);
        }
      }
    }
  }

  lemma TellQuiets(s: State, c: int)
    requires Bounded(s) && 0 <= c < |s.procs| && s.procs[s.procs[c].parent].endpoint.slot == s.procs[c].parent
    ensures Quieted(s, TellParent(s, c))
  {
  }

  lemma CleanupQuiets(s: State, c: int)
    requires Bounded(s) && 0 <= c < |s.procs|
    ensures Quieted(s, Cleanup(s, c)) && CalmStep(s, Cleanup(s, c))
  {
  }

  lemma CheckParentQuiets(s: State, c: int, tryCleanup: bool)
    requires Bounded(s) && 0 <= c < |s.procs| && Identified(s) && Flagged(s)
    ensures Quieted(s, CheckParent(s, c, tryCleanup))
  {
    assert FlagsOk(s.procs[s.procs[c].parent]);
    if WaitTest(s.procs[s.procs[c].parent], s.procs[c]) {
      var told := TellParent(s, c);
      TellQuiets(s, c);
      CleanupQuiets(told, c);
      QuietedTwice(s, told, Cleanup(told, c));
    }
  }

  lemma {:induction false} AdoptFromQuiets(s: State, init: int, x: int, c: int)
    requires Good(s, init, x, c) && 0 <= c <= |s.procs| && x != init
    ensures Quieted(s, AdoptFrom(s, x, init, c))
    decreases |s.procs| - c
  {
    if c < |s.procs| {
      var t := Adopt(s, x, init, c);
      AdoptKeeps(s, init, x, c);
      AdoptQuiets(s, init, x, c);
      AdoptFromQuiets(t, init, x, c + 1);
      AdoptFromCalm(t, x, init, c + 1);
      QuietedTwice(s, t, AdoptFrom(t, x, init, c + 1));
    }
  }

  lemma AdoptQuiets(s: State, init: int, x: int, c: int)
    requires Bounded(s) && Identified(s) && Flagged(s) && 0 <= c < |s.procs| && 0 < init < |s.procs|
    ensures Quieted(s, Adopt(s, x, init, c))
  {
    if s.procs[c].inUse && s.procs[c].parent == x {
      var moved := Reparent(s, c, init);
      ReparentFlags(s, init, c);
      ReparentIdentified(s, init, c);
      CheckParentQuiets(moved, c, true);
    }
  }

  lemma ZombifyQuiets(s: State, c: int)
    requires Bounded(s) && Identified(s) && Flagged(s) && 0 <= c < |s.procs| && DumpPending(s.procs[c])
    ensures Quieted(s, Zombify(s, c))
  {
    MarkFlags(s, c);
    FlagStepIdentified(s, MarkZombie(s, c));
    CheckParentQuiets(MarkZombie(s, c), c, false);
  }

  lemma BegunQuiets(s: State, x: int, how: Death)
    requires Bounded(s) && Identified(s) && Flagged(s) && Runs(s, x)
    ensures Quieted(s, Begun(s, x, how))
  {
    if !how.dump {
      BeginFlags(s, x, how);
      BeginIdentified(s, x, how);
      ZombifyQuiets(BeginExit(s, x, how), x);
    }
  }

  lemma ExitQuiets(s: State, init: int, x: int, how: Death)
    requires Inv(s, init) && CanExit(s, x, init)
    ensures Quieted(s, ExitProc(s, x, init, how))
  {
    var t := Begun(s, x, Final(s.procs[x], how));
    BegunQuiets(s, x, Final(s.procs[x], how));
    BegunKeeps(s, init, x, Final(s.procs[x], how));
    AdoptFromQuiets(t, init, x, 0);
    AdoptFromCalm(t, x, init, 0);
    QuietedTwice(s, t, AdoptFrom(t, x, init, 0));
  }

  lemma RestartQuiets(s: State, c: int, dump: bool)
    requires Bounded(s) && Identified(s) && Flagged(s) && 0 <= c < |s.procs| && (dump ==> DumpPending(s.procs[c]))
    ensures Quieted(s, ExitRestart(s, c, dump))
  {
    var z := if dump then Zombify(s, c) else s;
    if dump {
      ZombifyQuiets(s, c);
    }
    CleanupQuiets(z, c);
    QuietedTwice(s, z, Cleanup(z, c));
  }

  lemma VfsReplyQuiets(s: State, init: int, e: Endpoint, dumped: bool)
    requires Inv(s, init) && e in s.books.asked
    ensures InTable(s, e) && Quieted(s, VfsReply(s, e, dumped))
  {
    AskedSlot(s, e);
    AnsweredFlags(s, e, dumped);
    FlagStepIdentified(s, Answered(s, e, dumped));
    VfsReplyIs(s, e, dumped);
    if !GoesOn(s.books.asked[e]) {
      RestartQuiets(Answered(s, e, dumped), e.slot, s.books.asked[e] == CoreAsk);
    }
  }

  lemma CollectQuiets(s: State, init: int, c: int)
    requires Inv(s, init) && 0 <= c < |s.procs| && s.procs[c].zombie
    ensures Quieted(s, Collect(s, c))
  {
    assert FlagsOk(s.procs[c]) && HasParent(s, -1, 0, c);
    var told := TellParent(s, c);
    TellQuiets(s, c);
    CleanupQuiets(told, c);
    QuietedTwice(s, told, Cleanup(told, c));
  }

  // In every step, a process that is sent a report, init adopting zombies included,
  // does not sleep in wait any more at its end.
  lemma ReportEndsWait(s: State, init: int, ev: Event)
    requires Inv(s, init) && Legal(s, init, ev)
    ensures Quieted(s, Step(s, init, ev))
  {
    match ev
    case Exits(x, how) => if Runs(s, x) { ExitQuiets(s, init, x, how); }
    case Answers(e, dumped) => VfsReplyQuiets(s, init, e, dumped);
    case Waits(p, pid, noHang) =>
      if Runs(s, p) {
        var k := FirstDead(s, p, WaitArg(s.procs[p], pid), 0);
        if k < |s.procs| { CollectQuiets(s, init, k); }
      }
    case _ =>
  }

  // ------------------------------------------------------- reports and calls

  function ReportsTo(rs: seq<Report>, e: Endpoint): nat {
    if rs == [] then 0 else ReportsTo(rs[..|rs| - 1], e) + (if rs[|rs| - 1].parent == e then 1 else 0)
  }

  predicate Asleep(s: State, e: Endpoint) {
    0 <= e.slot < |s.procs| && s.procs[e.slot].endpoint == e && s.procs[e.slot].waiting
  }

  // Answers that e has had, and one more if it waits for one.
  function Credit(s: State, e: Endpoint): nat {
    ReportsTo(s.books.reports, e) + if Asleep(s, e) then 1 else 0
  }

  lemma TellCredit(s: State, c: int, e: Endpoint)
    requires Bounded(s) && 0 <= c < |s.procs| && s.procs[s.procs[c].parent].endpoint.slot == s.procs[c].parent
    ensures var p := s.procs[s.procs[c].parent];
            Credit(TellParent(s, c), e) == Credit(s, e) + if p.endpoint == e && !p.waiting then 1 else 0
  {
    var r := Report(s.procs[s.procs[c].parent].endpoint, s.procs[c].endpoint, s.procs[c].pid, StatusWord(s.procs[c]));
    var rs := s.books.reports;
    assert (rs + [r])[..|rs|] == rs;
  }

  lemma CheckParentCredit(s: State, c: int, tryCleanup: bool, e: Endpoint)
    requires Bounded(s) && 0 <= c < |s.procs| && Identified(s) && Flagged(s)
    ensures Credit(CheckParent(s, c, tryCleanup), e) <= Credit(s, e)
  {
    assert FlagsOk(s.procs[s.procs[c].parent]);
    if WaitTest(s.procs[s.procs[c].parent], s.procs[c]) {
      TellCredit(s, c, e);
    }
  }

  lemma AdoptCredit(s: State, init: int, x: int, c: int, e: Endpoint)
    requires Bounded(s) && Identified(s) && Flagged(s) && 0 <= c < |s.procs| && 0 < init < |s.procs|
    ensures Credit(Adopt(s, x, init, c), e) <= Credit(s, e)
  {
    if s.procs[c].inUse && s.procs[c].parent == x {
      ReparentFlags(s, init, c);
      ReparentIdentified(s, init, c);
      CheckParentCredit(Reparent(s, c, init), c, true, e);
    }
  }

  lemma {:induction false} AdoptFromCredit(s: State, init: int, x: int, c: int, e: Endpoint)
    requires Good(s, init, x, c) && 0 <= c <= |s.procs| && x != init
    ensures Credit(AdoptFrom(s, x, init, c), e) <= Credit(s, e)
    decreases |s.procs| - c
  {
    if c < |s.procs| {
      AdoptKeeps(s, init, x, c);
      AdoptCredit(s, init, x, c, e);
      AdoptFromCredit(Adopt(s, x, init, c), init, x, c + 1, e);
    }
  }

  lemma ZombifyCredit(s: State, c: int, e: Endpoint)
    requires Bounded(s) && Identified(s) && Flagged(s) && 0 <= c < |s.procs| && DumpPending(s.procs[c])
    ensures Credit(Zombify(s, c), e) <= Credit(s, e)
  {
    MarkFlags(s, c);
    FlagStepIdentified(s, MarkZombie(s, c));
    CheckParentCredit(MarkZombie(s, c), c, false, e);
  }

  lemma BeginCredit(s: State, x: int, how: Death, e: Endpoint)
    requires Bounded(s) && 0 <= x < |s.procs|
    ensures Credit(BeginExit(s, x, how), e) <= Credit(s, e)
  {
  }

  lemma BegunCredit(s: State, x: int, how: Death, e: Endpoint)
    requires Bounded(s) && Identified(s) && Flagged(s) && Runs(s, x)
    ensures Credit(Begun(s, x, how), e) <= Credit(s, e)
  {
    BeginCredit(s, x, how, e);
    if !how.dump {
      BeginFlags(s, x, how);
      BeginIdentified(s, x, how);
      ZombifyCredit(BeginExit(s, x, how), x, e);
    }
  }

  lemma ExitCredit(s: State, init: int, x: int, how: Death, e: Endpoint)
    requires Inv(s, init) && CanExit(s, x, init)
    ensures Credit(ExitProc(s, x, init, how), e) <= Credit(s, e)
  {
    BegunCredit(s, x, Final(s.procs[x], how), e);
    BegunKeeps(s, init, x, Final(s.procs[x], how));
    AdoptFromCredit(Begun(s, x, Final(s.procs[x], how)), init, x, 0, e);
  }

  lemma AnsweredCredit(s: State, f: Endpoint, dumped: bool, e: Endpoint)
    requires Bounded(s) && f in s.books.asked && 0 <= f.slot < |s.procs|
    ensures Credit(Answered(s, f, dumped), e) == Credit(s, e)
  {
  }

  lemma CleanupCredit(s: State, c: int, e: Endpoint)
    requires Bounded(s) && 0 <= c < |s.procs|
    ensures Credit(Cleanup(s, c), e) <= Credit(s, e)
  {
  }

  lemma RestartCredit(s: State, c: int, dump: bool, e: Endpoint)
    requires Bounded(s) && Identified(s) && Flagged(s) && 0 <= c < |s.procs| && (dump ==> DumpPending(s.procs[c]))
    ensures Credit(ExitRestart(s, c, dump), e) <= Credit(s, e)
  {
    if dump {
      ZombifyCredit(s, c, e);
    }
    CleanupCredit(if dump then Zombify(s, c) else s, c, e);
  }

  lemma VfsReplyCredit(s: State, init: int, f: Endpoint, dumped: bool, e: Endpoint)
    requires Inv(s, init) && f in s.books.asked
    ensures InTable(s, f) && Credit(VfsReply(s, f, dumped), e) <= Credit(s, e)
  {
    AskedSlot(s, f);
    AnsweredCredit(s, f, dumped, e);
    AnsweredFlags(s, f, dumped);
    FlagStepIdentified(s, Answered(s, f, dumped));
    VfsReplyIs(s, f, dumped);
    if !GoesOn(s.books.asked[f]) {
      RestartCredit(Answered(s, f, dumped), f.slot, s.books.asked[f] == CoreAsk, e);
    }
  }

  lemma WaitpidCredit(s: State, init: int, p: int, pid: int, noHang: bool, e: Endpoint)
    requires Inv(s, init) && Runs(s, p)
    ensures Credit(Waitpid(s, p, pid, noHang), e) <= Credit(s, e) + if s.procs[p].endpoint == e then 1 else 0
  {
    var k := FirstDead(s, p, WaitArg(s.procs[p], pid), 0);
    if k < |s.procs| {
      TellCredit(s, k, e);
    }
  }

  // Whether ev is a call of wait by e.
  predicate CallsWait(s: State, ev: Event, e: Endpoint) {
    ev.Waits? && Runs(s, ev.p) && s.procs[ev.p].endpoint == e
  }

  lemma StepCredit(s: State, init: int, ev: Event, e: Endpoint)
    requires Inv(s, init) && Legal(s, init, ev)
    ensures Credit(Step(s, init, ev), e) <= Credit(s, e) + if CallsWait(s, ev, e) then 1 else 0
  {
    match ev
    case Exits(x, how) => if Runs(s, x) { ExitCredit(s, init, x, how, e); }
    case Answers(f, dumped) => VfsReplyCredit(s, init, f, dumped, e);
    case Waits(p, pid, noHang) => if Runs(s, p) { WaitpidCredit(s, init, p, pid, noHang, e); }
    case _ =>
  }

  ghost function Calls(s: State, init: int, evs: seq<Event>, e: Endpoint): nat
    requires Inv(s, init) && LegalRun(s, init, evs)
    decreases evs
  {
    if evs == [] then 0
    else
      StepKeeps(s, init, evs[0]);
      (if CallsWait(s, evs[0], e) then 1 else 0) + Calls(Step(s, init, evs[0]), init, evs[1..], e)
  }

  lemma {:induction false} RunCredit(s: State, init: int, evs: seq<Event>, e: Endpoint)
    requires Inv(s, init) && LegalRun(s, init, evs)
    ensures Credit(Run(s, init, evs), e) <= Credit(s, e) + Calls(s, init, evs, e)
    decreases evs
  {
    if evs != [] {
      StepKeeps(s, init, evs[0]);
      StepCredit(s, init, evs[0], e);
      RunCredit(Step(s, init, evs[0]), init, evs[1..], e);
    }
  }

  // Over every run from a boot image: the reports a process has been sent, and one
  // more if it sleeps, are no more than its calls of wait.
  lemma OneReportPerCall(s: State, init: int, rs: int, evs: seq<Event>, e: Endpoint)
    requires Booted(s, init, rs) && Sound(s, init) && LegalRun(s, init, evs)
    ensures var u := Run(s, init, evs);
            ReportsTo(u.books.reports, e) + (if Asleep(u, e) then 1 else 0) <= Calls(s, init, evs, e)
  {
    if 0 <= e.slot < |s.procs| {
      assert BootSlot(s.procs[e.slot], e.slot, init, rs);
    }
    RunCredit(s, init, evs, e);
  }
}
