// Whole runs of the process manager, from the boot image on.
module PmRuns {
  import opened PmModel
  import opened PmInvariant
  import opened PmSteps
  import opened PmExit
  import opened PmLife
  import opened PmReports
  import opened PmSleep

  datatype Event =
    | Forks(p: int, k: int, pid: int, e: Endpoint)
    | Exits(x: int, how: Death)
    | Waits(p: int, pid: int, noHang: bool)
    | Answers(e: Endpoint, dumped: bool)
    | Interrupts(p: int)
    | Regroups(p: int)

  // What the surroundings promise: the kernel hands out fresh endpoints, nobody
  // is exited or calls while the file system works for it or while it sleeps in
  // wait, init never exits, and the file system answers what it was asked, once.
  predicate Legal(s: State, init: int, ev: Event) {
    match ev
    case Forks(p, k, pid, e) => Runs(s, p) && !TableFull(s, p) ==> CanFork(s, p, k, pid, e)
    case Exits(x, _) => Runs(s, x) ==> CanExit(s, x, init)
    case Waits(_, _, _) => true
    case Answers(e, _) => e in s.books.asked
    case Interrupts(_) => true
    case Regroups(p) => Runs(s, p) ==> CanSetsid(s, p)
  }

  ghost predicate Sound(s: State, init: int) {
    var holds := Inv(s, init) && Honest(s, init) && ZeroKept(s, init);
    holds
  }

  // Calls from processes that do not run any more are dropped.
  ghost function Step(s: State, init: int, ev: Event): State
    requires Inv(s, init) && Legal(s, init, ev)
  {
    match ev
    case Forks(p, k, pid, e) => if Runs(s, p) && !TableFull(s, p) then Fork(s, p, k, pid, e) else s
    case Exits(x, how) => if Runs(s, x) then ExitProc(s, x, init, how) else s
    case Waits(p, pid, noHang) => if Runs(s, p) then Waitpid(s, p, pid, noHang) else s
    case Answers(e, dumped) => AskedSlot(s, e); VfsReply(s, e, dumped)
    case Interrupts(p) => if Runs(s, p) then CancelWait(s, p) else s
    case Regroups(p) => if Runs(s, p) && s.procs[p].procgrp != s.procs[p].pid then Setsid(s, p) else s
  }

  lemma StepKeeps(s: State, init: int, ev: Event)
    requires Inv(s, init) && Legal(s, init, ev)
    ensures Inv(Step(s, init, ev), init)
  {
    match ev
    case Forks(p, k, pid, e) => if Runs(s, p) && !TableFull(s, p) { ForkKeeps(s, init, p, k, pid, e); }
    case Exits(x, how) => if Runs(s, x) { ExitKeeps(s, init, x, how); }
    case Waits(p, pid, noHang) => if Runs(s, p) { WaitpidKeeps(s, init, p, pid, noHang); }
    case Answers(e, dumped) => VfsReplyKeeps(s, init, e, dumped);
    case Interrupts(p) => if Runs(s, p) { CancelWaitKeeps(s, init, p); }
    case Regroups(p) => if Runs(s, p) { SetsidKeeps(s, init, p); }
  }

  lemma StepHonest(s: State, init: int, ev: Event)
    requires Sound(s, init) && Legal(s, init, ev)
    ensures Honest(Step(s, init, ev), init)
  {
    match ev
    case Forks(p, k, pid, e) => if Runs(s, p) && !TableFull(s, p) { ForkHonest(s, init, p, k, pid, e); }
    case Exits(x, how) => if Runs(s, x) { ExitHonest(s, init, x, how); }
    case Waits(p, pid, noHang) => if Runs(s, p) { WaitpidHonest(s, init, p, pid, noHang); }
    case Answers(e, dumped) => VfsReplyHonest(s, init, e, dumped);
    case Interrupts(p) => if Runs(s, p) { IdentityKeeps(s, CancelWait(s, p), init); }
    case Regroups(p) => if Runs(s, p) { SetsidHonest(s, init, p); }
  }

  lemma StepZero(s: State, init: int, ev: Event)
    requires Inv(s, init) && ZeroKept(s, init) && Legal(s, init, ev)
    ensures ZeroKept(Step(s, init, ev), init)
  {
    if ev.Waits? {
      if Runs(s, ev.p) { WaitpidZero(s, init, ev.p, ev.pid, ev.noHang); }
    } else if ev.Forks? {
      if Runs(s, ev.p) && !TableFull(s, ev.p) { ForkZero(s, init, ev.p, ev.k, ev.pid, ev.e); }
    } else if ev.Regroups? {
      if Runs(s, ev.p) { SetsidZero(s, init, ev.p); }
    } else {
      StepCalm(s, init, ev);
      CalmZero(s, Step(s, init, ev), init);
    }
  }

  // Only fork, wait and a change of group can change who sleeps for whom.
  lemma StepCalm(s: State, init: int, ev: Event)
    requires Inv(s, init) && Legal(s, init, ev) && !ev.Waits? && !ev.Forks? && !ev.Regroups?
    ensures CalmStep(s, Step(s, init, ev))
  {
    match ev
    case Exits(x, how) => if Runs(s, x) { ExitCalm(s, x, init, how); }
    case Answers(e, dumped) =>
      AskedSlot(s, e);
      VfsReplyCalm(s, e, dumped);
    case Interrupts(p) =>
  }

  // ------------------------------------------------------------------- runs

  ghost predicate LegalRun(s: State, init: int, evs: seq<Event>)
    requires Inv(s, init)
    decreases evs
  {
    evs == [] ||
    (Legal(s, init, evs[0]) && (StepKeeps(s, init, evs[0]); LegalRun(Step(s, init, evs[0]), init, evs[1..])))
  }

  ghost function Run(s: State, init: int, evs: seq<Event>): (u: State)
    requires Inv(s, init) && LegalRun(s, init, evs)
    ensures Inv(u, init)
    decreases evs
  {
    if evs == [] then s
    else StepKeeps(s, init, evs[0]); Run(Step(s, init, evs[0]), init, evs[1..])
  }

  // A run with a first event, taken apart and put together.
  lemma RunFirst(s: State, init: int, ev: Event, evs: seq<Event>)
    requires Inv(s, init) && LegalRun(s, init, [ev] + evs)
    ensures Legal(s, init, ev) && Inv(Step(s, init, ev), init) && LegalRun(Step(s, init, ev), init, evs)
    ensures Run(s, init, [ev] + evs) == Run(Step(s, init, ev), init, evs)
  {
    var all := [ev] + evs;
    assert all[0] == ev && all[1..] == evs;
    StepKeeps(s, init, ev);
  }

  lemma RunCons(s: State, init: int, ev: Event, evs: seq<Event>)
    requires Inv(s, init) && Legal(s, init, ev)
    requires Inv(Step(s, init, ev), init) && LegalRun(Step(s, init, ev), init, evs)
    ensures LegalRun(s, init, [ev] + evs)
    ensures Run(s, init, [ev] + evs) == Run(Step(s, init, ev), init, evs)
  {
    var all := [ev] + evs;
    assert all[0] == ev && all[1..] == evs;
  }

  lemma ConcatHead(evs: seq<Event>, more: seq<Event>)
    ensures evs == [] ==> evs + more == more
    ensures evs != [] ==> evs + more == [evs[0]] + (evs[1..] + more)
  {
  }

  lemma {:induction false} RunConcat(s: State, init: int, evs: seq<Event>, more: seq<Event>)
    requires Inv(s, init) && LegalRun(s, init, evs) && LegalRun(Run(s, init, evs), init, more)
    ensures LegalRun(s, init, evs + more)
    ensures Run(s, init, evs + more) == Run(Run(s, init, evs), init, more)
    decreases evs
  {
    ConcatHead(evs, more);
    if evs != [] {
      StepKeeps(s, init, evs[0]);
      RunConcat(Step(s, init, evs[0]), init, evs[1..], more);
      RunCons(s, init, evs[0], evs[1..] + more);
    }
  }

  lemma RunSnoc(s: State, init: int, evs: seq<Event>, ev: Event)
    requires Inv(s, init) && LegalRun(s, init, evs) && Legal(Run(s, init, evs), init, ev)
    ensures LegalRun(s, init, evs + [ev])
    ensures Run(s, init, evs + [ev]) == Step(Run(s, init, evs), init, ev)
  {
    var u := Run(s, init, evs);
    StepKeeps(u, init, ev);
    RunCons(u, init, ev, []);
    assert [ev] + [] == [ev];
    RunConcat(s, init, evs, [ev]);
  }

  lemma {:induction false} RunSound(s: State, init: int, evs: seq<Event>)
    requires Sound(s, init) && LegalRun(s, init, evs)
    ensures Sound(Run(s, init, evs), init)
    decreases evs
  {
    if evs != [] {
      StepKeeps(s, init, evs[0]);
      StepHonest(s, init, evs[0]);
      StepZero(s, init, evs[0]);
      RunSound(Step(s, init, evs[0]), init, evs[1..]);
    }
  }

  // ------------------------------------------------------------------- boot

  // The table made from the boot image: init is its own parent and leads its own
  // group, the parent of the reincarnation server is init, and that of all others
  // is the latter; all but init are in group 0.
  ghost predicate Booted(s: State, init: int, rs: int) {
    && 0 < init < |s.procs| && 0 < rs < |s.procs| && init != rs && s.procs[init].inUse && s.procs[rs].inUse
    && (forall c :: 0 <= c < |s.procs| ==> BootSlot(s.procs[c], c, init, rs))
    && (forall c, k :: 0 <= c < k < |s.procs| && s.procs[c].inUse && s.procs[k].inUse ==>
          s.procs[c].pid != s.procs[k].pid)
    && s.used == Total(Used, s.procs)
    && s.books.asked == map[] && s.books.said == map[] && s.books.cored == {}
    && s.books.exits == [] && s.books.reports == [] && s.books.freed == []
    && s.books.utime == s.books.stime == 0
    && (forall c :: 0 <= c < |s.procs| && s.procs[c].inUse ==>
          && s.procs[c].endpoint in s.books.born
          && s.books.born[s.procs[c].endpoint] == s.procs[if c == init || c == rs then init else rs].endpoint)
  }

  predicate BootSlot(x: Slot, c: int, init: int, rs: int) {
    && !x.exiting && !x.zombie && !x.toldParent && !x.waiting && !x.vfsCall
    && x.childUtime == 0 && x.childStime == 0 && x.sigStatus == 0 && x.procgrp == (if c == init then x.pid else 0)
    && (if x.inUse then x.parent == (if c == init || c == rs then init else rs) && x.endpoint.slot == c && x.pid > 0
        else x.parent == 0)
  }

  lemma {:induction false} NoTime(m: Measure, t: seq<Slot>)
    requires m != Used && forall c :: 0 <= c < |t| ==> t[c].childUtime == 0 && t[c].childStime == 0
    ensures Total(m, t) == 0
  {
    if t != [] {
      NoTime(m, t[..|t| - 1]);
    }
  }

  lemma BootFrame(s: State, init: int, rs: int)
    requires Booted(s, init, rs)
    ensures Rooted(s, init) && Parented(s, -1, 0) && Tree(s, init)
  {
    forall c | 0 <= c < |s.procs| ensures BootSlot(s.procs[c], c, init, rs) {
    }
    forall c | 0 <= c < |s.procs| ensures HasParent(s, -1, 0, c) {
      assert BootSlot(s.procs[c], c, init, rs);
    }
    var d := seq(|s.procs|, c => if c == init then 0 else if c == rs then 1 else 2);
    assert Descends(s, init, d);
  }

  lemma BootCore(s: State, init: int, rs: int)
    requires Booted(s, init, rs)
    ensures Core(s, init, -1, 0)
  {
    BootFrame(s, init, rs);
    forall c | 0 <= c < |s.procs| ensures FlagsOk(s.procs[c]) && (s.procs[c].inUse ==> Tracked(s.books, s.procs[c])) {
      assert BootSlot(s.procs[c], c, init, rs);
    }
    NoTime(Utime, s.procs);
    NoTime(Stime, s.procs);
  }

  // The boot image has everything that is then kept.
  lemma BootSound(s: State, init: int, rs: int)
    requires Booted(s, init, rs)
    ensures Sound(s, init)
  {
    BootCore(s, init, rs);
    forall c | 0 <= c < |s.procs| ensures Woken(s, c) && Vouched(s, init, c) {
      assert BootSlot(s.procs[c], c, init, rs);
    }
    forall c | 0 <= c < |s.procs| ensures !s.procs[c].exiting && !s.procs[c].toldParent {
      assert BootSlot(s.procs[c], c, init, rs);
    }
  }
}
