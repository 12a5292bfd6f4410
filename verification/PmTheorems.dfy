// What follows for every state that a run can reach.
module PmTheorems {
  import opened PmModel
  import opened PmInvariant
  import opened PmSteps
  import opened PmExit
  import opened PmLife
  import opened PmReports
  import opened PmRuns

  // ------------------------------------------------------------------- tree

  // The ancestor n steps up.
  function Ancestor(s: State, c: int, n: nat): (a: int)
    requires Bounded(s) && 0 <= c < |s.procs|
    ensures 0 <= a < |s.procs|
    decreases n
  {
    if n == 0 then c else Ancestor(s, s.procs[c].parent, n - 1)
  }

  // c comes down from init through live processes only.
  ghost predicate UnderInit(s: State, init: int, c: int)
    requires Bounded(s) && 0 <= c < |s.procs|
  {
    exists n: nat :: Ancestor(s, c, n) == init && forall k: nat :: 0 < k <= n ==> Live(s.procs[Ancestor(s, c, k)])
  }

  lemma {:induction false} Climb(s: State, init: int, c: int, d: seq<nat>)
    requires Rooted(s, init) && Parented(s, -1, 0) && Descends(s, init, d) && 0 <= c < |s.procs| && s.procs[c].inUse
    ensures UnderInit(s, init, c)
    decreases d[c]
  {
    var up := s.procs[c].parent;
    if c == init {
      assert Ancestor(s, c, 0) == init;
    } else {
      assert HasParent(s, -1, 0, c);
      Climb(s, init, up, d);
      var n: nat :| Ancestor(s, up, n) == init && forall k: nat :: 0 < k <= n ==> Live(s.procs[Ancestor(s, up, k)]);
      assert Ancestor(s, c, n + 1) == init;
      forall k: nat | 0 < k <= n + 1 ensures Live(s.procs[Ancestor(s, c, k)]) {
        assert Ancestor(s, c, k) == Ancestor(s, up, k - 1);
        assert Ancestor(s, up, 0) == up;
      }
    }
  }

  // In every reachable state the parent relation is a tree under init, and no
  // parent is a free slot or an exiting process.
  lemma TreeTheorem(s: State, init: int, evs: seq<Event>, c: int)
    requires Sound(s, init) && LegalRun(s, init, evs)
    requires var u := Run(s, init, evs); 0 <= c < |u.procs| && u.procs[c].inUse
    ensures var u := Run(s, init, evs);
            && Bounded(u) && UnderInit(u, init, c) && Live(u.procs[u.procs[c].parent])
            && (u.procs[c].parent == c ==> c == init)
  {
    var u := Run(s, init, evs);
    var d :| Descends(u, init, d);
    Climb(u, init, c, d);
    assert HasParent(u, -1, 0, c);
  }

  // -------------------------------------------------------------- exactly once

  // In every reachable state an exiting process is a zombie, or its parent has
  // been told, or the file system is asked for its core: one of the three, never
  // two. One that was reported is kept only for an unanswered request, and only
  // exiting processes are any of these.
  lemma OneOfThree(s: State, init: int, evs: seq<Event>, c: int)
    requires Sound(s, init) && LegalRun(s, init, evs)
    requires var u := Run(s, init, evs); 0 <= c < |u.procs|
    ensures var u := Run(s, init, evs);
            var x := u.procs[c];
            var dumping := x.inUse && x.endpoint in u.books.asked && u.books.asked[x.endpoint] == CoreAsk;
            && (x.exiting <==> x.zombie || x.toldParent || dumping)
            && !(x.zombie && x.toldParent) && !(x.zombie && dumping) && !(x.toldParent && dumping)
            && (x.toldParent ==> x.vfsCall && u.books.asked[x.endpoint] == ExitAsk)
  {
    var u := Run(s, init, evs);
    assert FlagsOk(u.procs[c]);
    if u.procs[c].inUse && u.procs[c].endpoint in u.books.asked {
      AskedSlot(u, u.procs[c].endpoint);
    }
  }

  // How often e occurs.
  function Count(es: seq<Endpoint>, e: Endpoint): nat {
    if es == [] then 0 else Count(es[..|es| - 1], e) + (if es[|es| - 1] == e then 1 else 0)
  }

  lemma {:induction false} CountOnce(es: seq<Endpoint>, e: Endpoint)
    requires Once(es)
    ensures Count(es, e) == (if e in es then 1 else 0)
  {
    if es != [] {
      var front := es[..|es| - 1];
      assert es == front + [es[|es| - 1]];
      CountOnce(front, e);
    }
  }

  // Of every process that has exited: it is reported at most once; its slot is
  // freed at most once, and has been freed exactly when its parent has been told
  // and the file system has answered, in either order; until then it is in the
  // table. Only exited processes are ever reported or freed.
  lemma ExactlyOnce(s: State, init: int, evs: seq<Event>, e: Endpoint)
    requires Sound(s, init) && LegalRun(s, init, evs)
    ensures var u := Run(s, init, evs);
            var b := u.books;
            && Count(b.exits, e) <= 1 && Count(Reported(b.reports), e) <= Count(b.exits, e)
            && (Count(b.freed, e) == 1 <==> Count(Reported(b.reports), e) == 1 && e !in b.asked)
            && Count(b.freed, e) <= Count(Reported(b.reports), e)
            && (Count(b.exits, e) == 1 ==> (Count(b.freed, e) == 0 <==> InTable(u, e)))
  {
    var u := Run(s, init, evs);
    var b := u.books;
    CountOnce(b.exits, e);
    CountOnce(Reported(b.reports), e);
    CountOnce(b.freed, e);
    FreedWhen(u, e);
  }

  lemma FreedWhen(u: State, e: Endpoint)
    requires Accounted(u) && AskedFor(u) && Settled(u) && Flagged(u)
    ensures e in u.books.freed <==> e in Reported(u.books.reports) && e !in u.books.asked
    ensures InTable(u, e) ==> e !in u.books.freed
  {
  }

  // ------------------------------------------------------------ file system

  // Every answer finds its process in the table under that endpoint with its
  // request outstanding, and no process has two: the next state is again sound.
  lemma AnswersWelcome(s: State, init: int, evs: seq<Event>, e: Endpoint)
    requires Sound(s, init) && LegalRun(s, init, evs)
    ensures var u := Run(s, init, evs);
            && (e in u.books.asked <==> InTable(u, e) && u.procs[e.slot].vfsCall)
            && (forall c :: CanExit(u, c, init) ==> u.procs[c].endpoint !in u.books.asked)
  {
    var u := Run(s, init, evs);
    if e in u.books.asked {
      AskedSlot(u, e);
    }
    forall c | CanExit(u, c, init) ensures u.procs[c].endpoint !in u.books.asked {
      assert u.procs[c].endpoint.slot == c;
    }
  }

  // ------------------------------------------------------------------- slots

  lemma {:induction false} UsedAll(t: seq<Slot>)
    ensures Total(Used, t) <= |t|
    ensures Total(Used, t) == |t| <==> forall c :: 0 <= c < |t| ==> t[c].inUse
  {
    if t != [] {
      var front := t[..|t| - 1];
      UsedAll(front);
      assert forall c :: 0 <= c < |front| ==> front[c] == t[c];
    }
  }

  // The counter is full exactly when the table is: a fork that passes the test
  // finds a slot.
  lemma RoomForFork(s: State, init: int, evs: seq<Event>)
    requires Sound(s, init) && LegalRun(s, init, evs)
    ensures var u := Run(s, init, evs);
            && u.used <= |u.procs|
            && (u.used < |u.procs| <==> exists c :: 0 <= c < |u.procs| && !u.procs[c].inUse)
  {
    UsedAll(Run(s, init, evs).procs);
  }

  // In every reachable state no two processes share a pid or an endpoint, and no
  // process bears the endpoint of one that was freed.
  lemma NamesUnique(s: State, init: int, evs: seq<Event>, c: int, k: int)
    requires Sound(s, init) && LegalRun(s, init, evs)
    requires var u := Run(s, init, evs);
             0 <= c < |u.procs| && 0 <= k < |u.procs| && u.procs[c].inUse && u.procs[k].inUse
    ensures var u := Run(s, init, evs);
            && u.procs[c].pid > 0 && u.procs[c].endpoint !in u.books.freed
            && (c != k ==> u.procs[c].pid != u.procs[k].pid && u.procs[c].endpoint != u.procs[k].endpoint)
  {
    var u := Run(s, init, evs);
    assert Tracked(u.books, u.procs[c]);
  }

  // ----------------------------------------------------------------- reports

  // Every report in every run tells the truth, to the right process.
  lemma ReportsTrue(s: State, init: int, evs: seq<Event>, i: nat)
    requires Sound(s, init) && LegalRun(s, init, evs)
    requires i < |Run(s, init, evs).books.reports|
    ensures var u := Run(s, init, evs);
            Rooted(u, init) && TrueReport(u.books, u.procs[init].endpoint, u.books.reports[i])
  {
    RunSound(s, init, evs);
  }

  // -------------------------------------------------------------------- time

  // The processor time that an event puts on record.
  function Spent(m: Measure, s: State, ev: Event): int {
    if ev.Exits? && Runs(s, ev.x) then
      match m
      case Used => 0
      case Utime => ev.how.utime
      case Stime => ev.how.stime
    else 0
  }

  ghost function SpentInRun(m: Measure, s: State, init: int, evs: seq<Event>): int
    requires Inv(s, init) && LegalRun(s, init, evs)
    decreases evs
  {
    if evs == [] then 0
    else StepKeeps(s, init, evs[0]); Spent(m, s, evs[0]) + SpentInRun(m, Step(s, init, evs[0]), init, evs[1..])
  }

  // Only reports and freed slots may be new.
  predicate SameRecord(a: Books, b: Books) {
    && b.utime == a.utime && b.stime == a.stime && b.said == a.said && b.exits == a.exits && b.cored == a.cored
    && b.asked == a.asked && b.born == a.born
  }

  lemma {:induction false} AdoptRecord(s: State, x: int, init: int, c: int)
    requires Bounded(s) && 0 <= c <= |s.procs| && 0 < init < |s.procs|
    ensures SameRecord(s.books, AdoptFrom(s, x, init, c).books)
    decreases |s.procs| - c
  {
    if c < |s.procs| {
      AdoptRecord(Adopt(s, x, init, c), x, init, c + 1);
    }
  }

  // The books when x ends: a core is asked for if the signal says so, the process
  // runs with its own user's rights and is no system process.
  function Ended(b: Books, x: Slot, how: Death): Books {
    var core := how.dump && x.realUid == x.effUid && !x.priv;
    b.(utime := b.utime + how.utime, stime := b.stime + how.stime, exits := b.exits + [x.endpoint],
       asked := b.asked[x.endpoint := if core then CoreAsk else ExitAsk],
       said := b.said[x.endpoint := Said(x.pid, AsChar(how.status), how.sig)])
  }

  // The file system answers that it has written the core of e.
  predicate Writes(s: State, ev: Event, e: Endpoint) {
    ev == Answers(e, true) && e in s.books.asked && s.books.asked[e] == CoreAsk
  }

  // What an event puts on record.
  function Booked(s: State, ev: Event): Books {
    var b := s.books;
    match ev
    case Exits(x, how) => if Runs(s, x) then Ended(b, s.procs[x], how) else b
    case Forks(p, _, _, e) =>
      if Runs(s, p) && !TableFull(s, p) then
        b.(asked := b.asked[e := ForkAsk], born := b.born[e := s.procs[p].endpoint])
      else b
    case Regroups(p) =>
      if Runs(s, p) && s.procs[p].procgrp != s.procs[p].pid then b.(asked := b.asked[s.procs[p].endpoint := SetsidAsk])
      else b
    case Answers(e, _) => b.(asked := b.asked - {e}, cored := b.cored + if Writes(s, ev, e) then {e} else {})
    case _ => b
  }

  lemma ExitRecord(s: State, x: int, init: int, how: Death)
    requires Bounded(s) && CanExit(s, x, init)
    ensures SameRecord(Ended(s.books, s.procs[x], how), ExitProc(s, x, init, how).books)
  {
    AdoptRecord(Begun(s, x, Final(s.procs[x], how)), x, init, 0);
  }

  lemma VfsReplyRecord(s: State, e: Endpoint, dumped: bool)
    requires Bounded(s) && e in s.books.asked && 0 <= e.slot < |s.procs|
    ensures SameRecord(Answered(s, e, dumped).books, VfsReply(s, e, dumped).books)
  {
  }

  lemma WaitpidRecord(s: State, p: int, pid: int, noHang: bool)
    requires Bounded(s) && Runs(s, p)
    ensures SameRecord(s.books, Waitpid(s, p, pid, noHang).books)
  {
  }

  // That and nothing else is put on record.
  lemma StepRecord(s: State, init: int, ev: Event)
    requires Inv(s, init) && Legal(s, init, ev)
    ensures SameRecord(Booked(s, ev), Step(s, init, ev).books)
  {
    match ev
    case Exits(x, how) => if Runs(s, x) { ExitRecord(s, x, init, how); }
    case Answers(e, dumped) =>
      AskedSlot(s, e);
      VfsReplyRecord(s, e, dumped);
    case Waits(p, pid, noHang) => if Runs(s, p) { WaitpidRecord(s, p, pid, noHang); }
    case _ =>
  }

  // The times charged to live processes grow by exactly what the exiting
  // processes used, through reparenting, fork and the reuse of slots.
  lemma {:induction false} TimeConserved(m: Measure, s: State, init: int, evs: seq<Event>)
    requires Inv(s, init) && LegalRun(s, init, evs) && m != Used
    ensures Total(m, Run(s, init, evs).procs) == Total(m, s.procs) + SpentInRun(m, s, init, evs)
    decreases evs
  {
    if evs != [] {
      StepKeeps(s, init, evs[0]);
      StepRecord(s, init, evs[0]);
      TimeConserved(m, Step(s, init, evs[0]), init, evs[1..]);
    }
  }

  // ------------------------------------------------------------- exit values

  // What an exited process said stays on record.
  lemma {:induction false} SaidStays(s: State, init: int, evs: seq<Event>, e: Endpoint)
    requires Inv(s, init) && LegalRun(s, init, evs) && e in s.books.exits && e in s.books.said
    ensures var b := Run(s, init, evs).books; e in b.said && b.said[e] == s.books.said[e]
    decreases evs
  {
    if evs != [] {
      StepKeeps(s, init, evs[0]);
      StepRecord(s, init, evs[0]);
      NotExitedTwice(s, init, evs[0], e);
      SaidStays(Step(s, init, evs[0]), init, evs[1..], e);
    }
  }

  lemma NotExitedTwice(s: State, init: int, ev: Event, e: Endpoint)
    requires Accounted(s) && e in s.books.exits
    ensures ev.Exits? && Runs(s, ev.x) ==> s.procs[ev.x].endpoint != e
  {
    if ev.Exits? && Runs(s, ev.x) {
      assert Tracked(s.books, s.procs[ev.x]);
    }
  }

  // The core of e is written in the course of evs.
  ghost predicate Written(s: State, init: int, evs: seq<Event>, e: Endpoint)
    requires Inv(s, init) && LegalRun(s, init, evs)
    decreases evs
  {
    evs != [] &&
    (Writes(s, evs[0], e) || (StepKeeps(s, init, evs[0]); Written(Step(s, init, evs[0]), init, evs[1..], e)))
  }

  lemma {:induction false} CoredWhen(s: State, init: int, evs: seq<Event>, e: Endpoint)
    requires Inv(s, init) && LegalRun(s, init, evs)
    ensures e in Run(s, init, evs).books.cored <==> e in s.books.cored || Written(s, init, evs, e)
    decreases evs
  {
    if evs != [] {
      StepKeeps(s, init, evs[0]);
      StepRecord(s, init, evs[0]);
      CoredWhen(Step(s, init, evs[0]), init, evs[1..], e);
    }
  }

  // From an exit to the end of the run: whoever is told of this death is told the
  // pid of the process, the low byte of its status and the signal that killed it,
  // with the dump bit exactly if the file system has answered that it wrote the core.
  lemma ValueReported(s: State, init: int, ev: Event, evs: seq<Event>, i: nat)
    requires Sound(s, init) && ev.Exits? && Runs(s, ev.x) && Legal(s, init, ev)
    requires Inv(Step(s, init, ev), init) && LegalRun(Step(s, init, ev), init, evs)
    requires i < |Run(Step(s, init, ev), init, evs).books.reports|
    requires Run(Step(s, init, ev), init, evs).books.reports[i].child == s.procs[ev.x].endpoint
    ensures var r := Run(Step(s, init, ev), init, evs).books.reports[i];
            var dumped := Written(Step(s, init, ev), init, evs, r.child);
            && r.pid == s.procs[ev.x].pid && r.status / 256 == AsChar(ev.how.status)
            && r.status % 256 == (if dumped then SetDumped(ev.how.sig) else ev.how.sig) % 256
  {
    var t, e := Step(s, init, ev), s.procs[ev.x].endpoint;
    StepHonest(s, init, ev);
    StepZero(s, init, ev);
    ReportsTrue(t, init, evs, i);
    StepRecord(s, init, ev);
    SaidStays(t, init, evs, e);
    CoredWhen(t, init, evs, e);
    assert Vouched(s, init, ev.x);
  }
}
