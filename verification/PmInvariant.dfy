// What every step of the process manager keeps.
module PmInvariant {
  import opened PmModel

  // ------------------------------------------------------------ predicates

  ghost predicate Rooted(s: State, init: int) {
    0 < init < |s.procs| && Live(s.procs[init]) && s.procs[init].parent == init
  }

  // Every process has a live parent. While the exit of x is under way, the
  // children of x from slot i on are still to be given away.
  ghost predicate Parented(s: State, x: int, i: int) {
    Bounded(s) && forall c :: 0 <= c < |s.procs| ==> HasParent(s, x, i, c)
  }

  ghost predicate HasParent(s: State, x: int, i: int, c: int)
    requires Bounded(s) && 0 <= c < |s.procs|
  {
    s.procs[c].inUse ==>
      var p := s.procs[c].parent;
      p > 0 && s.procs[p].inUse && (s.procs[p].exiting ==> p == x && c >= i)
  }

  // d decreases along the parent relation, down to init.
  ghost predicate Descends(s: State, init: int, d: seq<nat>) {
    |d| == |s.procs| && Bounded(s) && 0 <= init < |d| && d[init] == 0
    && forall c {:trigger s.procs[c]} :: 0 <= c < |s.procs| && s.procs[c].inUse && c != init ==>
         d[s.procs[c].parent] < d[c]
  }

  ghost predicate Tree(s: State, init: int) {
    exists d :: Descends(s, init, d)
  }

  // The flags of one slot.
  predicate FlagsOk(x: Slot) {
    && (!x.inUse ==> !x.exiting && !x.zombie && !x.toldParent && !x.waiting && !x.vfsCall)
    && (x.zombie || x.toldParent ==> x.exiting)
    && !(x.zombie && x.toldParent)
    && (x.exiting ==> !x.waiting)
    && (Live(x) ==> x.sigStatus == 0)
  }

  ghost predicate Flagged(s: State) {
    forall c :: 0 <= c < |s.procs| ==> FlagsOk(s.procs[c])
  }

  // An exiting process whose core is being written: neither zombie nor reported.
  predicate DumpPending(x: Slot) {
    x.exiting && !x.zombie && !x.toldParent
  }

  // Outstanding requests and the flag for them are the same thing, and the kind
  // of request fits the state of the process.
  ghost predicate AskedFor(s: State) {
    && (forall c :: 0 <= c < |s.procs| && s.procs[c].vfsCall ==> s.procs[c].endpoint in s.books.asked)
    && (forall e :: e in s.books.asked ==>
          && 0 <= e.slot < |s.procs| && s.procs[e.slot].inUse
          && s.procs[e.slot].endpoint == e && s.procs[e.slot].vfsCall
          && (GoesOn(s.books.asked[e]) <==> !s.procs[e.slot].exiting))
  }

  // A dump is pending exactly while the file system works on it.
  ghost predicate DumpsAsked(s: State) {
    forall c :: 0 <= c < |s.procs| && s.procs[c].exiting ==>
      (DumpPending(s.procs[c]) <==>
       s.procs[c].endpoint in s.books.asked && s.books.asked[s.procs[c].endpoint] == CoreAsk)
  }

  // A reported process is kept only for the file system's sake.
  ghost predicate Settled(s: State) {
    forall c :: 0 <= c < |s.procs| && s.procs[c].toldParent ==> s.procs[c].vfsCall
  }

  ghost predicate Identified(s: State) {
    && (forall c :: 0 <= c < |s.procs| ==> s.procs[c].procgrp >= 0)
    && (forall c :: 0 <= c < |s.procs| && s.procs[c].inUse ==> s.procs[c].endpoint.slot == c && s.procs[c].pid > 0)
    && (forall c, k :: 0 <= c < k < |s.procs| && s.procs[c].inUse && s.procs[k].inUse ==>
          s.procs[c].pid != s.procs[k].pid)
  }

  // Nobody sleeps in wait while a child that would wake it is dead and unreported.
  ghost predicate NoLostWakeup(s: State) {
    Bounded(s) && forall c :: 0 <= c < |s.procs| ==> Woken(s, c)
  }

  ghost predicate Woken(s: State, c: int)
    requires Bounded(s) && 0 <= c < |s.procs|
  {
    s.procs[c].zombie ==> !WaitTest(s.procs[s.procs[c].parent], s.procs[c])
  }

  // ---------------------------------------------------------------- totals

  datatype Measure = Used | Utime | Stime

  function Weight(m: Measure, x: Slot): int {
    match m
    case Used => if x.inUse then 1 else 0
    case Utime => if Live(x) then x.childUtime else 0
    case Stime => if Live(x) then x.childStime else 0
  }

  function Total(m: Measure, t: seq<Slot>): int {
    if t == [] then 0 else Total(m, t[..|t| - 1]) + Weight(m, t[|t| - 1])
  }

  // The counter of slots in use is right, and the times charged to live
  // processes are those used by all exited ones.
  ghost predicate Balanced(s: State) {
    Total(Used, s.procs) == s.used && Total(Utime, s.procs) == s.books.utime && Total(Stime, s.procs) == s.books.stime
  }

  lemma {:induction false} TotalUpdate(m: Measure, t: seq<Slot>, i: nat, x: Slot)
    requires i < |t|
    ensures Total(m, t[i := x]) == Total(m, t) - Weight(m, t[i]) + Weight(m, x)
  {
    var k := |t| - 1;
    if i == k {
      assert t[i := x][..k] == t[..k];
    } else {
      assert t[i := x][..k] == t[..k][i := x];
      TotalUpdate(m, t[..k], i, x);
    }
  }

  // ---------------------------------------------------------------- ledger

  ghost predicate Once(es: seq<Endpoint>) {
    forall i, j :: 0 <= i < j < |es| ==> es[i] != es[j]
  }

  function Reported(rs: seq<Report>): (es: seq<Endpoint>)
    ensures |es| == |rs|
  {
    seq(|rs|, i requires 0 <= i < |rs| => rs[i].child)
  }

  ghost predicate InTable(s: State, e: Endpoint) {
    0 <= e.slot < |s.procs| && s.procs[e.slot].inUse && s.procs[e.slot].endpoint == e
  }

  // Exits, reports and freed slots, each process at most once in each; a process
  // is freed only after it was reported, reported only after it exited, and an
  // exited process is in the table until it is freed.
  ghost predicate Accounted(s: State) {
    var b := s.books;
    && Once(b.exits) && Once(Reported(b.reports)) && Once(b.freed)
    && (forall e :: e in b.exits ==> e in b.born && (e in b.freed || InTable(s, e)))
    && (forall e :: e in Reported(b.reports) ==> e in b.exits)
    && (forall e :: e in b.freed ==> e in Reported(b.reports))
    && (forall c :: 0 <= c < |s.procs| && s.procs[c].inUse ==> Tracked(b, s.procs[c]))
  }

  ghost predicate Tracked(b: Books, x: Slot) {
    && x.endpoint in b.born && x.endpoint !in b.freed
    && (x.exiting <==> x.endpoint in b.exits)
    && (x.toldParent <==> x.endpoint in Reported(b.reports))
  }

  // -------------------------------------------------------- the invariant

  // What holds at every moment, even in the middle of an exit of x with the
  // children from slot i on not yet adopted. The conjunction is bound to a name so
  // that proofs pass it on as one fact and not conjunct by conjunct.
  ghost predicate Core(s: State, init: int, x: int, i: int) {
    var holds := Rooted(s, init) && Parented(s, x, i) && Tree(s, init) && Flagged(s) && AskedFor(s)
                 && Identified(s) && Balanced(s) && Accounted(s);
    holds
  }

  ghost predicate Good(s: State, init: int, x: int, i: int) {
    var holds := Core(s, init, x, i) && NoLostWakeup(s) && DumpsAsked(s) && Settled(s);
    holds
  }

  // The invariant between steps: no exit under way.
  ghost predicate Inv(s: State, init: int) {
    Good(s, init, -1, 0)
  }

  // ------------------------------------------------------------- selection

  // waitpid's choice and the test made at a child's death agree for every
  // argument but 0.
  lemma SelectionAgrees(p: Slot, c: Slot)
    requires c.pid > 0 && c.procgrp >= 0 && p.waiting && p.wpid != 0
    ensures WaitTest(p, c) <==> Selects(p.wpid, c)
  {
  }

  // For 0 they differ on every child outside process group 0.
  lemma SelectionDiffers(p: Slot, c: Slot)
    requires c.pid > 0 && c.procgrp >= 0 && p.waiting && p.wpid == 0
    ensures Selects(p.wpid, c)
    ensures WaitTest(p, c) <==> c.procgrp == 0
  {
  }
}
