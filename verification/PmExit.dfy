// Exit in both halves: the adoption of children, and the file system's reply.
module PmExit {
  import opened PmModel
  import opened PmInvariant
  import opened PmSteps

  // ---------------------------------------------------------------- adoption

  lemma ReparentParented(s: State, init: int, x: int, c: int)
    requires Rooted(s, init) && Parented(s, x, c) && 0 <= c < |s.procs| && c != init
    requires s.procs[c].parent == x
    ensures Rooted(Reparent(s, c, init), init) && Parented(Reparent(s, c, init), x, c + 1)
  {
    var u, next := Reparent(s, c, init), c + 1;
    forall k | 0 <= k < |s.procs| ensures HasParent(u, x, next, k) {
      assert HasParent(s, x, c, k);
    }
  }

  lemma ReparentTree(s: State, init: int, c: int)
    requires Tree(s, init) && 0 <= c < |s.procs| && c != init && s.procs[c].inUse
    ensures Bounded(s) && Tree(Reparent(s, c, init), init)
  {
    var d :| Descends(s, init, d);
    assert Descends(Reparent(s, c, init), init, d);
  }

  lemma ReparentBalanced(s: State, init: int, c: int)
    requires Bounded(s) && Balanced(s) && 0 <= c < |s.procs| && 0 <= init < |s.procs|
    ensures Balanced(Reparent(s, c, init))
  {
    var y := Reparent(s, c, init).procs[c];
    TotalUpdate(Used, s.procs, c, y);
    TotalUpdate(Utime, s.procs, c, y);
    TotalUpdate(Stime, s.procs, c, y);
  }

  lemma ReparentAccounted(s: State, init: int, c: int)
    requires Bounded(s) && Accounted(s) && 0 <= c < |s.procs| && 0 <= init < |s.procs|
    ensures Accounted(Reparent(s, c, init))
  {
  }

  lemma ReparentFlags(s: State, init: int, c: int)
    requires Bounded(s) && Flagged(s) && 0 <= c < |s.procs| && 0 <= init < |s.procs|
    ensures Flagged(Reparent(s, c, init))
  {
  }

  lemma ReparentAsked(s: State, init: int, c: int)
    requires Bounded(s) && AskedFor(s) && 0 <= c < |s.procs| && 0 <= init < |s.procs|
    ensures AskedFor(Reparent(s, c, init))
  {
  }

  lemma ReparentIdentified(s: State, init: int, c: int)
    requires Bounded(s) && Identified(s) && 0 <= c < |s.procs| && 0 <= init < |s.procs|
    ensures Identified(Reparent(s, c, init))
  {
  }

  lemma NotOwnParent(s: State, init: int, c: int)
    requires Rooted(s, init) && Tree(s, init) && 0 <= c < |s.procs| && s.procs[c].inUse && s.procs[c].parent != init
    ensures c != init && s.procs[c].parent != c
  {
  }

  lemma ReparentCore(s: State, init: int, x: int, c: int)
    requires Core(s, init, x, c) && 0 <= c < |s.procs| && x != init && s.procs[c].inUse && s.procs[c].parent == x
    ensures c != x && Core(Reparent(s, c, init), init, x, c + 1)
  {
    NotOwnParent(s, init, c);
    ReparentAsked(s, init, c);
    ReparentIdentified(s, init, c);
    ReparentParented(s, init, x, c);
    ReparentTree(s, init, c);
    ReparentFlags(s, init, c);
    ReparentBalanced(s, init, c);
    ReparentAccounted(s, init, c);
  }

  lemma ReparentRest(s: State, init: int, c: int)
    requires NoLostWakeup(s) && DumpsAsked(s) && Settled(s) && 0 <= c < |s.procs| && 0 <= init < |s.procs|
    ensures var u := Reparent(s, c, init);
            WakeupsBut(u, c) && DumpsAsked(u) && Settled(u) && (!s.procs[c].zombie ==> NoLostWakeup(u))
  {
    var u := Reparent(s, c, init);
    forall k | 0 <= k < |s.procs| && (k == c ==> !s.procs[c].zombie) ensures Woken(u, k) {
      assert Woken(s, k);
    }
  }

  lemma SkipParented(s: State, x: int, c: int)
    requires Parented(s, x, c) && 0 <= c < |s.procs| && (s.procs[c].inUse ==> s.procs[c].parent != x)
    ensures Parented(s, x, c + 1)
  {
    var next := c + 1;
    forall k | 0 <= k < |s.procs| ensures HasParent(s, x, next, k) {
      assert HasParent(s, x, c, k);
    }
  }

  lemma SkipKeeps(s: State, init: int, x: int, c: int)
    requires Good(s, init, x, c) && 0 <= c < |s.procs| && (s.procs[c].inUse ==> s.procs[c].parent != x)
    ensures Good(s, init, x, c + 1)
  {
    SkipParented(s, x, c);
  }

  lemma RecheckKeeps(s: State, init: int, x: int, i: int, c: int)
    requires Core(s, init, x, i) && WakeupsBut(s, c) && DumpsAsked(s) && Settled(s)
    requires 0 <= c < |s.procs| && c != x && s.procs[c].zombie && s.procs[c].parent > 0
    ensures Good(CheckParent(s, c, true), init, x, i)
  {
    assert FlagsOk(s.procs[c]);
    CheckParentKeeps(s, init, x, i, c, true);
  }

  lemma AdoptKeeps(s: State, init: int, x: int, c: int)
    requires Good(s, init, x, c) && 0 <= c < |s.procs| && x != init
    ensures Good(Adopt(s, x, init, c), init, x, c + 1)
  {
    if s.procs[c].inUse && s.procs[c].parent == x {
      ReparentCore(s, init, x, c);
      ReparentRest(s, init, c);
      var u := Reparent(s, c, init);
      if u.procs[c].zombie {
        RecheckKeeps(u, init, x, c + 1, c);
      }
    } else {
      SkipKeeps(s, init, x, c);
    }
  }

  lemma DoneParented(s: State, x: int)
    requires Parented(s, x, |s.procs|)
    ensures Parented(s, -1, 0)
  {
    forall k | 0 <= k < |s.procs| ensures HasParent(s, -1, 0, k) {
      assert HasParent(s, x, |s.procs|, k);
    }
  }

  lemma DoneKeeps(s: State, init: int, x: int)
    requires Good(s, init, x, |s.procs|)
    ensures Inv(s, init)
  {
    DoneParented(s, x);
  }

  lemma {:induction false} AdoptFromKeeps(s: State, init: int, x: int, c: int)
    requires Good(s, init, x, c) && 0 <= c <= |s.procs| && x != init
    ensures Inv(AdoptFrom(s, x, init, c), init)
    decreases |s.procs| - c
  {
    if c == |s.procs| {
      DoneKeeps(s, init, x);
    } else {
      AdoptKeeps(s, init, x, c);
      AdoptFromKeeps(Adopt(s, x, init, c), init, x, c + 1);
    }
  }

  // ---------------------------------------------------------- first half

  lemma BeginParented(s: State, init: int, x: int, how: Death)
    requires Rooted(s, init) && Parented(s, -1, 0) && 0 <= x < |s.procs| && x != init
    ensures var u := BeginExit(s, x, how); Rooted(u, init) && Parented(u, x, 0)
  {
    var u := BeginExit(s, x, how);
    forall c | 0 <= c < |u.procs| && u.procs[c].inUse
      ensures HasParent(u, x, 0, c)
    {
      assert HasParent(s, -1, 0, c);
    }
  }

  lemma BeginTree(s: State, init: int, x: int, how: Death)
    requires Tree(s, init) && Bounded(s) && 0 <= x < |s.procs|
    ensures Tree(BeginExit(s, x, how), init)
  {
    var d :| Descends(s, init, d);
    assert Descends(BeginExit(s, x, how), init, d);
  }

  lemma BeginFlags(s: State, x: int, how: Death)
    requires Bounded(s) && Flagged(s) && 0 <= x < |s.procs| && s.procs[x].inUse
    ensures Flagged(BeginExit(s, x, how))
  {
  }

  // The requests outstanding, apart from that of x, are those there were.
  lemma OthersAsked(s: State, x: int, how: Death)
    requires Bounded(s) && AskedFor(s) && 0 <= x < |s.procs| && s.procs[x].endpoint.slot == x
    ensures var u := BeginExit(s, x, how);
            forall e :: e in u.books.asked && e != s.procs[x].endpoint ==>
              && InTable(u, e) && u.procs[e.slot].vfsCall
              && (GoesOn(u.books.asked[e]) <==> !u.procs[e.slot].exiting)
  {
    var u := BeginExit(s, x, how);
    forall e | e in u.books.asked && e != s.procs[x].endpoint
      ensures InTable(u, e) && u.procs[e.slot].vfsCall && (GoesOn(u.books.asked[e]) <==> !u.procs[e.slot].exiting)
    {
      assert InTable(s, e) && s.procs[e.slot].vfsCall && e.slot != x;
    }
  }

  lemma BeginAsked(s: State, x: int, how: Death)
    requires Bounded(s) && AskedFor(s) && Identified(s) && Flagged(s) && 0 <= x < |s.procs| && s.procs[x].inUse
    ensures AskedFor(BeginExit(s, x, how))
  {
    OthersAsked(s, x, how);
    forall c | 0 <= c < |s.procs| ensures FlagsOk(s.procs[c]) {
    }
  }

  lemma BeginIdentified(s: State, x: int, how: Death)
    requires Bounded(s) && Identified(s) && 0 <= x < |s.procs|
    ensures Identified(BeginExit(s, x, how))
  {
    var u := BeginExit(s, x, how);
    forall c | 0 <= c < |u.procs|
      ensures var y, z := s.procs[c], u.procs[c];
              y.pid == z.pid && y.procgrp == z.procgrp && y.inUse == z.inUse && y.endpoint == z.endpoint
    {
    }
  }

  // What x used itself and what had been charged to it moves to its parent.
  lemma BeginBalanced(s: State, x: int, how: Death)
    requires Bounded(s) && Balanced(s) && 0 <= x < |s.procs| && Live(s.procs[x])
    requires s.procs[x].parent != x && Live(s.procs[s.procs[x].parent])
    ensures Balanced(BeginExit(s, x, how))
  {
    var u, p := BeginExit(s, x, how), s.procs[x].parent;
    var paid := s.procs[p := u.procs[p]];
    assert u.procs == paid[x := u.procs[x]];
    forall m: Measure ensures Total(m, u.procs) == Total(m, s.procs) - Weight(m, s.procs[p]) + Weight(m, u.procs[p])
                                                   - Weight(m, s.procs[x]) + Weight(m, u.procs[x]) {
      TotalUpdate(m, s.procs, p, u.procs[p]);
      TotalUpdate(m, paid, x, u.procs[x]);
    }
    assert Total(Used, u.procs) == s.used;
  }

  lemma BeginAccounted(s: State, x: int, how: Death)
    requires Bounded(s) && Accounted(s) && Identified(s) && Flagged(s) && 0 <= x < |s.procs| && Live(s.procs[x])
    ensures Accounted(BeginExit(s, x, how))
  {
    var u := BeginExit(s, x, how);
    assert Tracked(s.books, s.procs[x]) && FlagsOk(s.procs[x]);
    forall k | 0 <= k < |u.procs| && u.procs[k].inUse ensures Tracked(u.books, u.procs[k]) {
      assert Tracked(s.books, s.procs[k]);
    }
    forall e | e in u.books.exits ensures e in u.books.born && (e in u.books.freed || InTable(u, e)) {
      assert e == s.procs[x].endpoint || e in s.books.exits;
    }
  }

  lemma LiveParent(s: State, init: int, x: int)
    requires Rooted(s, init) && Parented(s, -1, 0) && Tree(s, init) && Runs(s, x) && x != init
    ensures s.procs[x].parent != x && Live(s.procs[s.procs[x].parent])
  {
    assert HasParent(s, -1, 0, x);
    var d :| Descends(s, init, d);
  }

  lemma BeginCore(s: State, init: int, x: int, how: Death)
    requires Core(s, init, -1, 0) && CanExit(s, x, init)
    ensures Core(BeginExit(s, x, how), init, x, 0)
  {
    LiveParent(s, init, x);
    BeginParented(s, init, x, how);
    BeginTree(s, init, x, how);
    BeginFlags(s, x, how);
    BeginAsked(s, x, how);
    BeginIdentified(s, x, how);
    BeginBalanced(s, x, how);
    BeginAccounted(s, x, how);
  }

  lemma BeginRest(s: State, init: int, x: int, how: Death)
    requires Identified(s) && Flagged(s) && CanExit(s, x, init) && NoLostWakeup(s) && DumpsAsked(s) && Settled(s)
    ensures var u := BeginExit(s, x, how);
            && NoLostWakeup(u) && DumpsBut(u, x) && (how.dump ==> DumpsAsked(u)) && Settled(u)
            && u.procs[x].vfsCall && u.books.asked[u.procs[x].endpoint] == (if how.dump then CoreAsk else ExitAsk)
  {
    assert FlagsOk(s.procs[x]);
    var u := BeginExit(s, x, how);
    forall c | 0 <= c < |u.procs| ensures Woken(u, c) {
      assert Woken(s, c);
    }
  }

  // A process with no dump pending any more becomes a zombie.
  lemma MarkFlags(s: State, c: int)
    requires Bounded(s) && Flagged(s) && 0 <= c < |s.procs| && DumpPending(s.procs[c])
    ensures FlagStep(s, MarkZombie(s, c)) && Flagged(MarkZombie(s, c))
  {
  }

  lemma MarkAsked(s: State, c: int)
    requires Bounded(s) && AskedFor(s) && 0 <= c < |s.procs|
    ensures AskedFor(MarkZombie(s, c))
  {
  }

  lemma MarkAccounted(s: State, c: int)
    requires Bounded(s) && Accounted(s) && 0 <= c < |s.procs|
    ensures Accounted(MarkZombie(s, c))
  {
  }

  lemma MarkCore(s: State, init: int, x: int, i: int, c: int)
    requires Core(s, init, x, i) && 0 <= c < |s.procs| && DumpPending(s.procs[c])
    ensures Core(MarkZombie(s, c), init, x, i)
  {
    MarkFlags(s, c);
    MarkAsked(s, c);
    MarkAccounted(s, c);
    FlagStepKeeps(s, MarkZombie(s, c), init, x, i);
  }

  // s is fit for the death of c to be made known.
  ghost predicate Dying(s: State, c: int) {
    && 0 <= c < |s.procs| && DumpPending(s.procs[c])
    && NoLostWakeup(s) && DumpsBut(s, c) && Settled(s)
    && (s.procs[c].endpoint in s.books.asked ==> s.books.asked[s.procs[c].endpoint] != CoreAsk)
  }

  lemma MarkRest(s: State, c: int)
    requires Dying(s, c)
    ensures var u := MarkZombie(s, c); WakeupsBut(u, c) && DumpsAsked(u) && Settled(u)
  {
    forall k | 0 <= k < |s.procs| && k != c ensures Woken(MarkZombie(s, c), k) {
      assert Woken(s, k);
    }
  }

  lemma MarkTellable(s: State, init: int, x: int, i: int, c: int)
    requires Flagged(s) && Parented(s, x, i) && 0 <= c < |s.procs| && DumpPending(s.procs[c])
    ensures CanTell(MarkZombie(s, c), c)
  {
    assert FlagsOk(s.procs[c]) && HasParent(s, x, i, c);
  }

  lemma ZombifyKeeps(s: State, init: int, x: int, i: int, c: int)
    requires Core(s, init, x, i) && Dying(s, c)
    ensures var u := Zombify(s, c);
            && Core(u, init, x, i) && NoLostWakeup(u) && DumpsAsked(u) && SettledBut(u, c)
            && (s.procs[c].vfsCall ==> Settled(u))
            && u.procs[c].inUse && u.procs[c].exiting && u.procs[c].vfsCall == s.procs[c].vfsCall
  {
    MarkCore(s, init, x, i, c);
    MarkRest(s, c);
    MarkTellable(s, init, x, i, c);
    CheckParentKeeps(MarkZombie(s, c), init, x, i, c, false);
  }

  lemma BegunKeeps(s: State, init: int, x: int, how: Death)
    requires Inv(s, init) && CanExit(s, x, init)
    ensures Good(Begun(s, x, how), init, x, 0)
  {
    BeginCore(s, init, x, how);
    BeginRest(s, init, x, how);
    if !how.dump {
      ZombifyKeeps(BeginExit(s, x, how), init, x, 0, x);
    }
  }

  lemma ExitKeeps(s: State, init: int, x: int, how: Death)
    requires Inv(s, init) && CanExit(s, x, init)
    ensures Inv(ExitProc(s, x, init, how), init)
  {
    BegunKeeps(s, init, x, Final(s.procs[x], how));
    AdoptFromKeeps(Begun(s, x, Final(s.procs[x], how)), init, x, 0);
  }
}
