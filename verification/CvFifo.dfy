// Each mutex is a line: its owner followed by its queue. Every step acts on a
// line in one of five simple ways, which gives the closed form of broadcast and
// the FIFO guarantees over whole runs.
module CvFifo {
  import opened Sequences
  import opened CvModel
  import opened CvInvariant
  import opened CvExit

  function Line(s: State, m: int): seq<int> {
    if m in s.mutexes then [s.mutexes[m].owner] + s.mutexes[m].queue else []
  }

  // The waiters that came with mutex m, in wait order.
  function Coming(ws: seq<Waiter>, m: int): seq<int> {
    if ws == [] then []
    else (if ws[0].mutex == m then [ws[0].proc] else []) + Coming(ws[1..], m)
  }

  // The line of m after a step, from the line before and the wait list of the
  // condition variable that is announced.
  function LineAfter(line: seq<int>, ws: seq<Waiter>, r: Request, m: int): seq<int> {
    match r
    case Lock(p, n) => if n != m || (line != [] && line[0] == p) then line else line + [p]
    case Unlock(p, n) => if n == m && line != [] && line[0] == p then line[1..] else line
    case Wait(p, _, n) => if n == m && line != [] && line[0] == p then line[1..] else line
    case Broadcast(_, _) => line + Coming(ws, m)
    case Unknown(_) => line
    case Interrupt(p) => if line == [] then [] else [line[0]] + Without(line[1..], p)
    case Exit(p) => Without(line, p)
  }

  lemma WakeFirstLine(s: State, c: int, m: int)
    requires WaitersReleased(s) && Waiters(s, c) != []
    ensures var w := Waiters(s, c)[0];
            Line(WakeFirst(s, c), m) == Line(s, m) + if w.mutex == m then [w.proc] else []
  {
  }

  lemma {:induction false} WakeAllLine(s: State, c: int, m: int)
    requires Inv(s)
    ensures Line(WakeAll(s, c).state, m) == Line(s, m) + Coming(Waiters(s, c), m)
    decreases |Waiters(s, c)|
  {
    var ws := Waiters(s, c);
    if ws != [] {
      WakeFirstKeeps(s, c);
      WakeFirstLine(s, c, m);
      WakeAllLine(WakeFirst(s, c), c, m);
      var first := if ws[0].mutex == m then [ws[0].proc] else [];
      assert (Line(s, m) + first) + Coming(ws[1..], m) == Line(s, m) + (first + Coming(ws[1..], m));
    }
  }

  // Broadcast answers 0 to the first waiter of each free mutex, and to nobody
  // else; the others queue.
  lemma {:induction false} WakeAllReplies(s: State, c: int, r: Reply)
    requires Inv(s)
    ensures r in WakeAll(s, c).replies <==>
            exists m :: m !in s.mutexes && Coming(Waiters(s, c), m) != [] && r == Reply(Coming(Waiters(s, c), m)[0], Ok)
    decreases |Waiters(s, c)|
  {
    var ws := Waiters(s, c);
    if ws != [] {
      var w, t := ws[0], WakeFirst(s, c);
      assert w in Waiters(s, c);
      WakeFirstKeeps(s, c);
      WakeAllReplies(t, c, r);
      assert forall n :: n in t.mutexes <==> n in s.mutexes || n == w.mutex;
      assert forall n :: n != w.mutex ==> Coming(ws, n) == Coming(ws[1..], n);
      assert Coming(ws, w.mutex)[0] == w.proc;
      assert w.mutex !in s.mutexes <==> WakeFirstReplies(s, c) == [Reply(w.proc, Ok)];
    }
  }

  lemma ExitLine(s: State, p: int, m: int)
    requires Inv(s)
    ensures Line(Departed(s, p), m) == Without(Line(s, m), p)
  {
    if m in s.mutexes && s.mutexes[m].owner == p {
      var q := s.mutexes[m].queue;
      assert Without(Line(s, m), p) == q;
      if q != [] { assert q == [q[0]] + q[1..]; }
    }
  }

  lemma ForgetLine(s: State, p: int, m: int)
    ensures Line(Forget(s, p), m) == if Line(s, m) == [] then [] else [Line(s, m)[0]] + Without(Line(s, m)[1..], p)
  {
  }

  lemma ParkLine(s: State, p: int, c: int, n: int, m: int)
    ensures Line(Park(s, p, c, n), m) == Line(s, m)
  {
  }

  // The law of lines: every step, every mutex.
  lemma LineLaw(s: State, r: Request, m: int)
    requires Inv(s)
    ensures Line(Next(s, r), m) == LineAfter(Line(s, m), if r.Broadcast? then Waiters(s, r.cv) else [], r, m)
  {
    match r
    case Broadcast(p, c) => WakeAllLine(s, c, m);
    case Exit(p) => ExitLine(s, p, m);
    case Interrupt(p) => ForgetLine(s, p, m);
    case Wait(p, c, n) => if Owns(s, p, n) { ParkLine(Release(s, n), p, c, n, m); }
    case _ =>
  }

  // ------------------------------------------------------------------ FIFO

  // m changes hands or becomes free in this step.
  predicate Releases(s: State, r: Request, m: int) {
    && (r.Unlock? || r.Wait? || r.Exit?)
    && (r.Unlock? || r.Wait? ==> r.mutex == m)
    && Owns(s, r.proc, m)
  }

  // p and q stand in m's line or not; nobody called q stands before p.
  ghost predicate AheadAt(line: seq<int>, p: int, q: int, i: int) {
    0 <= i < |line| && line[i] == p && q !in line[..i]
  }

  ghost predicate Removes(r: Request, p: int) {
    (r.Interrupt? || r.Exit?) && r.proc == p
  }

  lemma WithoutPosition(line: seq<int>, p: int, q: int, i: int, x: int)
    requires AheadAt(line, p, q, i) && x != p
    ensures AheadAt(Without(line, x), p, q, |Without(line[..i], x)|)
    ensures |Without(line[..i], x)| <= i
    ensures x in line[..i] ==> |Without(line[..i], x)| < i
  {
    assert line == line[..i] + ([p] + line[i + 1..]);
    WithoutConcat(line[..i], [p] + line[i + 1..], x);
    WithoutConcat([p], line[i + 1..], x);
    var a := Without(line[..i], x);
    assert Without(line, x) == a + ([p] + Without(line[i + 1..], x));
    assert Without(line, x)[..|a|] == a;
    if x in line[..i] { WithoutShorter(line[..i], x); }
  }

  lemma {:induction false} WithoutShorter(s: seq<int>, x: int)
    requires x in s
    ensures |Without(s, x)| < |s|
  {
    if s[0] != x {
      assert s == [s[0]] + s[1..];
      WithoutShorter(s[1..], x);
    }
  }

  lemma TailPosition(line: seq<int>, p: int, q: int, i: nat)
    requires i > 0 && AheadAt(line, p, q, i)
    ensures AheadAt(line[1..], p, q, i - 1)
  {
  }

  lemma InterruptPosition(line: seq<int>, p: int, q: int, i: nat, x: int) returns (j: nat)
    requires i > 0 && AheadAt(line, p, q, i) && x != p
    ensures AheadAt([line[0]] + Without(line[1..], x), p, q, j) && j <= i
  {
    TailPosition(line, p, q, i);
    WithoutPosition(line[1..], p, q, i - 1, x);
    var a, rest := |Without(line[1..][..i - 1], x)|, Without(line[1..], x);
    j := a + 1;
    assert ([line[0]] + rest)[..j] == [line[0]] + rest[..a];
    assert line[0] in line[..i];
  }

  // One step on a line, seen from a queued p (position i > 0): it moves forward
  // by at least one at a release, never back, and nobody behind it or arriving
  // later gets in front.
  lemma LineForward(line: seq<int>, ws: seq<Waiter>, r: Request, m: int, p: int, q: int, i: nat) returns (j: nat)
    requires i > 0 && AheadAt(line, p, q, i) && !Removes(r, p)
    ensures AheadAt(LineAfter(line, ws, r, m), p, q, j)
    ensures j <= i
    ensures line[0] == r.proc && (r.Exit? || ((r.Unlock? || r.Wait?) && r.mutex == m)) ==> j < i
  {
    match r
    case Lock(x, _) =>
      j := i;
      assert (line + [x])[..i] == line[..i];
    case Broadcast(_, _) =>
      j := i;
      assert (line + Coming(ws, m))[..i] == line[..i];
    case Unknown(_) => j := i;
    case Unlock(x, n) =>
      j := if n == m && line[0] == x then i - 1 else i;
      TailPosition(line, p, q, i);
    case Wait(x, _, n) =>
      j := if n == m && line[0] == x then i - 1 else i;
      TailPosition(line, p, q, i);
    case Interrupt(x) => j := InterruptPosition(line, p, q, i, x);
    case Exit(x) =>
      WithoutPosition(line, p, q, i, x);
      j := |Without(line[..i], x)|;
      assert line[0] in line[..i];
  }

  lemma StepForward(s: State, r: Request, m: int, p: int, q: int, i: nat) returns (j: nat)
    requires Inv(s) && !Removes(r, p)
    requires i > 0 && AheadAt(Line(s, m), p, q, i)
    ensures AheadAt(Line(Next(s, r), m), p, q, j)
    ensures j <= i && (Releases(s, r, m) ==> j < i)
  {
    LineLaw(s, r, m);
    j := LineForward(Line(s, m), if r.Broadcast? then Waiters(s, r.cv) else [], r, m, p, q, i);
  }

  function ReleaseCount(s: State, es: seq<Event>, m: int): nat
    decreases es
  {
    if es == [] then 0
    else (if Releases(s, es[0].request, m) then 1 else 0) + ReleaseCount(Next(s, es[0].request), es[1..], m)
  }

  ghost predicate NeverRemoved(es: seq<Event>, p: int) {
    forall k :: 0 <= k < |es| ==> !Removes(es[k].request, p)
  }

  // p came to own m after the first k events, and q had not owned it since.
  ghost predicate GrantedAt(s: State, es: seq<Event>, m: int, p: int, q: int, k: nat) {
    && 0 < k <= |es|
    && Owns(After(s, es[..k]), p, m)
    && (forall l :: 0 < l <= k && q != p ==> !Owns(After(s, es[..l]), q, m))
  }

  // p is granted m after at most i releases of m, before q owns it; or it still
  // queues, at position j, every release has brought it forward, and neither
  // has owned m.
  ghost predicate Served(s: State, es: seq<Event>, m: int, p: int, q: int, i: nat, k: nat, j: nat) {
    || (GrantedAt(s, es, m, p, q, k) && ReleaseCount(s, es[..k], m) <= i)
    || (0 < j && j + ReleaseCount(s, es, m) <= i && AheadAt(Line(After(s, es), m), p, q, j)
        && forall l :: 0 < l <= |es| ==> !Owns(After(s, es[..l]), p, m) && !Owns(After(s, es[..l]), q, m))
  }

  lemma PrefixAfter(s: State, es: seq<Event>, m: int, l: nat)
    requires 0 < l <= |es|
    ensures After(s, es[..l]) == After(Next(s, es[0].request), es[1..][..l - 1])
    ensures ReleaseCount(s, es[..l], m)
            == (if Releases(s, es[0].request, m) then 1 else 0)
               + ReleaseCount(Next(s, es[0].request), es[1..][..l - 1], m)
  {
    assert es[..l][1..] == es[1..][..l - 1] && es[..l][0] == es[0];
  }

  // The outcome after the first event is one for all events.
  lemma ServedLater(s: State, es: seq<Event>, m: int, p: int, q: int, i: nat, i1: nat, k: nat, j: nat)
    requires es != []
    requires var t := Next(s, es[0].request);
             Served(t, es[1..], m, p, q, i1, k, j) && !Owns(t, p, m) && !Owns(t, q, m)
    requires i1 + (if Releases(s, es[0].request, m) then 1 else 0) <= i
    ensures Served(s, es, m, p, q, i, k + 1, j)
  {
    var t := Next(s, es[0].request);
    forall l: nat | 0 < l <= |es| ensures After(s, es[..l]) == After(t, es[1..][..l - 1]) {
      PrefixAfter(s, es, m, l);
    }
    assert es[1..][..0] == [];
    if k + 1 <= |es| {
      PrefixAfter(s, es, m, k + 1);
    }
  }

  lemma ServedNow(s: State, es: seq<Event>, m: int, p: int, q: int, i: nat)
    requires es != [] && Owns(Next(s, es[0].request), p, m) && i > 0
    ensures Served(s, es, m, p, q, i, 1, 0)
  {
    PrefixAfter(s, es, m, 1);
    assert es[1..][..0] == [];
  }

  // FIFO over whole runs, for a process p queued at position i (i - 1 others
  // queue before it) and any q that stands behind p or comes later.
  lemma {:induction false} Fifo(s: State, es: seq<Event>, m: int, p: int, q: int, i: nat) returns (k: nat, j: nat)
    requires Inv(s) && Run(s, es) && NeverRemoved(es, p)
    requires i > 0 && AheadAt(Line(s, m), p, q, i)
    ensures Served(s, es, m, p, q, i, k, j)
    decreases es
  {
    if es == [] {
      k, j := 0, i;
    } else {
      var r := es[0].request;
      NextKeeps(s, r);
      var i1 := StepForward(s, r, m, p, q, i);
      if i1 == 0 {
        k, j := 1, 0;
        ServedNow(s, es, m, p, q, i);
      } else {
        NotYet(Next(s, r), m, p, q, i1);
        assert NeverRemoved(es[1..], p);
        k, j := Fifo(Next(s, r), es[1..], m, p, q, i1);
        ServedLater(s, es, m, p, q, i, i1, k, j);
        k := k + 1;
      }
    }
  }

  lemma NotYet(t: State, m: int, p: int, q: int, i: nat)
    requires Inv(t) && i > 0 && AheadAt(Line(t, m), p, q, i)
    ensures !Owns(t, p, m) && !Owns(t, q, m)
  {
    assert Line(t, m)[0] in Line(t, m)[..i];
    LineDistinct(t, m);
  }

  lemma LineDistinct(s: State, m: int)
    requires Inv(s)
    ensures Distinct(Line(s, m))
  {
    if m in s.mutexes {
      assert Distinct(At(s, InQueue(m)));
      assert s.mutexes[m].owner !in s.mutexes[m].queue;
    }
  }

  // Bounded waiting: after i releases a process that was at position i has had m.
  lemma BoundedWait(s: State, es: seq<Event>, m: int, p: int, i: nat) returns (k: nat)
    requires Inv(s) && Run(s, es) && NeverRemoved(es, p)
    requires 0 < i < |Line(s, m)| && Line(s, m)[i] == p
    requires ReleaseCount(s, es, m) >= i
    ensures 0 < k <= |es| && Owns(After(s, es[..k]), p, m) && ReleaseCount(s, es[..k], m) <= i
  {
    LineDistinct(s, m);
    var j;
    k, j := Fifo(s, es, m, p, p, i);
  }
}
