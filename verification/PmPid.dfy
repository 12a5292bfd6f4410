// Pids go round in a circle; a pid that no slot bears is always found.
module PmPid {
  import opened PmModel

  // The pid after n, between lo + 1 and hi.
  function NextPid(n: int, lo: int, hi: int): int {
    if n < hi then n + 1 else lo + 1
  }

  // How many steps on the circle lead from a to q; a full circle for q == a.
  function Steps(a: int, q: int, lo: int, hi: int): (d: int)
    requires lo < a <= hi && lo < q <= hi
    ensures 1 <= d <= hi - lo
  {
    if q > a then q - a else q - a + (hi - lo)
  }

  // r is the first unused pid on the circle after a.
  ghost predicate FirstUnused(procs: seq<Slot>, a: int, r: int, lo: int, hi: int) {
    && lo < a <= hi && lo < r <= hi && Unused(procs, r)
    && forall q :: lo < q <= hi && Steps(a, q, lo, hi) < Steps(a, r, lo, hi) ==> !Unused(procs, q)
  }

  function Taken(procs: seq<Slot>): set<int> {
    if procs == [] then {} else Taken(procs[1..]) + {procs[0].pid, procs[0].procgrp}
  }

  lemma {:induction false} TakenFits(procs: seq<Slot>, q: int)
    ensures |Taken(procs)| <= 2 * |procs|
    ensures q in Taken(procs) <==> !Unused(procs, q)
  {
    if procs != [] {
      var rest := procs[1..];
      TakenFits(rest, q);
      var two := {procs[0].pid, procs[0].procgrp};
      assert |two| <= 2 by {
        assert two == {procs[0].pid} + {procs[0].procgrp};
      }
      assert |Taken(rest) + two| <= |Taken(rest)| + |two|;
      if Unused(rest, q) && q !in two {
        assert forall c :: 0 < c < |procs| ==> procs[c] == rest[c - 1];
      } else if !Unused(rest, q) {
        var c :| 0 <= c < |rest| && !(rest[c].pid != q && rest[c].procgrp != q);
        assert rest[c] == procs[c + 1];
      }
    }
  }

  lemma {:induction false} CoverSize(lo: int, hi: int, xs: set<int>)
    requires lo <= hi && forall q :: lo < q <= hi ==> q in xs
    ensures hi - lo <= |xs|
    decreases hi - lo
  {
    if lo < hi {
      CoverSize(lo, hi - 1, xs - {hi});
    }
  }

  // With more pids than slots can bear, one is unused.
  lemma UnusedPidExists(procs: seq<Slot>, lo: int, hi: int)
    requires hi - lo > 2 * |procs|
    ensures exists q :: lo < q <= hi && Unused(procs, q)
  {
    TakenFits(procs, 0);
    if forall q :: lo < q <= hi ==> !Unused(procs, q) {
      forall q | lo < q <= hi ensures q in Taken(procs) {
        TakenFits(procs, q);
      }
      CoverSize(lo, hi, Taken(procs));
    }
  }

  lemma NextStep(a: int, n: int, q: int, lo: int, hi: int)
    requires lo < a <= hi && lo < n <= hi && lo < q <= hi
    requires n == a || Steps(a, n, lo, hi) < hi - lo
    ensures var m := NextPid(n, lo, hi); var j := if n == a then 0 else Steps(a, n, lo, hi);
            && lo < m <= hi && Steps(a, m, lo, hi) == j + 1 && (Steps(a, q, lo, hi) == j + 1 <==> q == m)
  {
  }
}
