// The process manager's table: fork, exit, zombie, wait, the file system's
// replies. Tracing is off. Each function is one routine of the program on the
// table and on the records kept beside it.
module PmModel {

  // A kernel endpoint: the table slot it names, and a generation.
  datatype Endpoint = Endpoint(slot: int, generation: int)

  // What the file system has been asked on behalf of a process.
  datatype Ask = ForkAsk | SetsidAsk | ExitAsk | CoreAsk

  // Asked for a process that goes on, as opposed to one that exits.
  predicate GoesOn(a: Ask) {
    a == ForkAsk || a == SetsidAsk
  }

  datatype Slot = Slot(
    inUse: bool, exiting: bool, zombie: bool, toldParent: bool, waiting: bool, vfsCall: bool, priv: bool,
    pid: int, procgrp: int, parent: int, endpoint: Endpoint, wpid: int,
    childUtime: int, childStime: int, exitStatus: int, sigStatus: int, realUid: int, effUid: int)

  // What a parent learns about a child.
  datatype Report = Report(parent: Endpoint, child: Endpoint, pid: int, status: int)

  // The pid, exit value and signal with which a process ended.
  datatype Said = Said(pid: int, value: int, sig: int)

  // Records beside the table: requests the file system has not answered, every
  // process ever made and who made it, how they ended, whose core was written,
  // exits, reports to parents and freed slots in order, and the time used by all
  // exited processes.
  datatype Books = Books(
    asked: map<Endpoint, Ask>, born: map<Endpoint, Endpoint>, said: map<Endpoint, Said>, cored: set<Endpoint>,
    exits: seq<Endpoint>, reports: seq<Report>, freed: seq<Endpoint>, utime: int, stime: int)

  datatype State = State(procs: seq<Slot>, used: int, books: Books)

  // A running or blocked process, as opposed to a free slot or an exiting one.
  predicate Live(x: Slot) {
    x.inUse && !x.exiting
  }

  predicate Runs(s: State, p: int) {
    0 <= p < |s.procs| && Live(s.procs[p])
  }

  // -------------------------------------------------------------- selection

  // Which children waitpid counts, for the argument as it is stored.
  predicate Selects(pidarg: int, child: Slot) {
    !(pidarg > 0 && pidarg != child.pid) && !(pidarg < -1 && -pidarg != child.procgrp)
  }

  // The test made when a child dies while its parent may be waiting.
  predicate WaitTest(parent: Slot, child: Slot) {
    parent.waiting && (parent.wpid == -1 || parent.wpid == child.pid || -parent.wpid == child.procgrp)
  }

  // ------------------------------------------------------- elementary steps

  // The exit value is kept as a signed byte.
  function AsChar(x: int): (r: int)
    ensures -128 <= r < 128 && r % 256 == x % 256
  {
    (x + 128) % 256 - 128
  }

  // What a parent is given: the exit value above, eight bits of signal below.
  function StatusWord(x: Slot): (r: int)
    ensures r / 256 == x.exitStatus && r % 256 == x.sigStatus % 256
  {
    x.exitStatus * 256 + x.sigStatus % 256
  }

  // Every slot, even a free one, names a slot as its parent.
  predicate Bounded(s: State) {
    forall i :: 0 <= i < |s.procs| ==> 0 <= s.procs[i].parent < |s.procs|
  }

  // What tell_parent checks before it wakes a parent, stopping the system if it
  // does not hold.
  predicate CanTell(s: State, c: int) {
    0 <= c < |s.procs| && 0 < s.procs[c].parent < |s.procs| && s.procs[c].zombie && !s.procs[c].toldParent
  }

  // The parent is woken with the child's pid and status.
  function TellParent(s: State, c: int): (r: State)
    requires Bounded(s) && 0 <= c < |s.procs|
    ensures Bounded(r) && |r.procs| == |s.procs|
  {
    var x := s.procs[c];
    var p := x.parent;
    var woken := s.procs[p := s.procs[p].(waiting := false)];
    s.(procs := woken[c := woken[c].(zombie := false, toldParent := true)],
       books := s.books.(reports := s.books.reports
         + [Report(s.procs[p].endpoint, x.endpoint, x.pid, StatusWord(x))]))
  }

  // The slot is given back.
  function Cleanup(s: State, c: int): (r: State)
    requires Bounded(s) && 0 <= c < |s.procs|
    ensures Bounded(r) && |r.procs| == |s.procs|
  {
    var x := s.procs[c];
    s.(procs := s.procs[c := x.(
         inUse := false, exiting := false, zombie := false, toldParent := false, waiting := false,
         vfsCall := false, priv := false, pid := 0, childUtime := 0, childStime := 0)],
       used := s.used - 1,
       books := s.books.(freed := s.books.freed + [x.endpoint]))
  }

  // Tell the parent now if it waits for this child; clean up at once when that
  // is allowed and the file system is done.
  function CheckParent(s: State, c: int, tryCleanup: bool): (r: State)
    requires Bounded(s) && 0 <= c < |s.procs|
    ensures Bounded(r) && |r.procs| == |s.procs|
  {
    var p := s.procs[s.procs[c].parent];
    if p.exiting then s
    else if WaitTest(p, s.procs[c]) then
      var told := TellParent(s, c);
      if tryCleanup && !told.procs[c].vfsCall then Cleanup(told, c) else told
    else s
  }

  function MarkZombie(s: State, c: int): (r: State)
    requires Bounded(s) && 0 <= c < |s.procs|
    ensures Bounded(r) && |r.procs| == |s.procs|
  {
    s.(procs := s.procs[c := s.procs[c].(zombie := true)])
  }

  function Zombify(s: State, c: int): (r: State)
    requires Bounded(s) && 0 <= c < |s.procs|
    ensures Bounded(r) && |r.procs| == |s.procs|
  {
    CheckParent(MarkZombie(s, c), c, false)
  }

  // ------------------------------------------------------------------- exit

  // How a process ends: its exit status, the signal that kills it or 0, whether
  // that signal asks for a core, and the processor time it has used.
  datatype Death = Death(status: int, sig: int, dump: bool, utime: int, stime: int)

  // Everything an exit does before it looks for the parent and the children:
  // times go to the parent, the file system is told, flags are reset.
  function BeginExit(s: State, x: int, how: Death): (r: State)
    requires Bounded(s) && 0 <= x < |s.procs|
    ensures Bounded(r) && |r.procs| == |s.procs|
  {
    var p, e := s.procs[x].parent, s.procs[x].endpoint;
    var paid := s.procs[p := s.procs[p].(
      childUtime := s.procs[p].childUtime + how.utime + s.procs[x].childUtime,
      childStime := s.procs[p].childStime + how.stime + s.procs[x].childStime)];
    s.(procs := paid[x := paid[x].(exiting := true, zombie := false, toldParent := false, waiting := false,
                                   vfsCall := true, exitStatus := AsChar(how.status), sigStatus := how.sig)],
       books := s.books.(asked := s.books.asked[e := if how.dump then CoreAsk else ExitAsk],
                         said := s.books.said[e := Said(s.procs[x].pid, AsChar(how.status), how.sig)],
                         exits := s.books.exits + [e],
                         utime := s.books.utime + how.utime, stime := s.books.stime + how.stime))
  }

  // One slot of the loop that gives the children of x to init.
  function Adopt(s: State, x: int, init: int, c: int): (r: State)
    requires Bounded(s) && 0 <= c < |s.procs| && 0 < init < |s.procs|
    ensures Bounded(r) && |r.procs| == |s.procs|
  {
    if !s.procs[c].inUse || s.procs[c].parent != x then s
    else
      var moved := Reparent(s, c, init);
      if moved.procs[c].zombie then CheckParent(moved, c, true) else moved
  }

  function Reparent(s: State, c: int, p: int): (r: State)
    requires Bounded(s) && 0 <= c < |s.procs| && 0 <= p < |s.procs|
    ensures Bounded(r) && |r.procs| == |s.procs|
  {
    s.(procs := s.procs[c := s.procs[c].(parent := p)])
  }

  // The loop, from slot c on.
  function AdoptFrom(s: State, x: int, init: int, c: int): (r: State)
    requires Bounded(s) && 0 <= c <= |s.procs| && 0 < init < |s.procs|
    ensures Bounded(r) && |r.procs| == |s.procs|
    decreases |s.procs| - c
  {
    if c == |s.procs| then s else AdoptFrom(Adopt(s, x, init, c), x, init, c + 1)
  }

  // No core file for set-uid programs and system processes.
  predicate Dumps(x: Slot, dump: bool) {
    dump && x.realUid == x.effUid && !x.priv
  }

  function Final(x: Slot, how: Death): Death {
    how.(dump := Dumps(x, how.dump))
  }

  // The state in which the children are looked at.
  function Begun(s: State, x: int, how: Death): (r: State)
    requires Bounded(s) && 0 <= x < |s.procs|
    ensures Bounded(r) && |r.procs| == |s.procs|
  {
    if how.dump then BeginExit(s, x, how) else Zombify(BeginExit(s, x, how), x)
  }

  // A process with an unanswered request to the file system is not exited:
  // signals to it are kept back.
  predicate CanExit(s: State, x: int, init: int) {
    Runs(s, x) && x != init && 0 < init < |s.procs| && !s.procs[x].vfsCall
  }

  function ExitProc(s: State, x: int, init: int, how: Death): State
    requires Bounded(s) && CanExit(s, x, init)
  {
    AdoptFrom(Begun(s, x, Final(s.procs[x], how)), x, init, 0)
  }

  // ------------------------------------------------- the file system replies

  // Bit 7 of the signal status.
  const DUMPED := 128

  function SetDumped(sig: int): (r: int)
    ensures r % 256 >= 128 && r % 128 == sig % 128 && r / 256 == sig / 256
  {
    if sig % 256 >= DUMPED then sig else sig + DUMPED
  }

  // The second half of an exit.
  function ExitRestart(s: State, x: int, dump: bool): State
    requires Bounded(s) && 0 <= x < |s.procs|
  {
    var z := if dump then Zombify(s, x) else s;
    if z.procs[x].toldParent then Cleanup(z, x) else z
  }

  // The process is idle again; a written core is noted in its status.
  function Answered(s: State, e: Endpoint, dumped: bool): (r: State)
    requires Bounded(s) && e in s.books.asked && 0 <= e.slot < |s.procs|
    ensures Bounded(r) && |r.procs| == |s.procs|
  {
    var idle := s.procs[e.slot].(vfsCall := false);
    var noted := if s.books.asked[e] == CoreAsk && dumped then idle.(sigStatus := SetDumped(idle.sigStatus)) else idle;
    s.(procs := s.procs[e.slot := noted],
       books := s.books.(asked := s.books.asked - {e},
                         cored := if s.books.asked[e] == CoreAsk && dumped then s.books.cored + {e} else s.books.cored))
  }

  function VfsReply(s: State, e: Endpoint, dumped: bool): State
    requires Bounded(s) && e in s.books.asked && 0 <= e.slot < |s.procs|
  {
    var idle := Answered(s, e, dumped);
    match s.books.asked[e]
    case ForkAsk => idle
    case SetsidAsk => idle
    case ExitAsk => ExitRestart(idle, e.slot, false)
    case CoreAsk => ExitRestart(idle, e.slot, true)
  }

  // ------------------------------------------------------------------- fork

  const LAST_FEW := 2

  predicate TableFull(s: State, p: int)
    requires 0 <= p < |s.procs|
  {
    s.used == |s.procs| || (s.used >= |s.procs| - LAST_FEW && s.procs[p].effUid != 0)
  }

  // The child in slot k with a new pid and endpoint: a copy of the parent with
  // its own identity, no flags but "in use", and no times.
  function Child(parent: Slot, p: int, pid: int, e: Endpoint): Slot {
    parent.(exiting := false, zombie := false, toldParent := false, waiting := false, vfsCall := true, priv := false,
            pid := pid, parent := p, endpoint := e, childUtime := 0, childStime := 0, exitStatus := 0, sigStatus := 0)
  }

  // No slot, not even a free one, bears this number as pid or as group.
  predicate Unused(procs: seq<Slot>, pid: int) {
    forall c :: 0 <= c < |procs| ==> procs[c].pid != pid && procs[c].procgrp != pid
  }

  // A free slot, a pid unused once the parent's slot is copied there, and the
  // fresh endpoint that the kernel made for that slot. Slot 0 is the process
  // manager itself, which does not fork.
  predicate CanFork(s: State, p: int, k: int, pid: int, e: Endpoint) {
    && Runs(s, p) && p > 0 && 0 <= k < |s.procs| && !s.procs[k].inUse
    && pid > 0 && Unused(s.procs[k := s.procs[p]], pid) && e.slot == k && e !in s.books.born
  }

  function Fork(s: State, p: int, k: int, pid: int, e: Endpoint): State
    requires Runs(s, p) && 0 <= k < |s.procs|
  {
    s.(procs := s.procs[k := Child(s.procs[p], p, pid, e)],
       used := s.used + 1,
       books := s.books.(asked := s.books.asked[e := ForkAsk], born := s.books.born[e := s.procs[p].endpoint]))
  }

  // ------------------------------------------------------------------- wait

  datatype WaitResult = Suspend | NoneYet | NoChild

  // A child that waitpid looks at.
  predicate Candidate(s: State, p: int, arg: int, c: int) {
    && 0 <= c < |s.procs|
    && s.procs[c].inUse && !s.procs[c].toldParent && s.procs[c].parent == p && Selects(arg, s.procs[c])
  }

  // The first dead candidate at or after slot c, or |procs|.
  function FirstDead(s: State, p: int, arg: int, c: int): (k: int)
    requires 0 <= c <= |s.procs|
    ensures c <= k <= |s.procs|
    ensures k < |s.procs| ==> Candidate(s, p, arg, k) && s.procs[k].zombie
    ensures forall i :: c <= i < k ==> !(Candidate(s, p, arg, i) && s.procs[i].zombie)
    decreases |s.procs| - c
  {
    if c == |s.procs| || (Candidate(s, p, arg, c) && s.procs[c].zombie) then c else FirstDead(s, p, arg, c + 1)
  }

  predicate SomeChild(s: State, p: int, arg: int) {
    exists c :: 0 <= c < |s.procs| && Candidate(s, p, arg, c)
  }

  // A zero argument means the caller's process group.
  function WaitArg(x: Slot, pid: int): int {
    if pid == 0 then -x.procgrp else pid
  }

  function Collect(s: State, c: int): State
    requires Bounded(s) && 0 <= c < |s.procs|
  {
    var told := TellParent(s, c);
    if told.procs[c].vfsCall then told else Cleanup(told, c)
  }

  function SetWait(s: State, p: int, w: bool, arg: int): State
    requires Runs(s, p)
  {
    s.(procs := s.procs[p := s.procs[p].(waiting := w, wpid := arg)])
  }

  function Waitpid(s: State, p: int, pid: int, noHang: bool): State
    requires Bounded(s) && Runs(s, p)
  {
    var arg := WaitArg(s.procs[p], pid);
    var k := FirstDead(s, p, arg, 0);
    if k < |s.procs| then Collect(s, k)
    else if SomeChild(s, p, arg) && !noHang then SetWait(s, p, true, arg)
    else s
  }

  function WaitpidResult(s: State, p: int, pid: int, noHang: bool): WaitResult
    requires Runs(s, p)
  {
    var arg := WaitArg(s.procs[p], pid);
    if FirstDead(s, p, arg, 0) < |s.procs| then Suspend
    else if !SomeChild(s, p, arg) then NoChild
    else if noHang then NoneYet
    else Suspend
  }

  // The caller becomes the leader of a new group, and the file system is told.
  function Setsid(s: State, p: int): State
    requires Runs(s, p)
  {
    var x := s.procs[p];
    s.(procs := s.procs[p := x.(procgrp := x.pid, vfsCall := true)],
       books := s.books.(asked := s.books.asked[x.endpoint := SetsidAsk]))
  }

  // A caught signal ends a wait.
  function CancelWait(s: State, p: int): State
    requires Runs(s, p)
  {
    SetWait(s, p, false, s.procs[p].wpid)
  }
}
