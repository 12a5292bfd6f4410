# Mutexes, condition variables and process lifecycle

A Dafny model of two message servers of a MINIX system, with proofs over all
their runs.

**The mutex and condition-variable server** (`projekt/servers/cv`) keeps a table
of 1024 mutex slots, each with a linked-list queue, and a table of 512
condition-variable slots with parallel arrays. A process is suspended by not
answering it and woken by a reply sent in another process's step. It is modelled
three times, each time tied to the next:

- `CvQueue` and `CvServer`: heap nodes, arrays and loops as the program has them,
  with the replies collected in order; `CvMessages` has the messages and, in their
  fields, the law of each;
- `CvModel`: maps and sequences, one atomic step per request. `CvInvariant`,
  `CvExit`, `CvTrace`, `CvFifo` and `CvLimits` prove what all its runs satisfy,
  seen from the tables and seen by clients who know only the trace;
- `CvClient`: the retry loops of the library calls (`projekt/lib/libc/sys-minix/cv.c`)
  composed with the server.

`SlotTable` and `CvTables` relate slot tables to maps; `Sequences` is shared.

**The process manager's table** (`projekt/servers/pm`): fork, exit, zombie, parent
told, slot freed, with the parent's wait and the file system's reply in either
order. `PmModel` gives every routine as a function on the table and on records
kept beside it (requests outstanding, exits, reports, freed slots, times).
`PmInvariant`, `PmSteps`, `PmExit`, `PmLife`, `PmReports` and `PmSleep` prove what
the routines keep, `PmRuns`, `PmTheorems`, `PmLaws`, `PmWaits` and `PmCalls` what
follows for every run from the boot image on, `PmPid` that pids do not run out,
and `PmTable` proves the routines that change the array in place equal to the
functions. Stops of the system ("panic") are assertions in `PmTable`, so they are
proved unreachable.

## What the surroundings owe

The code relies on these, and the model states them as conditions on a run.

- A process with an unanswered request sends nothing: library calls block
  (`CvModel.Legal`).
- Message types 5 and 6 come from the process manager, and an endpoint sends
  nothing after its exit.
- A free mutex slot exists when a lock must make one; the code has no test for a
  full table (`CvTables.MutexesFit`). For condition variables room is proved: it is
  enough that at most 512 callers are alive at once (`CvServer.Serviceable`,
  `CvLimits.RunsFit`).
- The start sentinel of a queue, whose process field is never set, does not equal
  the endpoint in a type 5 or 6 message. `Queue`'s constructor takes the
  unset value as an argument, `garbage` collects these values.
- In the process manager: the kernel gives a new process an endpoint that is new
  for the slot it was given (generations may be counted slot by slot), the file
  system answers each request once and with the matching kind, a process is not
  exited while its request is outstanding (`projekt/servers/pm/signal.c` keeps
  signals back), nor changes its group then or while it sleeps in wait, init does
  not exit (`PmRuns.Legal`, `PmTable.Welcome`).

## Where the code does less than one would expect

- The replies of an exit are sent in slot order, so the abstract state does not
  determine their order: it does if and only if at most one of the mutexes has a
  queue (`CvExit.ExitOrderDetermined`). The state afterwards is always determined.
- `waitpid(0)` asks for the caller's own group. The program stores the negated
  group, and from groups 0 and 1 that is 0 and -1, which the selection loop takes
  for "any child" (the comment there excludes 0): such a caller may be given a child
  that it did not ask for. `PmWaits.SelectionStandard` has the exact condition.
- The test made at a death is not the loop's selection. No wakeup that the standard
  promises is lost (`PmWaits.NoWakeupLost`), but a caller of `waitpid(0)` in group 0,
  and no other, may sleep on beside a dead child that a second call would be given at
  once (`PmWaits.MissedSinceCall`, with an instance in `PmWaits.MissedExample`).
- A wait by a process that does not own the mutex is answered `-EINVAL`, while
  the other errors are not negated and the comment in the library promises
  `EINVAL`. Codes are kept abstract: the model says that this answer is none of
  0, EINTR and EPERM and that the tables do not change.

## Model

| member | source | states |
|---|---|---|
| `CvServer.Server.Serve` | projekt/servers/cv/main.c:25-101 | On every input that the surroundings allow, with at most 512 callers alive at any wait, the slot-table server sends the replies of a run of the abstract machine on the decoded messages, in the same order, and ends in that run's state, whatever slots were used; each message does what the law of its type says of its fields |
| `CvServer.Server.Handle` | projekt/servers/cv/main.c:55-101 | One message is one abstract step with one of its admissible reply sequences, and does what the law of its type says of its fields |
| `CvServer.Server.Call` | projekt/servers/cv/main.c:76-88 | A client call is the abstract step; replies sent on the way plus the pending answer are the step's replies |
| `CvServer.Server.Notice` | projekt/servers/cv/main.c:89-94 | Types 5 and 6 are the interrupt and exit steps, and nobody is answered for sending them |
| `CvMessages.Decode` | projekt/servers/cv/main.c:55-95 | A notice is about the process it names and a call in the sender's name; exactly the types outside 1 to 6 are unknown |
| `CvMessages.Encode` | projekt/lib/libc/sys-minix/cv.c:15-27 | The message sent for each request is decoded to that request |
| `CvMessages.DecodeLaw` | projekt/servers/cv/main.c:55-101 | In fields: type 1 locks i1 for the source, 2 unlocks it, 3 gives it up to wait on i2, 4 wakes all on i2, 5 frees the named process from all queues and lists with EINTR and leaves it its mutexes, 6 takes all from it; any other type is answered EINVAL; who is answered what |
| `CvMessages.BroadcastObeys` | projekt/servers/cv/main.c:251-281 | Nobody waits any more; each line is followed by those who came with its mutex; the new owners are answered 0 and then the caller |
| `CvMessages.ExitObeys` | projekt/servers/cv/main.c:339-387 | What becomes of every mutex, queue and list at an exit, and who is answered |
| `CvMessages.RunLaws` | projekt/servers/cv/main.c:42-45 | The law holds at every message of every run |
| `CvServer.Server.constructor` | projekt/servers/cv/main.c:25-36 | The fresh tables stand for the empty state |
| `CvServer.Server.FindMutex` | projekt/servers/cv/main.c:130-140 | The slot that holds the number, or -1 exactly when the abstract state has no such mutex |
| `CvServer.Server.FindCv` | projekt/servers/cv/main.c:142-152 | The same for condition variables |
| `CvServer.Server.Lock` | projekt/servers/cv/main.c:154-186 | Answer and new state are those of the abstract lock: owner, rejection, or last in the queue |
| `CvServer.Server.Unlock` | projekt/servers/cv/main.c:188-211 | The abstract release with its one grant, or a rejection with the tables unchanged |
| `CvServer.Server.Grant` | projekt/servers/cv/main.c:202-208 | The head of the queue becomes owner and is sent 0 |
| `CvServer.Server.Wait` | projekt/servers/cv/main.c:213-248 | Release and then last on the wait list without an answer; rejected with the tables unchanged if the caller is not the owner |
| `CvServer.Server.Broadcast` | projekt/servers/cv/main.c:251-281 | All waiters are re-locked in wait order and the condition variable is closed, as the abstract broadcast has it |
| `CvServer.Server.WakeList` | projekt/servers/cv/main.c:259-278 | The loop over the wait list is the iterated abstract wake-up |
| `CvServer.Server.LeaveQueues` | projekt/servers/cv/main.c:289-301 | The process is taken out of every mutex queue and, for an interrupt, sent EINTR once per place found |
| `CvServer.Server.LeaveLists` | projekt/servers/cv/main.c:304-318 | The same for all wait lists, closing those that become empty |
| `CvServer.Server.RemoveWaiter` | projekt/servers/cv/main.c:321-337 | The shift loop removes exactly one entry from the two parallel arrays and keeps the order of the rest |
| `CvServer.Server.LeaveEverything` | projekt/servers/cv/main.c:283-319 | Both sweeps together are the abstract removal of a process, with one EINTR exactly if it was blocked and the notice was an interrupt |
| `CvServer.Server.ReleaseOwned` | projekt/servers/cv/main.c:347-354 | The loop releases every mutex of the process, each once, in slot order |
| `CvServer.Server.Exit` | projekt/servers/cv/main.c:339-387 | The abstract exit; the mutexes are released, and so the grants sent, in slot order |
| `CvServer.Server.QueuesDisjoint` | projekt/servers/cv/main.c:28-31 | In every valid state no node belongs to two mutex queues |
| `CvServer.Server.TakeSlot` | projekt/servers/cv/main.c:162-171 | The first free slot gets number and owner; its queue is empty |
| `CvServer.Server.ParkCurrent` | projekt/servers/cv/main.c:224-243 | The current process and its mutex are appended to the list, opened first if needed |
| `CvQueue.Queue.constructor` | projekt/servers/cv/queue.h:19-26 | Two linked sentinels stand for the empty sequence |
| `CvQueue.Queue.Append` | projekt/servers/cv/queue.h:28-37 | The walk ends and the sequence grows by the process at its end, in one fresh node |
| `CvQueue.Queue.PopFirst` | projekt/servers/cv/queue.h:39-45 | The first element is returned and removed |
| `CvQueue.Queue.IsEmpty` | projekt/servers/cv/queue.h:47-49 | True exactly for the empty sequence |
| `CvQueue.Queue.Unlink` | projekt/servers/cv/queue.h:51-59 | Exactly the given node disappears |
| `CvQueue.Queue.Discard` | projekt/servers/cv/main.c:293-299 | The first node of the process is found and unlinked, if there is one |
| `CvInvariant.AcquireKeeps` | projekt/servers/cv/main.c:154-186 | A lock by an unblocked process keeps: one place per process, once; owner never in its own queue; every used condition variable has waiters; no waiter owns the mutex it came with |
| `CvInvariant.ReleaseKeeps` | projekt/servers/cv/main.c:188-211 | A release keeps the same and unblocks exactly the new owner |
| `CvInvariant.ParkKeeps` | projekt/servers/cv/main.c:224-247 | Starting to wait keeps the same and blocks exactly the waiter |
| `CvInvariant.WakeAllKeeps` | projekt/servers/cv/main.c:251-281 | A broadcast keeps the same |
| `CvInvariant.ForgetKeeps` | projekt/servers/cv/main.c:283-337 | Removing a process from all places keeps the same and unblocks exactly that process |
| `CvExit.NextKeeps` | projekt/servers/cv/main.c:55-101 | Every legal step keeps the invariant |
| `CvExit.DepartedAnyOrder` | projekt/servers/cv/main.c:347-387 | The state after an exit does not depend on the order in which the slots are visited |
| `CvExit.ExitReplies` | projekt/servers/cv/main.c:347-354 | The replies of an exit are exactly one 0 to each head of a queue of a mutex the process owned, never to the process itself |
| `CvExit.ExitOrderDetermined` | projekt/servers/cv/main.c:347-354 | The order of these replies is determined by the abstract state if and only if at most one owned mutex has a queue |
| `CvExit.DepartedAbsent` | projekt/servers/cv/main.c:339-387 | After an exit the process owns nothing and is in no queue and on no list |
| `CvTrace.StepAgrees` | projekt/servers/cv/main.c:55-101 | One step keeps the invariant and the agreement between the tables and the view read off the trace, and answers only processes that await an answer |
| `CvTrace.RunAgrees` | projekt/servers/cv/main.c:55-101 | Over every run, who holds what by the trace is who owns what in the tables, and who awaits an answer is who is blocked |
| `CvTrace.MutualExclusion` | projekt/servers/cv/main.c:154-211 | At every prefix of every run no mutex has two holders, as clients see it |
| `CvTrace.ReplyAccounting` | projekt/servers/cv/main.c:97-100 | At every prefix of every run the processes awaiting an answer are exactly those in a queue or list, each in one place once, and the next step answers only such processes |
| `CvTrace.CallsConserved` | projekt/servers/cv/main.c:97-100 | Over every run, calls made equal replies sent plus calls still waiting plus calls whose sender died |
| `CvTrace.WakeFirstAgrees` | projekt/servers/cv/main.c:262-269 | Waking a waiter never meets the "already owner" rejection of the lock routine |
| `CvFifo.WakeAllLine` | projekt/servers/cv/main.c:251-281 | Closed form of a broadcast: for each mutex, owner and queue are followed by the waiters that came with it, in wait order |
| `CvFifo.WakeAllReplies` | projekt/servers/cv/main.c:262-269 | Only waiters that became owner of a free mutex are answered, with 0 |
| `CvFifo.LineLaw` | projekt/servers/cv/main.c:154-387 | What each of the seven kinds of step does to the line (owner, then queue) of any mutex; an exit takes the process out of every line, so its mutexes pass to the next in line |
| `CvFifo.StepForward` | projekt/servers/cv/main.c:196-208 | No step moves a queued process back or lets another pass it, and a release moves it forward |
| `CvFifo.Fifo` | projekt/servers/cv/queue.h:28-59 | Over every run, a process at position i that is not removed gets the mutex after at most i releases or has moved forward once per release, and nobody behind it owns the mutex first |
| `CvFifo.BoundedWait` | projekt/servers/cv/main.c:196-208 | A process at position i has owned the mutex by the i-th release |
| `CvLimits.ListLaw` | projekt/servers/cv/main.c:213-337 | What each kind of step does to the wait list of any condition variable |
| `CvLimits.NoLostWakeup` | projekt/servers/cv/main.c:251-281 | After a broadcast no waiter remains on the list and each is owner of, or queued for, the mutex it came with |
| `CvLimits.ExitIsFinal` | projekt/servers/cv/main.c:339-387 | A process that is nowhere and sends nothing stays nowhere |
| `CvLimits.ExitCleansUp` | projekt/servers/cv/main.c:339-387 | After an exit the process owns nothing and is in no queue or list, in that state and at every later moment of every run |
| `CvLimits.CvCapacity` | projekt/servers/cv/main.c:13-21 | With at most 512 processes, one that is about to wait finds a free slot and room in every list |
| `CvLimits.BlockedLive` | projekt/servers/cv/main.c:339-387 | Over every run only callers that have not exited since can be blocked |
| `CvLimits.RunsFit` | projekt/servers/cv/main.c:224-243 | The same over every run, however many processes come and go, as long as at most 512 callers live at once |
| `CvClient.CsLock` | projekt/lib/libc/sys-minix/cv.c:29-40 | The retry loop fails exactly at the first answer that is neither 0 nor EINTR, succeeds at the first 0, and goes on through any number of EINTR |
| `CvClient.CsWait` | projekt/lib/libc/sys-minix/cv.c:50-66 | An interrupted wait goes on as a lock on the other answers; 0 ends it with success; any other answer ends it with failure |
| `CvClient.CallConsistent` | projekt/lib/libc/sys-minix/cv.c:29-66 | Library and server stay in step: in each phase of the call the tables say what the library relies on |
| `CvClient.LoopFollowsRun` | projekt/lib/libc/sys-minix/cv.c:29-66 | What the retry loops make of the answers that a run gives is where the call stands in that run |
| `CvClient.WaitReturnsHolding` | projekt/lib/libc/sys-minix/cv.c:50-66 | Fed with all answers that a run gives, the wait of an owner returns only 0 and only holding the mutex, for any run and any number of interrupts, wherever they hit |
| `CvClient.WaitFailsIffNotOwner` | projekt/lib/libc/sys-minix/cv.c:50-66 | Fed with all answers that a run gives, a wait fails if and only if the caller did not own the mutex |
| `CvClient.LockFailsIffOwner` | projekt/lib/libc/sys-minix/cv.c:29-40 | Fed with all answers that a run gives, a lock fails if and only if the caller already owned the mutex; otherwise it returns only holding it |
| `SlotTable.Fill` | projekt/servers/cv/main.c:162-171 | Filling a free slot adds exactly one key to the map the table stands for, whichever slot it is |
| `SlotTable.Clear` | projekt/servers/cv/main.c:200-200 | Clearing a slot removes exactly its key |
| `SlotTable.FreeSlot` | projekt/servers/cv/main.c:162-166 | A table with fewer keys than slots has a free slot |
| `PmInvariant.SelectionAgrees` | projekt/servers/pm/forkexit.c:536-553 | For a nonzero argument the test made at a death and the selection of waitpid are equivalent |
| `PmInvariant.SelectionDiffers` | projekt/servers/pm/forkexit.c:461-478 | For an argument kept as 0 waitpid selects every child and the test only those of group 0 |
| `PmSteps.CheckParentKeeps` | projekt/servers/pm/forkexit.c:596-629 | Looking at a zombie's parent restores the no-lost-wakeup property for it and keeps everything else, also in the middle of an exit |
| `PmSteps.TellCore` | projekt/servers/pm/forkexit.c:634-656 | Telling the parent keeps tree, flags, requests, names, totals and the ledger |
| `PmSteps.CleanupCore` | projekt/servers/pm/forkexit.c:719-730 | Freeing a reported, idle, childless slot keeps the same |
| `PmExit.AdoptKeeps` | projekt/servers/pm/forkexit.c:361-377 | One round of the disinheriting loop keeps the invariant with one slot fewer to do |
| `PmExit.AdoptFromKeeps` | projekt/servers/pm/forkexit.c:361-377 | The whole loop ends in the full invariant: no child of the exiting process is left |
| `PmExit.BegunKeeps` | projekt/servers/pm/forkexit.c:289-358 | The first half of an exit, up to the zombie state, keeps the invariant but for the children |
| `PmExit.ExitKeeps` | projekt/servers/pm/forkexit.c:254-381 | An exit keeps the invariant |
| `PmLife.VfsReplyKeeps` | projekt/servers/pm/main.c:387-513 | Every awaited reply names a process in the table with its request outstanding, and handling it keeps the invariant, for all three kinds and in either order with the parent's wait |
| `PmLife.RestartKeeps` | projekt/servers/pm/forkexit.c:386-441 | The second half of an exit frees the slot exactly if the parent was told, and keeps the invariant |
| `PmLife.ForkKeeps` | projekt/servers/pm/forkexit.c:82-136 | A fork keeps the invariant, the tree included |
| `PmLife.WaitpidKeeps` | projekt/servers/pm/forkexit.c:446-531 | A wait keeps the invariant, in particular no wakeup is lost by starting to wait |
| `PmLife.CancelWaitKeeps` | projekt/servers/pm/signal.c:755-756 | A caught signal that ends a wait keeps the invariant |
| `PmLife.SetsidKeeps` | projekt/servers/pm/main.c:434-436 | A change of group keeps the invariant: a child in a new group wakes nobody and is missed by nobody |
| `PmLaws.ForkMakes` | projekt/servers/pm/forkexit.c:82-123 | The child is a child of the caller with the caller's group and uids, no system process, with no flags and no times; every other slot is unchanged |
| `PmLaws.RefusedWhen` | projekt/servers/pm/forkexit.c:58-64 | A fork is refused exactly with no slot free, or with two or fewer free to all but the superuser |
| `PmLaws.ChildStays` | projekt/servers/pm/forkexit.c:87-87 | From a fork to the end of any run the child's parent is the caller or init, and its death is reported to one of them |
| `PmLaws.ExitSpares` | projekt/servers/pm/forkexit.c:289-377 | At an exit exactly the parent is charged with the times, exactly the children go to init, and other slots keep all but deaths made known |
| `PmLaws.ExitAsks` | projekt/servers/pm/forkexit.c:269-358 | A core is asked for if and only if the signal says so, the uids are equal and it is no system process; otherwise the process is a zombie or reported at once |
| `PmLaws.NoCoreReported` | projekt/servers/pm/forkexit.c:269-278 | Over every run no core of a set-uid or system process is written, and no report of it has the dump bit |
| `PmLaws.AnswerLaw` | projekt/servers/pm/main.c:421-511 | An answer leaves all other slots alone, makes a process that goes on idle, and frees one that has exited exactly if its parent has been told |
| `PmLaws.InterruptLaw` | projekt/servers/pm/signal.c:755-756 | A caught signal ends the wait and does nothing else |
| `PmLaws.SetsidLaw` | projekt/servers/pm/main.c:434-436 | A change of group makes the caller leader of the group of its own pid, with a request outstanding if that is new, and changes no other slot |
| `PmCalls.ReportEndsWait` | projekt/servers/pm/forkexit.c:634-656 | In every step, whoever is sent a report, init adopting zombies included, does not sleep in wait at its end |
| `PmCalls.OneReportPerCall` | projekt/servers/pm/forkexit.c:446-656 | Over every run from a boot image the reports to a process, and one more if it sleeps, are no more than its calls of wait |
| `PmReports.ExitHonest` | projekt/servers/pm/forkexit.c:254-381 | An exit keeps: every report carries the child's pid, exit value and signal and went to its maker or to init |
| `PmRuns.StepKeeps` | projekt/servers/pm/main.c:57-145 | Every event keeps the invariant; calls of exiting processes change nothing |
| `PmRuns.RunSound` | projekt/servers/pm/main.c:57-145 | Every run keeps invariant and true reports |
| `PmRuns.BootSound` | projekt/servers/pm/main.c:234-263 | The table built from the boot image satisfies them |
| `PmTheorems.TreeTheorem` | projekt/servers/pm/forkexit.c:361-377 | In every reachable state every process comes down from init through live processes; no parent is a free slot or an exiting process |
| `PmWaits.SelectionIs` | projekt/servers/pm/forkexit.c:461-478 | waitpid takes the children that IEEE Std 1003.1 asks for and, for waitpid(0) from group 0 or 1, all others |
| `PmWaits.TestIs` | projekt/servers/pm/forkexit.c:536-553 | The test made at a death passes for the children that the standard asks for and, for waitpid(0) from group 1, for all others |
| `PmWaits.SelectionStandard` | projekt/servers/pm/forkexit.c:461-478 | waitpid selects as the standard says, for all children, if and only if pid is not 0 or the caller's group is above 1 |
| `PmWaits.WaitpidReports` | projekt/servers/pm/forkexit.c:470-515 | Of the dead children that the call takes the one in the lowest slot is reported to the caller, and its slot is freed exactly if the file system has answered |
| `PmWaits.WaitpidBlocks` | projekt/servers/pm/forkexit.c:517-530 | With no dead child that it takes the caller goes to sleep, or is told "none yet" or "no child", each exactly when it should, and nothing else changes |
| `PmWaits.AsleepSince` | projekt/servers/pm/forkexit.c:521-524 | Over every run a sleeper that has not called again still sleeps for what it asked, as a member of the same group |
| `PmWaits.NoWakeupLost` | projekt/servers/pm/forkexit.c:446-553 | After any call of waitpid and any run, a caller still asleep, init included, has no dead unreported child that the standard says it asked for |
| `PmWaits.MissedExactly` | projekt/servers/pm/forkexit.c:536-553 | In every reachable state a sleeper misses a dead child that its own selection takes if and only if its argument was kept as 0; then it is in group 0, is not init, and the child is in another group |
| `PmWaits.MissedSinceCall` | projekt/servers/pm/forkexit.c:446-531 | After any call of waitpid and any run, a caller still asleep misses a dead child if and only if it called waitpid(0) as a member of group 0 |
| `PmWaits.DeathHeard` | projekt/servers/pm/forkexit.c:596-656 | At every death, with or without a core dump, the parent is told in that step if and only if it sleeps and the test passes; otherwise the child is a zombie |
| `PmWaits.DeathMissed` | projekt/servers/pm/forkexit.c:596-656 | At every death the sleeping parent is left missing the child if and only if its argument was kept as 0 and the child is in a group other than 0 |
| `PmWaits.MissedExample` | projekt/servers/pm/forkexit.c:463-463 | A boot image and a run in which that happens: a child becomes the leader of a group, its parent calls waitpid(0) in group 0, the child exits |
| `PmTheorems.OneOfThree` | projekt/servers/pm/forkexit.c:330-358 | In every reachable state an exiting process is a zombie, or reported, or the file system is asked for its core: exactly one of them; a reported one is kept for an exit request still outstanding |
| `PmTheorems.ExactlyOnce` | projekt/servers/pm/forkexit.c:386-441 | In every run each process exits, is reported and is freed at most once; it has been freed if and only if it was reported and the file system has answered; until then it is in the table |
| `PmTheorems.AnswersWelcome` | projekt/servers/pm/main.c:406-419 | In every reachable state the requests outstanding are exactly the processes in the table with the flag set, and a process that may exit has none |
| `PmTheorems.RoomForFork` | projekt/servers/pm/forkexit.c:58-74 | In every reachable state the counter is below the table size if and only if a slot is free |
| `PmTheorems.NamesUnique` | projekt/servers/pm/forkexit.c:112-114 | In every reachable state pids and endpoints of processes are distinct and no freed endpoint comes back |
| `PmTheorems.ReportsTrue` | projekt/servers/pm/forkexit.c:649-656 | Every report of every run tells the child's pid, exit value and signal, with the dump bit if its core was written, to its maker or to init |
| `PmTheorems.ValueReported` | projekt/servers/pm/forkexit.c:349-351 | From an exit to the end of any run, whoever is told of that death is told the pid, the low byte of the status as a signed byte, and the signal that killed it, with the dump bit if and only if the file system has answered that it wrote the core |
| `PmTheorems.CoredWhen` | projekt/servers/pm/main.c:451-458 | Over every run the core of a process is on record as written if and only if the file system has answered so |
| `PmTheorems.SaidStays` | projekt/servers/pm/forkexit.c:351-351 | The exit value and signal of a process never change after its exit, through slot reuse and later exits |
| `PmModel.StatusWord` | projekt/servers/pm/forkexit.c:649-651 | The word given to a parent holds the exit value above the low eight bits of the signal status |
| `PmModel.SetDumped` | projekt/servers/pm/main.c:451-453 | The dump bit is set and all other bits stay |
| `PmTheorems.TimeConserved` | projekt/servers/pm/forkexit.c:289-295 | Over every run the times charged to live processes grow by exactly the times of the processes that exited |
| `PmPid.UnusedPidExists` | projekt/servers/pm/utility.c:36-53 | More pids than twice the slots leave one unused |
| `PmTable.Table.GetFreePid` | projekt/servers/pm/utility.c:36-53 | Terminates whenever an unused pid exists and gives the first one on the circle, borne by no slot as pid or group |
| `PmTable.Table.Bears` | projekt/servers/pm/utility.c:46-50 | Whether some slot bears the number |
| `PmTable.Table.FindSlot` | projekt/servers/pm/forkexit.c:66-74 | The circular search gives the first free slot within one round; both stops are unreachable |
| `PmTable.Table.DoFork` | projekt/servers/pm/forkexit.c:44-136 | EAGAIN exactly with no slot free, or two or fewer and no superuser; else, unless the kernel refuses, a child of the caller in the first free slot, with an unused pid and an endpoint new for that slot, all other slots unchanged |
| `PmTable.Table.TellVfs` | projekt/servers/pm/utility.c:135-151 | The flag and the request are set together; the "not idle" stop is unreachable |
| `PmTable.Table.IsOkEndpoint` | projekt/servers/pm/utility.c:120-130 | Accepts a nonnegative slot exactly when the endpoint is in the table |
| `PmTable.Table.TellParent` | projekt/servers/pm/forkexit.c:634-656 | The model's step; none of the three stops is reached, and the parent does not wait afterwards |
| `PmTable.Table.CheckParent` | projekt/servers/pm/forkexit.c:596-629 | The model's step, on the array; a parent that is told does not wait afterwards |
| `PmTable.Table.Zombify` | projekt/servers/pm/forkexit.c:558-591 | The model's step; the "already a zombie" stop is not reached |
| `PmTable.Table.Cleanup` | projekt/servers/pm/forkexit.c:719-730 | The model's step: flags, pid and times cleared, counter lowered |
| `PmTable.Table.Exit` | projekt/servers/pm/forkexit.c:254-381 | The loop over the array is the model's exit, keeps the invariant, and asks for a core exactly if the signal says so, the uids are equal and it is no system process |
| `PmTable.Table.DoExit` | projekt/servers/pm/forkexit.c:233-251 | A call of exit is the exit event with no signal, or ignored exactly for a caller that does not run or is a system process |
| `PmTable.Table.SigExit` | projekt/servers/pm/signal.c:470-487 | A killing signal is the exit event with status 0, that signal as a signed byte, and a core if it asks for one; the slot keeps both |
| `PmTable.Table.DoSetsid` | projekt/servers/pm/main.c:434-436 | The caller leads a new group and the file system is asked, unless it leads one already |
| `PmTable.Table.ExitRestart` | projekt/servers/pm/forkexit.c:386-441 | The model's second half of an exit |
| `PmTable.Table.HandleVfsReply` | projekt/servers/pm/main.c:387-513 | The model's step; neither the bad-endpoint nor the no-request stop is reached |
| `PmTable.Table.FindDead` | projekt/servers/pm/forkexit.c:470-515 | The loop finds the first dead child asked for, or says whether there is a living one |
| `PmTable.Table.DoWaitpid` | projekt/servers/pm/forkexit.c:446-531 | Result and new table are those of the model |
| `PmTable.Table.Handle` | projekt/servers/pm/main.c:57-145 | Every message is one event of the runs above, or is ignored exactly when the caller does not run or a fork has no room |
| `PmTable.Table.Serve` | projekt/servers/pm/main.c:57-145 | On every input that the surroundings allow, the array goes through a run that the messages explain, so all that is proved of runs holds of it |

## Left out

- Kernel messaging and startup of both servers: messages are an input sequence, replies an output sequence.
- The mutex server when its table is full, and when an unset sentinel equals an endpoint: the code defines nothing there.
- Giving memory of queue nodes back; a removed node is unreachable from every queue.
- Failing sends: every reply is taken as delivered.
- Integer width of pids, times and counters; all are unbounded.
- Tracing (`ptrace`) and `do_srv_fork`; `mp_tracer` is taken as unset throughout.
- The exit of init and of the file system server, which are special cases outside the lifecycle.
- The signal engine: masks, delayed calls, SIGCHLD and SIGHUP. A signal that kills is an exit event, one that is caught ends a wait.
- Failing kernel, memory and scheduler calls, except a refused fork.
- Replies of the process manager other than reports to parents: the two replies that follow a fork, `setuid` and its kin, `exec`.
- `PmTable.Table.DoSetsid`: the routine that changes a group is not among the sources; it is taken from setsid() in IEEE Std 1003.1, System Interfaces, and from the reply that the process manager gives.
- `PmTable.Table.Exit`: the message to the mutex server is not part of its contract; the ledger's exits stand for it, each process once.
- `PmTable.Table.DoWaitpid`: the loop leaves at the first dead child and reports it after the loop instead of inside.
- `CvLimits.ExitCleansUp`: for a process that sends nothing after its exit; a later call under the same endpoint would be served.
- Nice values, boot monitor parameters, the lookup of a server by name.
