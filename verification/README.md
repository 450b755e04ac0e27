# libtask, modelled and verified in Dafny

libtask runs many tasks on one processor: a task runs until it calls `taskswitch`, and the
scheduler then starts the head of a FIFO run queue.  Channels, timers, fd waits, locks and
condition variables are all built on that switch.  This project models these parts and proves
what they promise over every run, for every choice of `rand()`, of the clock and of the poll.

| file | what it models |
|---|---|
| `Alternation.dfy` | what one call of `chanalt` means: queues of elements and blocked Alt sets |
| `Ring.dfy`, `Channels.dfy` | channels with byte rings, the copying of data |
| `ChanAlts.dfy` | wait arrays, `xalt` fields and `chanalt` itself, refining `Alternation` |
| `ChanTasks.dfy` | channels and scheduler together: blocked tasks, and wakeups that reach the run queue |
| `RuntimeSpec.dfy`, `RuntimeInv.dfy`, `RuntimeRuns.dfy`, `RuntimeEffects.dfy` | scheduler, timers and fd waits as one state machine, its runs, and what each step does |
| `TaskLists.dfy`, `Runtime.dfy` | the linked task lists, slot table and globals of task.c and fd.c, refining `RuntimeSpec` |
| `RWLockSpec.dfy`, `MonitorSpec.dfy` | the reader-writer lock; the mutex with its condition variables |
| `Locks.dfy` | qlock.c and rendez.c on the lists of the scheduler, refining the two |
| `MonitorTasks.dfy`, `RWLockTasks.dfy` | each kind of lock and the scheduler together: who comes out of a lock holds it |
| `Primes.dfy`, `Sieve.dfy`, `SieveEnds.dfy` | the concurrent prime sieve on the channels of `Alternation` |
| `Options.dfy`, `Seqs.dfy` | shared helpers |

Each part comes twice where the source changes memory in place: a specification on values, whose
lemmas speak about every run, and a class with the source's own fields, whose methods carry a ghost
field with the specification state and are proved to take the same steps.

How the classes keep faith with the specification:

- `ChanSys.Valid` says that the rings hold the elements of the specification, that every
  alternative of a blocked task is in exactly the array it belongs to, and that the specification
  invariant holds.  `ChanAlt` ends in a state that `Alternation.Steps` allows, and says which
  alternative the two random numbers select and what the receiver's memory then holds.
- `Sched.Valid` says that the run queue, the sleeping list and all waiter lists are well formed
  doubly linked lists over one pair of link fields per task, that `ready`, `system` and `alarmtime`
  agree with the specification, that slot `i` of the table holds the task whose `alltaskslot` is `i`,
  and that the specification invariant holds.  Each operation says which specification step it takes
  and that the lists of locks and rendez points, but those it works on, keep their contents.
- `QLock`, `Rendez` and `RWLock` do the same for `MonitorSpec` and `RWLockSpec`, and say which tasks
  they make ready, in order.
- `ChanTasks.Joint` says that the tasks blocked in `chanalt` are those that the scheduler has waiting
  on a channel, in none of its lists, and that those woken by `altexec` are ready or running until
  they have returned.  `ChanTasks.Alt` and `ChanTasks.Resume` are `chanalt` on both objects and keep it.
- `MonitorTasks.Joint` and `RWLockTasks.Joint` say the same of a lock: its waiters wait for the
  scheduler too, and those it has made ready are ready or running.

Where code and documentation differ the model follows the code: the README of the repository
(README:106-112) says that `fdwait` in a mode other than `'r'` and `'w'` waits for exceptional
conditions. The code registers nothing in that case, so that `fdwait(fd, 'e')` never returns:
`RuntimeRuns.NeverReturns` proves that the task never runs again, in any run. A poll can end the
wait exactly if the task has an fd registered (`RuntimeRuns.PollReaches`), which after `fdwait` is
the case exactly for the modes `'r'` and `'w'` (`Runtime.Sched.FdWait`).

Assumptions about callers, where the code does not check them: only the owner of a `QLock` unlocks
it or sleeps on its rendez (unlocking a free lock aborts, and is modelled), only a holder releases an
`RWLock`, a task inside an operation makes no other call, an Alt set is not in use by two calls at
once, its data pointers have room for an element and point outside all rings, a rendez list is used
with one lock only, and channels are not freed while in use.  Counters are unbounded integers; the
32-bit result of `taskdelay` is modelled.  One poll reports an fd at most once.

## Model

| member | source | states |
|---|---|---|
| Alternation.CallKeepsInv | channel.c:225-278 | whatever `rand()` gives, a call keeps: no waiting receiver on a buffered channel with data, no waiting sender where there is room, and on an unbuffered channel a waiting sender and receiver belong to one Alt set; queues stay within capacity |
| Alternation.RunKeepsInv | channel.c:5-278 | the same after every run of calls by tasks that are not blocked, with new channels created at any point |
| Alternation.NewChannelKeepsInv | channel.c:5-21 | a new channel disturbs nobody who waits |
| Alternation.EventKeepsInv | channel.c:5-278 | each event of a run, a call or the creation of a channel, keeps the invariant |
| Alternation.PartnerMeetsEmptyOrFull | channel.c:148-155 | with a partner the channel is empty, or full when the partner is a sender; without one it is buffered, so the modulo by `bufsize` is never by zero |
| Alternation.RunStaysInCapacity | channel.c:189-200 | a copy never takes from an empty channel nor leaves more than the capacity in it |
| Alternation.RunIsFifo | channel.c:156-222 | over any run, channels being created meanwhile, what a channel held and what was committed to it is, in order, what was received from it and what it still holds |
| Alternation.EventIsFifo | channel.c:156-222 | the same of one event, for the channel it moves data on and for every other |
| Alternation.WokenOncePerBlock | channel.c:213-219 | in every run of calls and channel creations a task has been woken exactly as often as it blocked, but for a block that still lasts |
| Alternation.WokenByItsOwnAlternative | channel.c:213-219 | in every such run the call that wakes a task, for the first time since it blocked, completes one of the alternatives which it offered when it blocked |
| Alternation.KindOfOutcome | channel.c:244-271 | a call runs something exactly if something can run; otherwise it blocks exactly with CHANEND and returns -1 exactly with CHANNOBLK |
| Alternation.EventKeepsCapacity | channel.c:5-21 | a channel is created empty with the capacity asked for, and no call changes a capacity |
| Alternation.RunKeepsCapacity | channel.c:5-21 | so in every run a channel keeps the capacity it was created with |
| Alternation.SomeOutcome | channel.c:244-271 | every call, with any Alt set and either terminator, has an outcome; it runs something exactly if something can run, else blocks or gives up as the terminator says |
| Ring.AtNext | channel.c:189-195 | advancing the read offset with its wrap-around renumbers every later slot by one |
| Ring.AtApart | channel.c:196-199 | the slot written next differs from every slot in use |
| Channels.Parties | channel.c:156-188 | of two alternatives that meet, the sender's pointer is read and the receiver's is written, whichever of them makes the call |
| Channels.Amove | channel.c:137-146 | exactly `n` bytes change; a nil source is zeros, a nil destination discards |
| Channels.Channel.constructor | channel.c:5-21 | a new channel is empty and its ring well formed |
| Channels.Channel.TakeOldest | channel.c:189-195 | the receiver gets the oldest element, which leaves the ring; the rest stay in order |
| Channels.Channel.PutNewest | channel.c:196-200 | the sender's element becomes the newest and every other slot keeps its bytes |
| Channels.Channel.AltCopy | channel.c:156-201 | byte ring, receiver and sender together take the queue step of `Alternation`, through direct copy, receive then refill, and wrap-around |
| ChanAlts.DelArray | channel.c:45-50 | swap-removal loses the one entry and keeps every other, without duplicates |
| ChanAlts.ChanSys.NewChannel | channel.c:5-21 | adds an empty channel on which nobody waits |
| ChanAlts.ChanSys.AltQueue | channel.c:97-104 | registers one entry and keeps all arrays consistent |
| ChanAlts.ChanSys.AltDequeue | channel.c:106-125 | the entry is found, so the abort is unreachable, and all other entries stay |
| ChanAlts.ChanSys.AltAllDequeue | channel.c:127-135 | no entry of the Alt set remains in any array, and no other is lost |
| ChanAlts.ChanSys.AltCanExec | channel.c:72-95 | the test on arrays and `nbuf` agrees with what the specification says can run |
| ChanAlts.ChanSys.AltExec | channel.c:203-222 | one alternative runs with the waiting entry that the random number selects; its task alone becomes ready and finds the entry in `xalt`; the receiver's memory holds the oldest element |
| ChanAlts.ChanSys.WakePartner | channel.c:216-219 | all entries of the woken task leave the arrays and its result index is noted |
| ChanAlts.ChanSys.MeetAndCopy | channel.c:210-216 | the entry that the random number selects is one that the specification says waits, and the copy with it is the queue step |
| ChanAlts.ChanSys.CopyOn | channel.c:216-221 | no ring but the one copied on changes, and the receiver gets the oldest element |
| ChanAlts.ChanSys.Fill | channel.c:238-242 | every entry names its task and its Alt set, and nobody else's entry changes |
| ChanAlts.ChanSys.CountReady | channel.c:244-250 | the count is the size of the set of alternatives that can run |
| ChanAlts.ChanSys.Select | channel.c:252-260 | finds the executable alternative in front of which exactly `j` others can run |
| ChanAlts.TurnReaches | channel.c:244-260 | every executable alternative is the one that some value of `rand()` selects |
| ChanAlts.OneTurn | channel.c:244-260 | and a value selects one only |
| ChanAlts.ChanSys.PickReaches | channel.c:211-213 | every entry of a wait array is the one that some value of `rand()` selects |
| ChanAlts.ChanSys.RunOne | channel.c:251-260 | with anything executable exactly one alternative runs, a step of the specification, without falling through to queueing |
| ChanAlts.ChanSys.QueueAll | channel.c:266-269 | all alternatives but the CHANNOP ones, and nothing else, join the arrays |
| ChanAlts.ChanSys.BlockOrFail | channel.c:263-271 | with nothing executable the call gives up or blocks as the terminator says, which is the specification's step |
| ChanAlts.ChanSys.Block | channel.c:266-271 | the caller becomes a blocked task with exactly its alternatives registered |
| ChanAlts.ChanSys.ChanAlt | channel.c:225-272 | the call takes a step of `Alternation`: it runs the alternative that the random number selects among the executable ones, and blocks or returns -1 only if there is none |
| ChanAlts.ChanSys.Resume | channel.c:273-278 | the index returned is that of the alternative which the waking task has run |
| ChanAlts.ChanSys.RegisteredOnce | channel.c:266-269 | a blocked task has each alternative exactly once in the array of its channel and operation |
| ChanAlts.ChanSys.EntriesAreBlocked | channel.c:213-219 | every array entry is an alternative of a task that is blocked now; none outlives its task's wake |
| ChanAlts.ChanSys.NoneMissed | channel.c:72-95 | arrays and `nbuf` show no missed communication |
| ChanTasks.WakesAWaiter | channel.c:219 | when `altexec` makes its partner ready, that task waits on a channel: it does not run and is not in the run queue, so that it is not linked in twice |
| ChanTasks.EventKeepsTogether | channel.c:203-278 | every step of scheduler, timers, fd waits, locks and channels keeps both invariants; the blocked Alt sets belong exactly to the tasks that the scheduler has waiting on channels, and a task woken by `altexec` is ready or running until it returns |
| ChanTasks.StartsTogether | task.c:356-376 | a process that starts with its first task and no channels satisfies both invariants |
| ChanTasks.RunKeepsTogether | channel.c:203-278 | the same in every state of every run of the whole program |
| ChanTasks.ComesBackWoken | channel.c:271-278 | in every run a task that had to wait in `chanalt` runs again only when it has been woken by the call that ran one of its alternatives |
| ChanTasks.PassOn | channel.c:219-271 | the task that `altexec` wakes is appended to the run queue, a caller that must wait leaves the processor and is in no list; all other lists, the channels and the data stay as they are |
| ChanTasks.Alt | channel.c:225-272 | `chanalt` on the real lists: one step of `Alternation`, chosen by the random numbers, together with its step of the scheduler; says whose Alt set is registered or woken afterwards, what the receiver's memory holds and that no lock's list changes, and keeps the joint invariant |
| ChanTasks.Call | channel.c:225-271 | the part of the call that concerns the channels alone, with the task it makes ready |
| ChanTasks.Resume | channel.c:273-278 | a task that runs again after waiting gets the index of the alternative that was run, and may call again |
| ChanTasks.PlainKeepsJoint | task.c:225-257 | any other step of scheduler or tasks, on the heap, keeps the joint invariant |
| TaskLists.AddTask | task.c:385-397 | appends to a well formed list whatever stale links the task carries |
| TaskLists.DelTask | task.c:399-410 | removes exactly one entry, keeps the order, leaves that task's own links as they were |
| TaskLists.InsertSleeper | fd.c:98-118 | links a task by hand in front of the first sleeper that is not earlier, keeping the list well formed |
| Runtime.Enlist | task.c:385-397 | every other list that shares the link fields keeps its shape |
| Runtime.Delist | task.c:399-410 | every other list that shares the link fields keeps its shape |
| Runtime.Sched.EnterTable | task.c:148-156 | the table stays a bijection although the reallocation may shrink it |
| Runtime.Sched.LeaveTable | task.c:251-253 | after swap-removal slot `i` holds the task whose `alltaskslot` is `i`, for all live tasks, within bounds |
| Runtime.Sched.Enrol | task.c:145-156 | a new task joins table and counts and nothing else |
| Runtime.Sched.TakeHead | task.c:235-241 | the head leaves the run queue and is no longer marked ready, all lists staying sound |
| Runtime.Sched.StartHead | task.c:240-243 | takes the specification's pick step |
| Runtime.Sched.Leave | task.c:170-175 | a switch leaves everything but the running task as it was |
| Runtime.Sched.Bury | task.c:248-254 | a dead task leaves table, marks and counts; every other live task keeps its slot relation |
| Runtime.Sched.Stop | task.c:202-206 | the process status is noted and nothing else changes |
| Runtime.Sched.TaskCreate | task.c:139-159 | takes the specification's create step and keeps the invariant |
| Runtime.Sched.TaskSystem | task.c:161-168 | takes the step at most once per task |
| Runtime.Sched.TaskReady | task.c:177-182 | joins the tail of the run queue and is marked ready, all lists staying sound |
| Runtime.Sched.TaskYield | task.c:184-192 | up to its switch: queues itself behind all ready tasks and notes the switch count |
| Runtime.Sched.YieldResult | task.c:193 | after it, in any run: the value returned is the number of other tasks that ran meanwhile |
| Runtime.Sched.Schedule | task.c:232-247 | ends the process with the noted status if no task counts and with status 1 if none is ready, else starts the head of the run queue |
| Runtime.Sched.TaskExit | task.c:208-214 | the task leaves table and counts; the process status is noted; table and lists are the same objects |
| Runtime.Sched.Die | task.c:247-255 | the scheduler's clean-up leaves exactly the other tasks live |
| Runtime.Sched.TaskDelay | fd.c:84-122 | starts the fd task if needed, then takes the delay step |
| Runtime.Sched.EnterSleeping | fd.c:97-118 | the running task is on the sleeping list at the place the specification says, with its deadline, all lists staying sound |
| Runtime.Sched.CountSleeper | fd.c:120-121 | the first counted sleeper also counts in `taskcount` |
| Runtime.Sched.DelayResult | fd.c:124 | the result is the elapsed time in whole milliseconds, less a multiple of 2^32 that is 0 for delays below 2^32 ms, which then return at least the delay asked for |
| Runtime.Sched.FdWait | fd.c:127-164 | registers the fd for the running task and parks it; a second registration of the fd ends the process with EEXIST and leaves the first as it is; other modes register nothing, and the task has no fd registered afterwards exactly in these |
| Runtime.Sched.FdWaitDone | fd.c:166-179 | removes the registration and nothing else |
| Runtime.Sched.PrepareFdTask | fd.c:23-31 | creates the fd task once |
| Runtime.Sched.FdTask | fd.c:42-81 | yields again unless alone; else polls with the computed timeout, and on failure ends the process with status 0, while otherwise the round is the specification's |
| Runtime.Sched.FdTurn | fd.c:42-80 | unless the poll fails: becomes a system task, or yields again, or wakes the reported tasks and drains the timers, and then yields |
| Runtime.Sched.Timeout | fd.c:49-61 | the timeout is that of the specification, from the list head alone |
| Runtime.Sched.WakeReported | fd.c:63-66 | exactly the reported tasks become ready, in the order reported, each of them parked until then |
| Runtime.Sched.WakeParked | fd.c:65 | the task of one event goes from parked to the tail of the run queue |
| Runtime.Sched.WakeSleeper | fd.c:75-79 | one turn of the timer loop takes the specification's step on lists and counters |
| Runtime.Sched.WakeDue | fd.c:74-80 | the loop ends where the specification's drain does, counters included |
| Runtime.Sched.Poll | fd.c:46-80 | timeout, wakeups and drain together are the specification's |
| Runtime.Sched.BlockOn | qlock.c:15-17 | the running task waits at the tail of a lock's list, and every other list is as before |
| Runtime.Sched.WakeFrom | qlock.c:46-49 | the first task of a list goes to the tail of the run queue, and every other list is as before |
| Runtime.Sched.BlockOnChannel | channel.c:271 | the running task waits on a channel and in no list, all lists staying sound |
| Runtime.Sched.WakeFromChannel | channel.c:219 | a task that waits on a channel goes to the tail of the run queue, all lists staying sound |
| RuntimeInv.PollFindsAllParked | fd.c:42-66 | `fdtask` polls only with an empty run queue, when every task it woke has removed its registration: each registered fd belongs to a different task that is parked, so none is linked into the run queue twice |
| RuntimeInv.StepKeepsInv | task.c:225-257 | every step of any task, of the scheduler and of `fdtask` keeps: each live task in exactly one place, the two counters exact, sleepers sorted, registrations owned by parked or just woken tasks, `fdtask` always ready |
| RuntimeInv.DrainTurn | fd.c:75-79 | one turn of the timer loop does not change where the loop ends |
| RuntimeInv.PositionSplits | fd.c:98-99 | before the place found all sleepers are earlier, from it on none is |
| RuntimeInv.WakeFdsTurn | fd.c:64-66 | when the loop reaches an event its task is still parked |
| RuntimeInv.FdRoundKeeps | fd.c:42-81 | a round of `fdtask` keeps the invariant |
| RuntimeRuns.ReachableInv | task.c:225-257 | the invariant holds in every state of every run |
| RuntimeRuns.MovesUp | task.c:232-245 | whatever the running tasks do, a task at position `p` of the run queue is at `p - d` after `d` switches |
| RuntimeRuns.StartedAfter | task.c:232-245 | it is started by the switch after exactly `p` others and not before |
| RuntimeRuns.YieldRunsTheReady | task.c:184-194 | between a `taskyield` and its resumption exactly the tasks ready at the call are started, each once and in order, whatever they do and whoever becomes ready meanwhile |
| RuntimeRuns.YieldCounts | README:40-46 | the switches counted between a `taskyield` and its resumption are as many as the other tasks that ran meanwhile, and that is what the call returns |
| RuntimeRuns.CountsUsers | task.c:233-234 | `taskcount` is zero exactly when no live task is a user task |
| RuntimeRuns.LastExitEndsProcess | task.c:208-251 | when the last user task exits with `v` the process ends with `v` before any task runs; otherwise it goes on |
| RuntimeRuns.NeverStalls | task.c:235-239 | once `fdtask` exists it is ready at every pick, so the exit for lack of runnable tasks is unreachable |
| RuntimeRuns.NeverReturns | fd.c:127-164 | a task that called `fdwait` in a mode other than 'r' and 'w' is parked for ever: it is not ready nor running in any later state of any run |
| RuntimeRuns.PollReaches | fd.c:62-66 | some result of the poll ends the wait of a task in `fdwait` exactly if the task has an fd registered |
| RuntimeRuns.PollTimeout | fd.c:49-61 | with a sleeper the timeout is 0 to 5000 ms and never reaches past a deadline, unless that is already due and it is 0; it is no shorter than whole milliseconds allow |
| RuntimeRuns.DrainExact | fd.c:74-80 | whatever the poll has woken before, a drain moves exactly the sleepers that are due, which are a prefix of the list, in order |
| RuntimeRuns.PollRound | fd.c:42-81 | after a round that polls the run queue is the tasks of the reported fds in the order reported, then exactly the sleepers that are due, then `fdtask` |
| RuntimeRuns.DelayLongEnough | README:48-51 | a task that called `taskdelay(ms)` does not run again before its deadline, in any run with a clock that never goes back |
| RuntimeEffects.LifeCycle | task.c:139-257 | where every task is after any step: each step moves only the tasks it is about, between running, run queue, sleeping list, `fdwait`, locks, channels and gone; a round of `fdtask` while others are ready moves nobody but itself |
| RuntimeEffects.ExitStatus | task.c:202-240 | the process ends with the status of `taskexitall`, with the noted status once no user task is live, with 1 when it stalls, with 17 when an fd is registered twice and with 0 when the poll fails; no other step ends it |
| RuntimeEffects.Counters | task.c:145-251 | `taskcount` is the number of live user tasks, and one more while a user task sleeps |
| RuntimeEffects.SystemTasks | task.c:161-168 | only `tasksystem` makes a task a system task, and it stays one while it lives |
| RuntimeEffects.RegisteredFds | fd.c:127-179 | a step changes no registration but that of its own fd: `fdwait` adds one that was free and removes it at its end |
| RuntimeEffects.Deadlines | fd.c:97-105 | only `taskdelay` sets a deadline, the caller's, in nanoseconds from now |
| RuntimeEffects.WokenFromFdWait | fd.c:62-66 | a poll wakes exactly the tasks reported, each until it has removed its registration |
| RuntimeEffects.StaysRegistered | fd.c:155-179 | in every run the fd of a task in `fdwait` stays registered for that task alone until its own end of `fdwait` |
| RuntimeEffects.PollsWhenAlone | fd.c:42-46 | in every run `fdtask` polls when it runs again exactly if no other task was ready when it yielded |
| RWLockSpec.CallKeepsInv | qlock.c:52-142 | never a writer with readers; `readers` counts the read holders; a waiting writer means the lock is held, a waiting reader that a writer holds it or is queued |
| RWLockSpec.RunKeepsInv | qlock.c:52-142 | the same after every sequence of calls by legal holders |
| RWLockSpec.ReleasedLeave | qlock.c:106-142 | a release makes ready exactly the tasks that it takes off the queues, once each |
| RWLockSpec.LeaverHolds | qlock.c:106-142 | a task leaves the queues only as a holder of the lock |
| RWLockSpec.ArrivalHolds | qlock.c:52-92 | whoever finds the lock open holds it at once, whether the call may block or not, beside those who held it before |
| RWLockSpec.WritesUntilRelease | qlock.c:79-142 | in every run a writer is inside, and alone, until its own `wunlock` |
| RWLockSpec.ReadsUntilRelease | qlock.c:52-142 | in every run a reader is inside, and no writer is, until its own `runlock` |
| RWLockSpec.ArrivalWaits | qlock.c:52-92 | no arrival overtakes a queued writer: holders and every queued writer's rank stay as they are |
| RWLockSpec.ReleaseAdvances | qlock.c:106-142 | every release grants a queued writer the lock or lowers its rank (position, writer inside, readers) lexicographically |
| RWLockSpec.WUnlockAdmitsReaders | qlock.c:132-141 | a `wunlock` admits all waiting readers, or else the first waiting writer |
| RWLockSpec.OnlyTheWriterReleases | qlock.c:118-131 | with a writer inside the only legal release is `wunlock` |
| RWLockSpec.WriterGranted | qlock.c:79-142 | in every run with ever more releases a waiting writer gets the lock |
| RWLockSpec.ReaderGranted | qlock.c:52-142 | in every such run a waiting reader is admitted, by a `wunlock` |
| MonitorSpec.StepKeepsInv | qlock.c:6-50 | an unowned lock has no waiters, only the owner can have been granted the lock, and no task is in two queues, with the sleepers of all rendez points |
| MonitorSpec.RunKeepsInv | rendez.c:6-33 | the same for every run of lock, sleep and wakeup calls |
| MonitorSpec.AskingTakes | qlock.c:6-17 | `qlock` and `canqlock` on a free lock take it for the caller; on an owned one `qlock` queues the caller last and `canqlock` changes nothing |
| MonitorSpec.OwnsUntilRelease | qlock.c:6-50 | in every run a task that owns the lock owns it until its own `qunlock` or `tasksleep` |
| MonitorSpec.TakenUntilRelease | qlock.c:6-50 | in every run a task that finds the lock free in `qlock` or `canqlock` is the only owner from then to its own release |
| MonitorSpec.ResumeReturns | qlock.c:18-22 | a task that returns from a `qlock` in which it waited keeps the lock, and nothing else changes |
| MonitorSpec.GrantedOwns | qlock.c:18-21 | the abort after resumption is unreachable |
| MonitorSpec.LockIsFifo | qlock.c:37-50 | a task at position `p` of the queue owns the lock after exactly `p + 1` hand-overs |
| MonitorSpec.SleeperStays | rendez.c:18-33 | nothing but the wakeups of its rendez takes a sleeper off the list, in order |
| MonitorSpec.SleeperWoken | rendez.c:18-33 | so no later wakeup is missed: the one that reaches its place, or the first for all, wakes it |
| MonitorSpec.ReturnsOwning | rendez.c:13-15 | a task that comes out of `tasksleep` or of a waiting `qlock` owns the lock |
| Locks.QLock.Lock | qlock.c:6-17 | takes the specification step; the caller is the owner afterwards exactly if the lock was free, is last on the list if it blocks, and blocks exactly when the lock is owned and it may block |
| Locks.QLock.Resumed | qlock.c:18-22 | the ownership check never fails |
| Locks.QLock.Unlock | qlock.c:37-50 | aborts exactly on a free lock; else hands the lock to the first waiter and makes it ready |
| Locks.QLock.HandOver | qlock.c:46-49 | the owner is the former head of the list, which alone is made ready, or nobody |
| Locks.Rendez.Sleep | rendez.c:6-13 | takes the specification step with and without a lock: on the list first, then the hand-over, then the switch |
| Locks.Rendez.Enter | rendez.c:9-13 | the sleeper is last on its list, the lock has passed to its first waiter, and the sleeper has given up the processor |
| Locks.Rendez.Awake | rendez.c:14-15 | takes the lock again if there is one |
| Locks.Rendez.Wakeup | rendez.c:18-33 | makes ready the first sleeper, or all in order, and returns how many |
| Locks.Rendez.WakeSome | rendez.c:24-31 | the loop wakes the sleepers in order until there is none left or, unless all are meant, one has been woken |
| Locks.RWLock.RLock | qlock.c:52-65 | takes the specification step; blocks exactly when a writer is inside or queued |
| Locks.RWLock.WLock | qlock.c:79-92 | takes the specification step; blocks exactly when somebody is inside |
| Locks.RWLock.RUnlock | qlock.c:106-116 | the last reader hands the lock to the first writer and makes it ready |
| Locks.RWLock.WUnlock | qlock.c:118-142 | aborts exactly on a lock without a writer, never for readers; makes ready, in order, all waiting readers or else the first writer |
| Locks.RWLock.AdmitReaders | qlock.c:132-136 | the loop counts and wakes every waiting reader |
| Locks.RWLock.GrantWriter | qlock.c:137-141 | the first waiting writer, if there is one, becomes the owner and is made ready |
| MonitorTasks.EventKeepsTogether | qlock.c:6-50 | every step of the lock, of its rendez points, of the scheduler and of other tasks keeps: waiters and sleepers wait for the scheduler, tasks granted the lock or woken are ready or running |
| MonitorTasks.RunKeepsTogether | rendez.c:6-33 | the same in every state of every run of the whole program |
| MonitorTasks.ComesBackGranted | qlock.c:17-21 | in every run a task that had to wait in `qlock` runs again only as the owner, granted the lock: the abort after the switch is unreachable whatever the scheduler and other tasks do |
| MonitorTasks.ComesBackWoken | rendez.c:13-15 | in every run a task that sleeps on a rendez runs again only after a wakeup of that rendez |
| MonitorTasks.EventKeepsJoint | qlock.c:6-50 | on the heap every operation that takes its specification step keeps lock and scheduler together |
| RWLockTasks.EventKeepsTogether | qlock.c:52-142 | every call, and every other step, keeps: who waits for the lock waits for the scheduler, and who is given it while waiting is a holder, and ready or running until it has returned |
| RWLockTasks.RunKeepsTogether | qlock.c:52-142 | the same in every state of every run of the whole program |
| RWLockTasks.ComesBackHolding | qlock.c:52-142 | in every run a task that had to wait in `rlock` or `wlock` waits until it is given the lock, is then in the run queue, and runs again only as a holder: no waiter is lost |
| RWLockTasks.WriterComesBack | qlock.c:79-92 | in every run a task that had to wait in `wlock` next runs as the writer, with no reader inside |
| RWLockTasks.ReaderComesBack | qlock.c:52-65 | in every run a task that had to wait in `rlock` next runs holding the lock for reading, with no writer inside |
| RWLockTasks.EventKeepsJoint | qlock.c:52-142 | on the heap every call that takes its specification step keeps lock and scheduler together |
| Primes.FilterStream | primes.c:26-30 | dividing by `p` turns the stream without multiples of earlier primes into the one without multiples of `p` either |
| Primes.HeadIsNextPrime | primes.c:19-23 | the first number that no earlier prime divides is the next prime |
| Sieve.StepKeeps | primes.c:12-49 | every step of every task, under any schedule and buffer size, keeps the relation between what each stage has received and what it has sent |
| Sieve.NoMeeting | channel.c:72-95 | the sender and the receiver of a channel do not both wait for it |
| Sieve.EndsAboveGoal | primes.c:19-21 | the program ends only in a stage whose first number exceeds `goal` |
| Sieve.CarriesStreams | primes.c:26-30 | every channel carries a prefix of the numbers from 2 that no earlier stage's prime divides, and is received in order |
| Sieve.PrintsPrimes | primes.c:19-23 | under every schedule the numbers printed are the first primes in order, none above `goal`, and at exit exactly the primes up to `goal` |
| Sieve.NeverStuck | primes.c:26-48 | until the program ends some task can run |
| SieveEnds.GeneratorBound | primes.c:47-48 | the generator cannot send more numbers than the pipeline of at most `goal` stages can swallow |
| SieveEnds.StepProgress | primes.c:12-49 | every step but the last adds to a quantity that `goal` and the buffer size bound |
| SieveEnds.EndsWithThePrimes | primes.c:12-49 | every schedule ends, within a number of steps bounded by `goal` and the buffer size, having printed exactly the primes up to `goal` |

## Left out

- Runtime.Sched.FdWait: the flag bits in `*fd` are never set by any code, so only registration by ADD and removal by DEL are modelled; a failing `epoll_ctl` other than for a registered fd, which ends the process, is not.
- Runtime.Sched.PrepareFdTask: a failing `epoll_create` (fd.c:25-29), which ends the process, is not modelled.
- Runtime.Sched.TaskYield: stops at the switch, as every operation that gives up the processor does; what it returns is the contract of Runtime.Sched.YieldResult.
- Runtime.Sched.Poll: the poll that succeeds; one that fails is in Runtime.Sched.FdTask, where the test of fd.c:67 for `EINTR`, which is positive, never succeeds after a failure.
- ChanAlts.ChanSys.ChanAlt: `asend`, `arecv` and the `task` and `xalt` fields are maps keyed by channel and by Alt pointer instead of fields of the objects, and the growth of an array by 16 is not modelled.
- Sieve.StepKeeps: the endless loops of `primetask` and `taskmain` are steps on values instead of loops, since control can change hands in each channel operation; `int i` is taken not to overflow, and `quiet` to be off.
- Runtime.Sched.DelayResult: the 64-bit deadline is taken not to wrap.
- Context switching, stacks and `taskalloc` (context.c, asm.S, the ucontext headers, `needstack`): machine specific; a switch ends a step.
- System calls: the poll reports any set of registered fds and the clock any later time; descriptors, `read` and `write` are not modelled.
- chanfree (channel.c:23-33): the source says that its races are not worked out.
- The typed wrappers of `_chanop` (channel.c:280-end): thin forms of `chanalt` with one alternative.
- net.c, tcpproxy.c, tcplongclient.c, tcplongconnection.c, httpload.c, testdelay.c, testdelay1.c, test/: socket plumbing and demonstrations.
- print.c and the functions for names, states and debugging: they do not touch the state of the runtime.
- Allocation failure, which ends the program, and the distribution of `rand()`, which is any choice.
