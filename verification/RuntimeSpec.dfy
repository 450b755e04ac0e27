/** The scheduler of task.c with the timers and fd waits of fd.c, as one state machine.

    A step is what happens between two points where control can change hands: the
    running task does something, the scheduler picks the next task, or the fd task
    goes once round its loop.  The class `Runtime.Sched` carries out these steps on
    linked lists and arrays; this module proves what they keep over every run. */
module RuntimeSpec {
  import opened Options
  import opened Seqs

  const NS_PER_MS := 1000000
  const MAX_POLL_MS := 5000
  /** `EEXIST` of the host: the error of registering an fd twice. */
  const EEXIST := 17

  /** `fdtask`: not created, created but not run, or inside `taskyield`, which noted
      the switch count `n`. */
  datatype FdTask<+T> = NotStarted | Fresh(task: T) | Yielded(task: T, n: nat)

  datatype Sys<T> = Sys(
    slots: seq<T>,            // alltask[0..nalltask]: the live tasks
    system: set<T>,           // those marked `system`
    running: Option<T>,
    runq: seq<T>,
    sleeping: seq<T>,
    alarm: map<T, nat>,       // alarmtime, in nanoseconds
    epoll: map<nat, T>,       // registered fds
    parked: set<T>,           // blocked in fdwait
    woken: set<T>,            // made ready by the poll, registration not removed yet
    waiting: set<T>,          // blocked in a lock or a rendez
    chanwait: set<T>,         // blocked in chanalt
    taskcount: int,
    sleepingcounted: int,
    nswitch: nat,
    exitval: int,
    fd: FdTask<T>,
    clock: nat,               // the last time read
    exit: Option<int>)        // the process has ended with this status

  ghost function Elems<T>(q: seq<T>): set<T> { set x | x in q }

  /** The tasks of `q` that count: those not marked `system`. */
  ghost function Users<T>(q: seq<T>, system: set<T>): set<T> { set x | x in q && x !in system }

  /** The globals before `main` creates the first task. */
  ghost function Idle<T>(): Sys<T> {
    Sys([], {}, None, [], [], map[], map[], {}, {}, {}, {}, 0, 0, 0, 0, NotStarted, 0, None)
  }

  // ----------------------------------------------------------------- the steps

  ghost function Ready<T>(s: Sys<T>, t: T): Sys<T> {
    s.(runq := s.runq + [t])
  }

  /** `taskcreate` */
  ghost function Create<T>(s: Sys<T>, t: T): Sys<T> {
    Ready(s.(slots := s.slots + [t], taskcount := s.taskcount + 1), t)
  }

  /** `tasksystem` */
  ghost function MakeSystem<T>(s: Sys<T>, t: T): Sys<T> {
    if t in s.system then s else s.(system := s.system + {t}, taskcount := s.taskcount - 1)
  }

  /** `prepare_fdtask`, on the first `taskdelay` or `fdwait` */
  ghost function StartFd<T>(s: Sys<T>, f: T): Sys<T> {
    Create(s, f).(fd := Fresh(f))
  }

  /** `taskyield` up to its switch */
  ghost function Yield<T>(s: Sys<T>, t: T): Sys<T> {
    Ready(s, t).(running := None)
  }

  /** A lock or rendez operation that waits */
  ghost function Block<T>(s: Sys<T>, t: T): Sys<T> {
    s.(waiting := s.waiting + {t}, running := None)
  }

  /** `taskready` on a task that waits so */
  ghost function Wake<T>(s: Sys<T>, u: T): Sys<T> {
    Ready(s.(waiting := s.waiting - {u}), u)
  }

  /** `chanalt` when it waits */
  ghost function BlockChan<T>(s: Sys<T>, t: T): Sys<T> {
    s.(chanwait := s.chanwait + {t}, running := None)
  }

  /** `altexec` makes its partner ready. */
  ghost function WakeChan<T>(s: Sys<T>, u: T): Sys<T> {
    Ready(s.(chanwait := s.chanwait - {u}), u)
  }

  /** `taskready` on several tasks that wait in a lock or rendez, one after the other */
  ghost function WakeAll<T>(s: Sys<T>, us: seq<T>): Sys<T> {
    s.(waiting := s.waiting - Elems(us), runq := s.runq + us)
  }

  ghost function At<T>(alarm: map<T, nat>, t: T): nat {
    if t in alarm then alarm[t] else 0
  }

  /** Where the scan of `taskdelay` stops: at the first sleeper that is not earlier. */
  ghost function Position<T>(q: seq<T>, alarm: map<T, nat>, when: nat): (i: nat)
    ensures i <= |q|
  {
    if q == [] || At(alarm, q[0]) >= when then 0 else 1 + Position(q[1..], alarm, when)
  }

  /** `taskdelay` up to its switch */
  ghost function Delay<T>(s: Sys<T>, t: T, ms: nat, now: nat): Sys<T>
  {
    var when := now + ms * NS_PER_MS;
    var i := Position(s.sleeping, s.alarm, when);
    var counts := t !in s.system;
    s.(sleeping := More(s.sleeping, i, t),
       alarm := s.alarm[t := when],
       sleepingcounted := s.sleepingcounted + if counts then 1 else 0,
       taskcount := s.taskcount + if counts && s.sleepingcounted == 0 then 1 else 0,
       running := None,
       clock := now)
  }

  /** `fdwait` up to its switch; registering an fd that is registered ends the process. */
  ghost function Park<T>(s: Sys<T>, t: T, fd: nat): Sys<T> {
    if fd in s.epoll then s.(exit := Some(EEXIST))
    else s.(epoll := s.epoll[fd := t], parked := s.parked + {t}, running := None)
  }

  /** `fdwait` up to its switch in a mode that registers nothing */
  ghost function ParkUnregistered<T>(s: Sys<T>, t: T): Sys<T> {
    s.(parked := s.parked + {t}, running := None)
  }

  /** `fdwait` after its switch */
  ghost function Unpark<T>(s: Sys<T>, t: T, fd: nat): Sys<T> {
    s.(epoll := s.epoll - {fd}, woken := s.woken - {t})
  }

  /** `taskexit` and what the scheduler then does with the dead task */
  ghost function Exit<T>(s: Sys<T>, t: T, v: int): Sys<T> {
    s.(slots := if t in s.slots then SwapRemove(s.slots, IndexOf(s.slots, t)) else s.slots,
       system := s.system - {t},
       taskcount := s.taskcount - if t in s.system then 0 else 1,
       exitval := v,
       running := None)
  }

  /** The scheduler starts the head of the run queue. */
  ghost function Pick<T>(s: Sys<T>): Sys<T>
    requires s.runq != []
  {
    s.(running := Some(s.runq[0]), runq := s.runq[1..], nswitch := s.nswitch + 1)
  }

  /** The scheduler finds no task that counts, or none that can run. */
  ghost function Halt<T>(s: Sys<T>): Sys<T> {
    s.(exit := Some(if s.taskcount == 0 then s.exitval else 1))
  }

  /** The sleepers whose time has come, in list order, and the others. */
  ghost function Due<T>(q: seq<T>, alarm: map<T, nat>, now: nat): seq<T>
  {
    if q == [] then [] else (if At(alarm, q[0]) <= now then [q[0]] else []) + Due(q[1..], alarm, now)
  }

  ghost function NotDue<T>(q: seq<T>, alarm: map<T, nat>, now: nat): seq<T>
  {
    if q == [] then [] else (if At(alarm, q[0]) <= now then [] else [q[0]]) + NotDue(q[1..], alarm, now)
  }

  /** The timer part of `fdtask` */
  ghost function Drain<T>(s: Sys<T>, now: nat): Sys<T>
  {
    var due := Due(s.sleeping, s.alarm, now);
    var left := s.sleepingcounted - |Users(due, s.system)|;
    s.(sleeping := NotDue(s.sleeping, s.alarm, now),
       runq := s.runq + due,
       sleepingcounted := left,
       taskcount := s.taskcount - if Users(due, s.system) != {} && left == 0 then 1 else 0,
       clock := now)
  }

  /** One turn of the timer loop of `fdtask` */
  ghost function WakeFirst<T>(s: Sys<T>): Sys<T>
    requires s.sleeping != []
  {
    var counts := s.sleeping[0] !in s.system;
    var left := s.sleepingcounted - if counts then 1 else 0;
    Ready(s.(sleeping := s.sleeping[1..],
             sleepingcounted := left,
             taskcount := s.taskcount - if counts && left == 0 then 1 else 0), s.sleeping[0])
  }

  /** The timeout `fdtask` gives to the poll; -1 means no limit. */
  ghost function PollMs<T>(q: seq<T>, alarm: map<T, nat>, now: nat): int
  {
    if q == [] then -1
    else
      var a := At(alarm, q[0]);
      if now >= a then 0
      else if now + MAX_POLL_MS * NS_PER_MS >= a then (a - now) / NS_PER_MS
      else MAX_POLL_MS
  }

  /** The tasks of the reported fds, in the order reported. */
  ghost function TasksOf<T>(epoll: map<nat, T>, events: seq<nat>): (ts: seq<T>)
    requires forall f | f in events :: f in epoll
    ensures |ts| == |events| && forall i | 0 <= i < |ts| :: ts[i] == epoll[events[i]]
  {
    seq(|events|, i requires 0 <= i < |events| => epoll[events[i]])
  }

  /** The I/O part of `fdtask`: the tasks of the reported fds become ready. */
  ghost function WakeFds<T>(s: Sys<T>, events: seq<nat>): Sys<T>
    requires forall f | f in events :: f in s.epoll
  {
    var ts := TasksOf(s.epoll, events);
    s.(parked := s.parked - Elems(ts), woken := s.woken + Elems(ts), runq := s.runq + ts)
  }

  /** One turn of the I/O loop of `fdtask` */
  ghost function WakeFd<T>(s: Sys<T>, fd: nat): Sys<T>
    requires fd in s.epoll
  {
    var t := s.epoll[fd];
    Ready(s.(parked := s.parked - {t}, woken := s.woken + {t}), t)
  }

  /** Once round the loop of `fdtask`: unless it is alone it only yields again; otherwise
      it polls, which reports `events`, and then looks at the clock. */
  ghost function FdRound<T>(s: Sys<T>, events: seq<nat>, now: nat): Sys<T>
    requires s.fd != NotStarted
    requires forall f | f in events :: f in s.epoll
  {
    var f := s.fd.task;
    var s1 :=
      if s.fd.Fresh? then MakeSystem(s, f)
      else if s.nswitch - s.fd.n - 1 > 0 then s
      else Drain(WakeFds(s, events), now);
    Yield(s1, f).(fd := Yielded(f, s.nswitch))
  }

  // ----------------------------------------------------------------- invariant

  /** Every live task is in exactly one place. */
  ghost predicate Places<T>(s: Sys<T>) {
    && NoDup(s.slots) && NoDup(s.runq) && NoDup(s.sleeping)
    && (s.running.Some? ==> s.running.value in s.slots && s.running.value !in s.runq && !Waits(s, s.running.value))
    && (forall t | t in s.runq :: t in s.slots && !Waits(s, t))
    && (forall t | t in s.sleeping :: t in s.slots && t !in s.parked && t !in s.waiting && t !in s.chanwait)
    && (forall t | t in s.parked :: t in s.slots && t !in s.waiting && t !in s.chanwait)
    && (forall t | t in s.waiting :: t in s.slots && t !in s.chanwait)
    && (forall t | t in s.chanwait :: t in s.slots)
    && (forall t | t in s.slots :: t in s.runq || Waits(s, t) || s.running == Some(t))
  }

  /** `t` waits for time, I/O, another task or a channel. */
  ghost predicate Waits<T>(s: Sys<T>, t: T) {
    t in s.sleeping || t in s.parked || t in s.waiting || t in s.chanwait
  }

  /** The two counters. */
  ghost predicate Counts<T>(s: Sys<T>) {
    && (forall t | t in s.system :: t in s.slots)
    && s.sleepingcounted == |Users(s.sleeping, s.system)|
    && s.taskcount == |Users(s.slots, s.system)| + if s.sleepingcounted > 0 then 1 else 0
  }

  ghost predicate Sorted<T>(q: seq<T>, alarm: map<T, nat>) {
    && (forall x | x in q :: x in alarm)
    && (forall i, j | 0 <= i < j < |q| :: alarm[q[i]] <= alarm[q[j]])
  }

  /** A registered fd belongs to a task that is parked or has just been woken from it. */
  ghost predicate Registrations<T>(s: Sys<T>) {
    && (forall f | f in s.epoll :: s.epoll[f] in s.parked || s.epoll[f] in s.woken)
    && (forall f, g | f in s.epoll && g in s.epoll && f != g :: s.epoll[f] != s.epoll[g])
    && (forall t | t in s.woken :: t in s.runq || s.running == Some(t))
  }

  /** The fd task is always ready or running, and knows when it is alone. */
  ghost predicate FdOk<T>(s: Sys<T>) {
    s.fd != NotStarted ==>
      var f := s.fd.task;
      && (f in s.runq || s.running == Some(f)) && f !in s.woken
      && (s.fd.Yielded? ==>
            && f in s.system && s.fd.n <= s.nswitch
            && (f in s.runq && s.nswitch == s.fd.n ==> s.running == None && s.runq[|s.runq| - 1] == f)
            && (s.running == Some(f) ==> s.fd.n < s.nswitch && (s.nswitch == s.fd.n + 1 ==> s.runq == [])))
  }

  ghost predicate Inv<T>(s: Sys<T>) {
    Places(s) && Counts(s) && Sorted(s.sleeping, s.alarm) && Registrations(s) && FdOk(s)
  }

  // ----------------------------------------------------------------- actions

  datatype Action<T> =
    | DoCreate(t: T)
    | DoMakeSystem
    | DoStartFd(f: T)
    | DoYield
    | DoBlock
    | DoWake(u: T)
    | DoBlockChan
    | DoWakeChan(u: T)
    | DoDelay(ms: nat, now: nat)
    | DoPark(fd: nat)
    | DoParkUnregistered
    | DoUnpark(fd: nat)
    | DoExit(v: int)
    | DoExitAll(v: int)
    | DoPick
    | DoHalt
    | DoFdRound(events: seq<nat>, now1: nat, now: nat)
    | DoPollFails

  /** A task other than `fdtask` runs; one woken from `fdwait` is still inside it. */
  ghost predicate UserRuns<T>(s: Sys<T>) {
    && s.running.Some?
    && (s.fd != NotStarted ==> s.running.value != s.fd.task)
    && s.running.value !in s.woken
  }

  /** A step of the scheduler or of `fdtask`, not of another task */
  ghost predicate OfScheduler<T>(a: Action<T>) {
    a.DoPick? || a.DoHalt? || a.DoFdRound? || a.DoPollFails?
  }

  ghost predicate Enabled<T>(s: Sys<T>, a: Action<T>) {
    && s.exit == None
    && match a
       case DoCreate(t) => UserRuns(s) && t !in s.slots
       case DoMakeSystem => UserRuns(s)
       case DoStartFd(f) => UserRuns(s) && f !in s.slots && s.fd == NotStarted
       case DoYield => UserRuns(s)
       case DoBlock => UserRuns(s)
       case DoWake(u) => UserRuns(s) && u in s.waiting
       case DoBlockChan => UserRuns(s)
       case DoWakeChan(u) => UserRuns(s) && u in s.chanwait
       case DoDelay(ms, now) => UserRuns(s) && s.fd != NotStarted && s.clock <= now
       case DoPark(fd) => UserRuns(s) && s.fd != NotStarted
       case DoParkUnregistered => UserRuns(s) && s.fd != NotStarted
       case DoUnpark(fd) =>
         s.running.Some? && s.running.value in s.woken && fd in s.epoll && s.epoll[fd] == s.running.value
       case DoExit(v) => UserRuns(s)
       case DoExitAll(v) => UserRuns(s)
       case DoPick => s.running == None && s.taskcount != 0 && s.runq != []
       case DoHalt => s.running == None && (s.taskcount == 0 || s.runq == [])
       case DoFdRound(events, now1, now) =>
         && s.fd != NotStarted && s.running == Some(s.fd.task)
         && s.clock <= now1 <= now && NoDup(events) && forall f | f in events :: f in s.epoll
       case DoPollFails => s.fd.Yielded? && s.running == Some(s.fd.task) && s.nswitch - s.fd.n - 1 <= 0
  }

  ghost function Do<T>(s: Sys<T>, a: Action<T>): Sys<T>
    requires Enabled(s, a)
  {
    match a
    case DoCreate(t) => Create(s, t)
    case DoMakeSystem => MakeSystem(s, s.running.value)
    case DoStartFd(f) => StartFd(s, f)
    case DoYield => Yield(s, s.running.value)
    case DoBlock => Block(s, s.running.value)
    case DoWake(u) => Wake(s, u)
    case DoBlockChan => BlockChan(s, s.running.value)
    case DoWakeChan(u) => WakeChan(s, u)
    case DoDelay(ms, now) => Delay(s, s.running.value, ms, now)
    case DoPark(fd) => Park(s, s.running.value, fd)
    case DoParkUnregistered => ParkUnregistered(s, s.running.value)
    case DoUnpark(fd) => Unpark(s, s.running.value, fd)
    case DoExit(v) => Exit(s, s.running.value, v)
    case DoExitAll(v) => s.(exit := Some(v))
    case DoPick => Pick(s)
    case DoHalt => Halt(s)
    case DoFdRound(events, now1, now) => FdRound(s, events, now)
    case DoPollFails => s.(exit := Some(0))
  }
}
