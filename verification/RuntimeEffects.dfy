/** What each step of the runtime does, seen from outside: where every task is before and after it,
    what else changes, and how the process ends. */
module RuntimeEffects {
  import opened Options
  import opened Seqs
  import opened RuntimeSpec
  import opened RuntimeInv
  import opened RuntimeRuns

  /** Where a task is.  By the invariant it is in no two of these places. */
  datatype Place = Gone | Running | Queued | Asleep | InFdWait | OnLock | OnChannel

  ghost function PlaceOf<T>(s: Sys<T>, t: T): Place {
    if t !in s.slots then Gone
    else if s.running == Some(t) then Running
    else if t in s.runq then Queued
    else if t in s.sleeping then Asleep
    else if t in s.parked then InFdWait
    else if t in s.waiting then OnLock
    else OnChannel
  }

  /** `fdtask` runs and no other task has run since it yielded. */
  ghost predicate Alone<T>(s: Sys<T>) {
    s.fd.Yielded? && s.running == Some(s.fd.task) && s.nswitch == s.fd.n + 1
  }

  ghost predicate Reported<T>(s: Sys<T>, events: seq<nat>, t: T) {
    exists f :: f in events && f in s.epoll && s.epoll[f] == t
  }

  /** The life cycle of task `t`: every step moves only the tasks that it is about. */
  ghost function PlaceAfter<T>(s: Sys<T>, a: Action<T>, t: T): Place {
    var here := PlaceOf(s, t);
    match a
    case DoCreate(n) => if t == n then Queued else here
    case DoStartFd(n) => if t == n then Queued else here
    case DoYield => if here == Running then Queued else here
    case DoBlock => if here == Running then OnLock else here
    case DoWake(u) => if t == u then Queued else here
    case DoBlockChan => if here == Running then OnChannel else here
    case DoWakeChan(u) => if t == u then Queued else here
    case DoDelay(ms, now) => if here == Running then Asleep else here
    case DoPark(fd) => if here == Running && fd !in s.epoll then InFdWait else here
    case DoParkUnregistered => if here == Running then InFdWait else here
    case DoExit(v) => if here == Running then Gone else here
    case DoPick => if s.runq != [] && t == s.runq[0] then Running else here
    case DoFdRound(events, now1, now) =>
      if here == Running then Queued
      else if Alone(s) && here == Asleep && At(s.alarm, t) <= now then Queued
      else if Alone(s) && Reported(s, events, t) then Queued
      else here
    case _ => here
  }

  lemma LifeCycle<T>(s: Sys<T>, a: Action<T>, t: T)
    requires Inv(s) && Enabled(s, a)
    ensures PlaceOf(Do(s, a), t) == PlaceAfter(s, a, t)
  {
    hide Places, Counts, Sorted, Registrations, FdOk;
    match a
    case DoExit(v) => ExitMoves(s, v, t);
    case DoDelay(ms, now) => DelayMoves(s, ms, now, t);
    case DoPick => PickMoves(s, t);
    case DoFdRound(events, now1, now) => RoundMoves(s, a, t);
    case _ =>
      if a.DoCreate? || a.DoStartFd? || a.DoWake? || a.DoWakeChan? {
        JoinsQueue(s, a, t);
      } else if a.DoMakeSystem? || a.DoUnpark? || a.DoExitAll? || a.DoHalt? || a.DoPollFails? {
        NobodyMoves(s, a, t);
      } else {
        RunnerMoves(s, a, t);
      }
  }

  lemma JoinsQueue<T>(s: Sys<T>, a: Action<T>, t: T)
    requires Inv(s) && Enabled(s, a) && (a.DoCreate? || a.DoStartFd? || a.DoWake? || a.DoWakeChan?)
    ensures PlaceOf(Do(s, a), t) == PlaceAfter(s, a, t)
  {
    hide Counts, Sorted, Registrations, FdOk, NoDup, FdRound, Delay, Exit;
  }

  lemma NobodyMoves<T>(s: Sys<T>, a: Action<T>, t: T)
    requires Enabled(s, a) && (a.DoMakeSystem? || a.DoUnpark? || a.DoExitAll? || a.DoHalt? || a.DoPollFails?)
    ensures PlaceOf(Do(s, a), t) == PlaceAfter(s, a, t)
  {
    hide FdRound, Delay, Exit;
  }

  lemma RunnerMoves<T>(s: Sys<T>, a: Action<T>, t: T)
    requires Inv(s) && Enabled(s, a)
    requires a.DoYield? || a.DoBlock? || a.DoBlockChan? || a.DoPark? || a.DoParkUnregistered?
    ensures PlaceOf(Do(s, a), t) == PlaceAfter(s, a, t)
  {
    hide Counts, Sorted, Registrations, FdOk, NoDup, FdRound, Delay, Exit;
  }

  lemma ExitMoves<T>(s: Sys<T>, v: int, t: T)
    requires Inv(s) && s.running.Some?
    ensures PlaceOf(Exit(s, s.running.value, v), t) == if s.running == Some(t) then Gone else PlaceOf(s, t)
  {
    hide Counts, Sorted, Registrations, FdOk;
    SwapRemoved(s.slots, IndexOf(s.slots, s.running.value));
    hide SwapRemove;
  }

  lemma DelayMoves<T>(s: Sys<T>, ms: nat, now: nat, t: T)
    requires Inv(s) && s.running.Some?
    ensures PlaceOf(Delay(s, s.running.value, ms, now), t) == if s.running == Some(t) then Asleep else PlaceOf(s, t)
  {
    hide Counts, Sorted, Registrations, FdOk;
    RunningAwake(s);
    MoreAt(s.sleeping, Position(s.sleeping, s.alarm, now + ms * NS_PER_MS), s.running.value);
    hide More, Position;
  }

  lemma PickMoves<T>(s: Sys<T>, t: T)
    requires Inv(s) && s.running == None && s.runq != []
    ensures PlaceOf(Pick(s), t) == if t == s.runq[0] then Running else PlaceOf(s, t)
  {
    hide Counts, Sorted, Registrations, FdOk;
    assert s.runq == [s.runq[0]] + s.runq[1..];
  }

  lemma RoundMoves<T>(s: Sys<T>, a: Action<T>, t: T)
    requires Inv(s) && Enabled(s, a) && a.DoFdRound?
    ensures PlaceOf(Do(s, a), t) == PlaceAfter(s, a, t)
  {
    if Alone(s) {
      PollMoves(s, a.events, a.now, t);
    } else {
      NotAlone(s);
      hide Counts, Sorted, Registrations;
    }
  }

  lemma NotAlone<T>(s: Sys<T>)
    requires Inv(s) && s.fd != NotStarted && s.running == Some(s.fd.task)
    ensures Alone(s) <==> s.fd.Yielded? && s.nswitch - s.fd.n - 1 <= 0
  {
  }

  lemma PollMoves<T>(s: Sys<T>, events: seq<nat>, now: nat, t: T)
    requires Inv(s) && Alone(s) && NoDup(events) && forall f | f in events :: f in s.epoll
    ensures PlaceOf(FdRound(s, events, now), t) ==
            if s.running == Some(t) then Queued
            else if PlaceOf(s, t) == Asleep && At(s.alarm, t) <= now then Queued
            else if Reported(s, events, t) then Queued
            else PlaceOf(s, t)
  {
    PollFindsAllParked(s);
    DueSplits(s.sleeping, s.alarm, now);
    ReportedTasks(s, events, t);
    hide Counts, Registrations, FdOk, Due, NotDue;
  }

  lemma ReportedTasks<T>(s: Sys<T>, events: seq<nat>, t: T)
    requires forall f | f in events :: f in s.epoll
    ensures t in TasksOf(s.epoll, events) <==> Reported(s, events, t)
  {
    var ts := TasksOf(s.epoll, events);
    if t in ts {
      var i :| 0 <= i < |ts| && ts[i] == t;
      assert events[i] in events;
    }
    if Reported(s, events, t) {
      var f :| f in events && f in s.epoll && s.epoll[f] == t;
      var i :| 0 <= i < |events| && events[i] == f;
      assert ts[i] == t;
    }
  }

  /** How the process ends, and when it does not. */
  lemma ExitStatus<T>(s: Sys<T>, a: Action<T>)
    requires Inv(s) && Enabled(s, a)
    ensures Do(s, a).exit == match a
                             case DoExitAll(v) => Some(v)
                             case DoHalt => if Users(s.slots, s.system) == {} then Some(s.exitval) else Some(1)
                             case DoPark(fd) => if fd in s.epoll then Some(17) else None
                             case DoPollFails => Some(0)
                             case _ => None
    ensures Do(s, a).exitval == if a.DoExit? then a.v else s.exitval
  {
    CountsUsers(s);
    hide Inv, Users;
  }

  /** What the two counters mean. */
  lemma Counters<T>(s: Sys<T>)
    requires Inv(s)
    ensures s.sleepingcounted == |Users(s.sleeping, s.system)|
    ensures s.taskcount == |Users(s.slots, s.system)| + if Users(s.sleeping, s.system) == {} then 0 else 1
  {
    hide Places, Sorted, Registrations, FdOk;
  }

  /** Which tasks are system tasks. */
  lemma SystemTasks<T>(s: Sys<T>, a: Action<T>, t: T)
    requires Inv(s) && Enabled(s, a)
    ensures t in Do(s, a).system <==>
            || (t in s.system && !(a.DoExit? && s.running == Some(t)))
            || (a.DoMakeSystem? && s.running == Some(t))
            || (a.DoFdRound? && s.fd.Fresh? && s.running == Some(t))
  {
    hide Places, Counts, Sorted, Registrations;
  }

  /** Which fds are registered, and for whom: only `fdwait` adds one, which was free, and only
      its own end removes it. */
  lemma RegisteredFds<T>(s: Sys<T>, a: Action<T>, f: nat)
    requires Enabled(s, a)
    ensures f in Do(s, a).epoll <==> (f in s.epoll && a != DoUnpark(f)) || (a == DoPark(f) && s.running.Some?)
    ensures f in Do(s, a).epoll ==>
              Do(s, a).epoll[f] == if f in s.epoll then s.epoll[f] else s.running.value
  {
  }

  /** The deadlines: `taskdelay(ms)` sets the caller's, `ms` milliseconds from now in nanoseconds. */
  lemma Deadlines<T>(s: Sys<T>, a: Action<T>)
    requires Enabled(s, a)
    ensures Do(s, a).alarm == if a.DoDelay? then s.alarm[s.running.value := a.now + a.ms * 1000000] else s.alarm
  {
    hide Due, NotDue, Users, Elems, TasksOf, More, Position;
  }

  /** The clock as last read */
  lemma ClockReads<T>(s: Sys<T>, a: Action<T>)
    requires Inv(s) && Enabled(s, a)
    ensures Do(s, a).clock == if a.DoDelay? || (a.DoFdRound? && Alone(s)) then a.now else s.clock
  {
    if a.DoFdRound? { NotAlone(s); }
    hide Inv, Due, NotDue, Users, Elems, TasksOf, More, Position;
  }

  /** Who has been woken from `fdwait` and has not removed the registration yet. */
  lemma WokenFromFdWait<T>(s: Sys<T>, a: Action<T>, t: T)
    requires Inv(s) && Enabled(s, a)
    ensures t in Do(s, a).woken <==>
            || (t in s.woken && !(a.DoUnpark? && s.running == Some(t)))
            || (a.DoFdRound? && Alone(s) && Reported(s, a.events, t))
  {
    if a.DoFdRound? {
      NotAlone(s);
      ReportedTasks(s, a.events, t);
    }
    hide Inv;
  }

  // -------------------------------------------------------------------- runs

  /** The fd that a task registers in `fdwait` stays registered for that task alone, in every
      state of every run, until its own end of `fdwait`. */
  lemma {:induction false} StaysRegistered<T>(states: seq<Sys<T>>, acts: seq<Action<T>>, k: nat)
    requires Run(states, acts) && Inv(states[0]) && 0 < k <= |acts| && acts[0].DoPark? && states[1].exit == None
    requires forall i | 0 < i < k :: acts[i] != DoUnpark(acts[0].fd)
    ensures var t, f := states[0].running.value, acts[0].fd;
            && f in states[k].epoll && states[k].epoll[f] == t
            && (t in states[k].parked || t in states[k].woken) && !Forgotten(states[k], t)
    decreases k
  {
    hide Do, Enabled, Inv;
    ReachableInv(states, acts, k);
    if k == 1 {
      ParkRegisters(states[0], acts[0]);
    } else {
      StaysRegistered(states, acts, k - 1);
      RegisteredFds(states[k-1], acts[k-1], acts[0].fd);
    }
    OwnersWait(states[k], acts[0].fd);
  }

  lemma ParkRegisters<T>(s: Sys<T>, a: Action<T>)
    requires Enabled(s, a) && a.DoPark? && Do(s, a).exit == None
    ensures a.fd !in s.epoll && a.fd in Do(s, a).epoll && Do(s, a).epoll[a.fd] == s.running.value
  {
  }

  lemma OwnersWait<T>(s: Sys<T>, f: nat)
    requires Inv(s) && f in s.epoll
    ensures s.epoll[f] in s.parked || s.epoll[f] in s.woken
  {
  }

  /** What is known of `fdtask`: it starts once, and each of its rounds notes the switch count. */
  lemma FdTaskNotes<T>(s: Sys<T>, a: Action<T>)
    requires Enabled(s, a)
    ensures Do(s, a).fd == match a
                           case DoStartFd(f) => Fresh(f)
                           case DoFdRound(_, _, _) => Yielded(s.fd.task, s.nswitch)
                           case _ => s.fd
  {
    hide Due, NotDue, Users, Elems, TasksOf, More, Position;
  }

  /** Between two turns of `fdtask` nothing but itself changes what it knows. */
  lemma {:induction false} FdKept<T>(states: seq<Sys<T>>, acts: seq<Action<T>>, k: nat)
    requires Run(states, acts) && k <= |acts| && states[0].fd != NotStarted
    requires forall i | 0 <= i < k :: states[i].running != Some(states[0].fd.task)
    ensures states[k].fd == states[0].fd
    decreases k
  {
    hide Do, Enabled;
    if k > 0 {
      FdKept(states, acts, k - 1);
      OnlyFdTask(states[k-1], acts[k-1]);
    }
  }

  lemma OnlyFdTask<T>(s: Sys<T>, a: Action<T>)
    requires Enabled(s, a) && s.fd != NotStarted && s.running != Some(s.fd.task)
    ensures Do(s, a).fd == s.fd
  {
  }

  lemma RoundYields<T>(s: Sys<T>, a: Action<T>)
    requires Enabled(s, a) && a.DoFdRound?
    ensures var f, s' := s.fd.task, Do(s, a);
            && s'.fd == Yielded(f, s.nswitch) && s'.nswitch == s.nswitch && s'.running == None
            && s'.runq != [] && s'.runq[|s'.runq| - 1] == f
  {
  }

  /** `fdtask` lets everybody else run and no longer: when it runs again after a round it polls
      exactly if no other task was ready at the end of that round. */
  lemma PollsWhenAlone<T>(states: seq<Sys<T>>, acts: seq<Action<T>>, k: nat)
    requires Run(states, acts) && Inv(states[0]) && 0 < k < |acts| && acts[0].DoFdRound?
    requires acts[k].DoPick? && states[k+1].running == states[0].running
    requires forall i | 0 < i <= k :: states[i].running != states[0].running
    ensures Alone(states[k+1]) <==> states[1].runq == [states[0].fd.task]
  {
    hide Inv, Do, Enabled;
    ReachableInv(states, acts, 1);
    ReachableInv(states, acts, k + 1);
    RoundYields(states[0], acts[0]);
    FdRuns(states[0], acts[0]);
    var f, q := states[0].fd.task, states[1].runq[..|states[1].runq| - 1];
    var later, rest := states[1..], acts[1..];
    assert Run(later, rest) && states[1].runq == q + [f];
    LastAfterAll(later, rest, k - 1, q, f);
    MovesUp(later, rest, k - 1, |q|);
    StepQueues(states[k], acts[k]);
    FdKept(later, rest, k - 1);
    OnlyFdTask(states[k], acts[k]);
  }

  lemma FdRuns<T>(s: Sys<T>, a: Action<T>)
    requires Enabled(s, a) && a.DoFdRound?
    ensures s.fd != NotStarted && s.running == Some(s.fd.task)
  {
  }
}
