/** What holds over whole runs of the runtime: fairness, process exit, timers. */
module RuntimeRuns {
  import opened Options
  import opened Seqs
  import opened RuntimeSpec
  import opened RuntimeInv

  /** `main` creates the first task and enters the scheduler. */
  ghost function Start<T>(main: T): Sys<T> {
    Create(Idle(), main)
  }

  /** The states of a run in which `acts` happen one after the other. */
  ghost predicate Run<T>(states: seq<Sys<T>>, acts: seq<Action<T>>) {
    && |states| == |acts| + 1
    && forall i | 0 <= i < |acts| :: Enabled(states[i], acts[i]) && states[i+1] == Do(states[i], acts[i])
  }

  lemma StartInv<T>(main: T)
    ensures Inv(Start(main))
  {
    var s := Start(main);
    assert s.slots == [main] == s.runq;
    assert Users(s.slots, s.system) == {main};
  }

  /** The invariant holds in every state of every run of the process. */
  lemma {:induction false} ReachableInv<T>(states: seq<Sys<T>>, acts: seq<Action<T>>, k: nat)
    requires Run(states, acts) && k <= |acts| && Inv(states[0])
    ensures Inv(states[k])
    decreases k
  {
    if k > 0 {
      ReachableInv(states, acts, k - 1);
      StepKeepsInv(states[k-1], acts[k-1]);
    }
  }

  // ------------------------------------------------------------------- fairness

  /** How many task switches the first `k` steps make. */
  ghost function Picks<T>(acts: seq<Action<T>>, k: nat): nat
    requires k <= |acts|
  {
    if k == 0 then 0 else Picks(acts, k - 1) + if acts[k-1].DoPick? then 1 else 0
  }

  /** A step takes at most the head from the run queue, and only by starting it. */
  lemma StepQueues<T>(s: Sys<T>, a: Action<T>)
    requires Enabled(s, a)
    ensures var s' := Do(s, a);
            if a.DoPick? then s'.runq == s.runq[1..] && s'.running == Some(s.runq[0]) && s'.nswitch == s.nswitch + 1
            else s.runq <= s'.runq && s'.nswitch == s.nswitch
  {
  }

  /** A task that is ready, or runs and does nothing, is ready or runs afterwards. */
  lemma ReadyStays<T>(s: Sys<T>, a: Action<T>, t: T)
    requires Enabled(s, a) && (t in s.runq || (s.running == Some(t) && OfScheduler(a)))
    ensures t in Do(s, a).runq || Do(s, a).running == Some(t)
  {
    StepQueues(s, a);
    if a.DoPick? && t in s.runq && t != s.runq[0] {
      assert s.runq == [s.runq[0]] + s.runq[1..];
    }
  }

  /** First come, first served: whatever the running tasks do, a task at position `p` of
      the run queue is at position `p - d` after `d` switches. */
  lemma {:induction false} MovesUp<T>(states: seq<Sys<T>>, acts: seq<Action<T>>, k: nat, p: nat)
    requires Run(states, acts) && k <= |acts| && p < |states[0].runq|
    requires Picks(acts, k) <= p
    ensures states[k].nswitch == states[0].nswitch + Picks(acts, k)
    ensures p - Picks(acts, k) < |states[k].runq| && states[k].runq[p - Picks(acts, k)] == states[0].runq[p]
    decreases k
  {
    hide Do, Enabled;
    if k > 0 {
      MovesUp(states, acts, k - 1, p);
      StepQueues(states[k-1], acts[k-1]);
    }
  }

  /** A task at position `p` is started by the switch after exactly `p` others. */
  lemma StartedAfter<T>(states: seq<Sys<T>>, acts: seq<Action<T>>, k: nat, p: nat)
    requires Run(states, acts) && k < |acts| && p < |states[0].runq| && Inv(states[0])
    requires Picks(acts, k) <= p
    ensures states[k].running != Some(states[0].runq[p])
    ensures acts[k].DoPick? && Picks(acts, k) == p ==> states[k+1].running == Some(states[0].runq[p])
  {
    MovesUp(states, acts, k, p);
    ReachableInv(states, acts, k);
    StepQueues(states[k], acts[k]);
    assert states[k].runq[p - Picks(acts, k)] in states[k].runq;
  }

  /** The tasks that the switches among steps `i` to `k` start, in order */
  ghost function Started<T>(states: seq<Sys<T>>, acts: seq<Action<T>>, i: nat, k: nat): seq<T>
    requires Run(states, acts) && i <= k <= |acts|
  {
    if k == i then []
    else Started(states, acts, i, k - 1) + if acts[k-1].DoPick? then [states[k-1].runq[0]] else []
  }

  lemma {:induction false} StartedLater<T>(states: seq<Sys<T>>, acts: seq<Action<T>>, k: nat)
    requires Run(states, acts) && 1 <= k <= |acts|
    ensures Run(states[1..], acts[1..])
    ensures Started(states, acts, 1, k) == Started(states[1..], acts[1..], 0, k - 1)
  {
    hide Do, Enabled;
    if k > 1 { StartedLater(states, acts, k - 1); }
  }

  /** The ready tasks are started in the order of the run queue. */
  lemma {:induction false} StartedInOrder<T>(states: seq<Sys<T>>, acts: seq<Action<T>>, k: nat)
    requires Run(states, acts) && k <= |acts| && Picks(acts, k) <= |states[0].runq|
    ensures Started(states, acts, 0, k) == states[0].runq[..Picks(acts, k)]
  {
    hide Do, Enabled;
    if k > 0 {
      StartedInOrder(states, acts, k - 1);
      if acts[k-1].DoPick? {
        MovesUp(states, acts, k - 1, Picks(acts, k - 1));
      }
    }
  }

  /** The last of the run queue runs after all others have been started. */
  lemma LastAfterAll<T>(states: seq<Sys<T>>, acts: seq<Action<T>>, k: nat, q: seq<T>, t: T)
    requires Run(states, acts) && Inv(states[0]) && states[0].runq == q + [t]
    requires k < |acts| && acts[k].DoPick? && states[k+1].running == Some(t)
    requires forall i | 0 <= i <= k :: states[i].running != Some(t)
    ensures Picks(acts, k) == |q|
  {
    hide Inv, Do, Enabled;
    if Picks(acts, k) > |q| {
      SomePickAt(acts, k, |q|);
      var j :| 0 <= j < k && acts[j].DoPick? && Picks(acts, j) == |q|;
      StartedAfter(states, acts, j, |q|);
      assert false;
    }
    MovesUp(states, acts, k, |q|);
    ReachableInv(states, acts, k);
    HeadOnce(states[k], acts[k], |q| - Picks(acts, k));
  }

  lemma HeadOnce<T>(s: Sys<T>, a: Action<T>, p: nat)
    requires Inv(s) && Enabled(s, a) && a.DoPick? && p < |s.runq| && Do(s, a).running == Some(s.runq[p])
    ensures p == 0 && Do(s, a).nswitch == s.nswitch + 1
  {
  }

  lemma YieldQueues<T>(s: Sys<T>, a: Action<T>)
    requires Inv(s) && Enabled(s, a) && a.DoYield?
    ensures NoDup(s.runq) && s.running.Some? && s.running.value !in s.runq
    ensures var s' := Do(s, a);
            s'.runq == s.runq + [s.running.value] && s'.nswitch == s.nswitch
  {
  }

  /** Between the `taskyield` of step 0 and its resumption by step `k` exactly the tasks that
      were ready at the call are started, each once and in order, whatever they do and
      whoever becomes ready meanwhile. */
  lemma YieldRunsTheReady<T>(states: seq<Sys<T>>, acts: seq<Action<T>>, k: nat)
    requires Run(states, acts) && Inv(states[0]) && |acts| > 0 && acts[0].DoYield?
    requires 0 < k < |acts| && acts[k].DoPick? && states[k+1].running == states[0].running
    requires forall i | 0 < i <= k :: states[i].running != states[0].running
    ensures Started(states, acts, 1, k) == states[0].runq && NoDup(states[0].runq)
    ensures states[0].running.value !in states[0].runq
    ensures states[k+1].nswitch == states[0].nswitch + |states[0].runq| + 1
  {
    hide Inv, Do, Enabled;
    YieldQueues(states[0], acts[0]);
    var q, t := states[0].runq, states[0].running.value;
    var later, rest := states[1..], acts[1..];
    ReachableInv(states, acts, 1);
    assert Run(later, rest);
    LastAfterAll(later, rest, k - 1, q, t);
    MovesUp(later, rest, k - 1, |q|);
    StepQueues(states[k], acts[k]);
    StartedInOrder(later, rest, k - 1);
    StartedLater(states, acts, k);
  }

  /** What `taskyield` returns is the number of other tasks that ran meanwhile. */
  lemma YieldCounts<T>(states: seq<Sys<T>>, acts: seq<Action<T>>, k: nat)
    requires Run(states, acts) && Inv(states[0]) && |acts| > 0 && acts[0].DoYield?
    requires 0 < k < |acts| && acts[k].DoPick? && states[k+1].running == states[0].running
    requires forall i | 0 < i <= k :: states[i].running != states[0].running
    ensures var t := states[0].running.value;
            states[k+1].nswitch - states[0].nswitch - 1 == |Elems(Started(states, acts, 1, k)) - {t}|
  {
    hide Inv, Do;
    YieldRunsTheReady(states, acts, k);
    var q, t := states[0].runq, states[0].running.value;
    assert Elems(q) - {t} == Elems(q);
    SizeOf(q);
  }

  lemma {:induction false} SizeOf<T>(q: seq<T>)
    requires NoDup(q)
    ensures |Elems(q)| == |q|
  {
    if q != [] {
      var r, x := q[..|q| - 1], q[|q| - 1];
      assert q == r + [x] && x !in r;
      SizeOf(r);
      assert Elems(q) == Elems(r) + {x};
    }
  }

  lemma {:induction false} SomePickAt<T>(acts: seq<Action<T>>, k: nat, n: nat)
    requires k <= |acts| && Picks(acts, k) > n
    ensures exists j :: 0 <= j < k && acts[j].DoPick? && Picks(acts, j) == n
  {
    if Picks(acts, k - 1) > n {
      SomePickAt(acts, k - 1, n);
    } else {
      assert acts[k-1].DoPick? && Picks(acts, k - 1) == n;
    }
  }

  // ---------------------------------------------------------------- process exit

  lemma CountsUsers<T>(s: Sys<T>)
    requires Inv(s)
    ensures s.taskcount == 0 <==> Users(s.slots, s.system) == {}
  {
    assert Users(s.sleeping, s.system) <= Users(s.slots, s.system);
    Smaller(Users(s.sleeping, s.system), Users(s.slots, s.system));
  }

  /** When the last task that is not a system task calls `taskexit(v)`, the process ends
      with status `v` before any other task runs; otherwise it does not end for lack of
      tasks. */
  lemma LastExitEndsProcess<T>(s: Sys<T>, v: int)
    requires Inv(s) && Enabled(s, DoExit(v))
    ensures var s1 := Do(s, DoExit(v));
            if Users(s.slots, s.system) <= {s.running.value} then
              && Enabled(s1, DoHalt) && Do(s1, DoHalt).exit == Some(v)
              && forall a | Enabled(s1, a) :: a.DoHalt?
            else s1.taskcount != 0
  {
    hide Places, Counts, Sorted, Registrations, FdOk;
    var s1 := Do(s, DoExit(v));
    StepKeepsInv(s, DoExit(v));
    CountsUsers(s1);
    UsersAfterExit(s, v);
  }

  lemma UsersAfterExit<T>(s: Sys<T>, v: int)
    requires Inv(s) && Enabled(s, DoExit(v))
    ensures var s1 := Do(s, DoExit(v));
            Users(s1.slots, s1.system) == Users(s.slots, s.system) - {s.running.value}
  {
    SwapRemoved(s.slots, IndexOf(s.slots, s.running.value));
  }

  /** Once it has been created the fd task is ready whenever the scheduler looks, so the
      process can only end there because no task counts any more. */
  lemma NeverStalls<T>(states: seq<Sys<T>>, acts: seq<Action<T>>, k: nat)
    requires Run(states, acts) && k <= |acts| && Inv(states[0]) && states[0].fd != NotStarted
    ensures states[k].fd != NotStarted
    ensures states[k].running == None ==> states[k].fd.task in states[k].runq
    ensures k < |acts| && acts[k].DoHalt? ==> states[k].taskcount == 0 && states[k+1].exit == Some(states[k].exitval)
  {
    FdStays(states, acts, k);
    ReachableInv(states, acts, k);
  }

  lemma {:induction false} FdStays<T>(states: seq<Sys<T>>, acts: seq<Action<T>>, k: nat)
    requires Run(states, acts) && k <= |acts| && states[0].fd != NotStarted
    ensures states[k].fd != NotStarted && states[k].fd.task == states[0].fd.task
  {
    hide Do, Enabled;
    if k > 0 {
      FdStays(states, acts, k - 1);
      FdTaskKept(states[k-1], acts[k-1]);
    }
  }

  lemma FdTaskKept<T>(s: Sys<T>, a: Action<T>)
    requires Enabled(s, a) && s.fd != NotStarted
    ensures var s' := Do(s, a);
            s'.fd != NotStarted && s'.fd.task == s.fd.task
  {
  }

  // ------------------------------------------------------------------- fd waits

  /** `t` is inside `fdwait`, and no fd is registered for it. */
  ghost predicate Forgotten<T>(s: Sys<T>, t: T) {
    t in s.parked && forall f | f in s.epoll :: s.epoll[f] != t
  }

  lemma StaysForgotten<T>(s: Sys<T>, a: Action<T>, t: T)
    requires Inv(s) && Enabled(s, a) && Forgotten(s, t)
    ensures Forgotten(Do(s, a), t)
  {
    hide Counts, Sorted, FdOk;
    if a.DoFdRound? {
      RoundForgets(s, a.events, a.now, t);
    } else {
      hide FdRound;
    }
  }

  lemma RoundForgets<T>(s: Sys<T>, events: seq<nat>, now: nat, t: T)
    requires s.fd != NotStarted && (forall f | f in events :: f in s.epoll) && Forgotten(s, t)
    ensures Forgotten(FdRound(s, events, now), t)
  {
    assert t !in TasksOf(s.epoll, events);
  }

  /** `fdwait` in a mode other than 'r' and 'w' never returns: the task does not run again,
      nor is it ever ready, in any run. */
  lemma {:induction false} NeverReturns<T>(states: seq<Sys<T>>, acts: seq<Action<T>>, k: nat)
    requires Run(states, acts) && Inv(states[0]) && |acts| > 0 && acts[0].DoParkUnregistered? && 0 < k <= |acts|
    ensures var t := states[0].running.value;
            Forgotten(states[k], t) && states[k].running != Some(t) && t !in states[k].runq
    decreases k
  {
    hide Counts, Sorted, FdOk;
    ReachableInv(states, acts, k);
    if k > 1 {
      ReachableInv(states, acts, k - 1);
      NeverReturns(states, acts, k - 1);
      hide Do, Enabled;
      StaysForgotten(states[k-1], acts[k-1], states[0].running.value);
    }
  }

  /** A poll can end the wait of a task in `fdwait` exactly if it has an fd registered. */
  lemma PollReaches<T>(s: Sys<T>, t: T)
    requires Inv(s) && s.exit == None && s.fd.Yielded? && s.running == Some(s.fd.task) && s.nswitch - s.fd.n - 1 <= 0
    requires t in s.parked
    ensures (exists a: Action<T> :: a.DoFdRound? && Enabled(s, a) && t in Do(s, a).runq) <==> !Forgotten(s, t)
  {
    if f :| f in s.epoll && s.epoll[f] == t {
      var a := DoFdRound([f], s.clock, s.clock);
      var due := PollRound(s, [f], s.clock, s.clock);
      assert TasksOf(s.epoll, [f])[0] == t;
      assert a.DoFdRound? && Enabled(s, a) && t in Do(s, a).runq;
    } else {
      forall a: Action<T> | a.DoFdRound? && Enabled(s, a) ensures t !in Do(s, a).runq {
        StaysForgotten(s, a, t);
        StepKeepsInv(s, a);
      }
    }
  }

  // ---------------------------------------------------------------------- timers

  /** The poll waits no more than 5 s and never beyond the deadline of a sleeper; it does
      not wait at all exactly when the earliest deadline is less than 1 ms away. */
  lemma PollTimeout<T>(q: seq<T>, alarm: map<T, nat>, now: nat)
    requires Sorted(q, alarm)
    ensures var ms := PollMs(q, alarm, now);
            if q == [] then ms == -1
            else
              && 0 <= ms <= 5000
              && (forall x | x in q :: now + ms * 1000000 <= alarm[x] || (now >= alarm[q[0]] && ms == 0))
              && (ms < 5000 ==> alarm[q[0]] < now + (ms + 1) * 1000000)
  {
  }

  /** A drain moves exactly the sleepers that are due to the end of the run queue, in
      order of their deadlines, and leaves the others sorted. */
  lemma DrainExact<T>(s: Sys<T>, now: nat) returns (due: seq<T>)
    requires NoDup(s.sleeping) && Sorted(s.sleeping, s.alarm)
    ensures var s' := Drain(s, now);
            && s'.runq == s.runq + due && s.sleeping == due + s'.sleeping
            && (forall x | x in due :: s.alarm[x] <= now)
            && (forall x | x in s'.sleeping :: now < s.alarm[x])
  {
    due := Due(s.sleeping, s.alarm, now);
    DueSplits(s.sleeping, s.alarm, now);
    DueIsPrefix(s.sleeping, s.alarm, now);
    assert s.sleeping == due + Drain(s, now).sleeping;
  }

  /** A round of `fdtask` that polls: afterwards the run queue holds the tasks of the reported
      fds, in the order reported, then the sleepers that are due, in order of their
      deadlines, then `fdtask` itself; no other sleeper has moved. */
  lemma PollRound<T>(s: Sys<T>, events: seq<nat>, now1: nat, now: nat) returns (due: seq<T>)
    requires Inv(s) && Enabled(s, DoFdRound(events, now1, now))
    requires s.fd.Yielded? && s.nswitch - s.fd.n - 1 <= 0
    ensures var s' := Do(s, DoFdRound(events, now1, now));
            && s'.runq == TasksOf(s.epoll, events) + due + [s.fd.task]
            && s.sleeping == due + s'.sleeping
            && (forall x | x in due :: s.alarm[x] <= now)
            && (forall x | x in s'.sleeping :: now < s.alarm[x])
            && (forall t :: t in s'.parked <==> t in s.parked && t !in TasksOf(s.epoll, events))
  {
    PollFindsAllParked(s);
    hide Counts, Registrations, FdOk;
    due := DrainExact(WakeFds(s, events), now);
    assert [] + TasksOf(s.epoll, events) == TasksOf(s.epoll, events);
  }

  /** In a sorted list the due sleepers come first. */
  lemma {:induction false} DueIsPrefix<T>(q: seq<T>, alarm: map<T, nat>, now: nat)
    requires Sorted(q, alarm)
    ensures Due(q, alarm, now) + NotDue(q, alarm, now) == q
  {
    if q != [] {
      TailSorted(q, alarm);
      DueIsPrefix(q[1..], alarm, now);
      if alarm[q[0]] > now {
        NoneDue(q, alarm, now);
      }
    }
  }

  /** The clock never goes back, and a sleeper is not made ready before its time. */
  lemma StepKeepsDeadline<T>(s: Sys<T>, a: Action<T>, t: T, when: nat)
    requires Inv(s) && Enabled(s, a) && SleepsUntil(s, t, when)
    ensures SleepsUntil(Do(s, a), t, when)
  {
    hide Counts, Registrations, FdOk;
    match a
    case DoDelay(ms, now) => DelayKeepsDeadline(s, ms, now, t, when);
    case DoFdRound(events, now1, now) => RoundKeepsDeadline(s, events, now, t, when);
    case _ =>
  }

  /** `t` is asleep with deadline `when`, or that is past. */
  ghost predicate SleepsUntil<T>(s: Sys<T>, t: T, when: nat) {
    (t in s.sleeping && t in s.alarm && s.alarm[t] == when) || s.clock >= when
  }

  lemma DelayKeepsDeadline<T>(s: Sys<T>, ms: nat, now: nat, t: T, when: nat)
    requires Places(s) && s.running.Some? && SleepsUntil(s, t, when) && s.clock <= now
    ensures SleepsUntil(Delay(s, s.running.value, ms, now), t, when)
  {
    RunningAwake(s);
    hide Places, More, Position;
    MoreAt(s.sleeping, Position(s.sleeping, s.alarm, now + ms * NS_PER_MS), s.running.value);
  }

  lemma RoundKeepsDeadline<T>(s: Sys<T>, events: seq<nat>, now: nat, t: T, when: nat)
    requires Places(s) && Sorted(s.sleeping, s.alarm) && SleepsUntil(s, t, when) && s.clock <= now
    requires s.fd != NotStarted && forall f | f in events :: f in s.epoll
    ensures SleepsUntil(FdRound(s, events, now), t, when)
  {
    DueSplits(s.sleeping, s.alarm, now);
    hide Places, Sorted, Due, NotDue;
  }

  lemma DelaySleeps<T>(s: Sys<T>, ms: nat, now: nat)
    requires Places(s) && s.running.Some?
    ensures SleepsUntil(Delay(s, s.running.value, ms, now), s.running.value, now + ms * NS_PER_MS)
  {
    RunningAwake(s);
    hide Places, More, Position;
    MoreAt(s.sleeping, Position(s.sleeping, s.alarm, now + ms * NS_PER_MS), s.running.value);
  }

  /** `taskdelay(ms)` takes at least `ms`: when the task runs again, the clock has passed
      the deadline. */
  lemma {:induction false} DelayLongEnough<T>(states: seq<Sys<T>>, acts: seq<Action<T>>, k: nat)
    requires Run(states, acts) && Inv(states[0]) && |acts| > 0 && acts[0].DoDelay? && 0 < k <= |acts|
    ensures var t, when := states[0].running.value, acts[0].now + acts[0].ms * 1000000;
            && SleepsUntil(states[k], t, when)
            && (states[k].running == Some(t) ==> states[k].clock >= when)
    decreases k
  {
    hide Counts, Sorted, Registrations, FdOk, Delay;
    var t, when := states[0].running.value, acts[0].now + acts[0].ms * NS_PER_MS;
    ReachableInv(states, acts, k);
    if k == 1 {
      DelaySleeps(states[0], acts[0].ms, acts[0].now);
    } else {
      ReachableInv(states, acts, k - 1);
      DelayLongEnough(states, acts, k - 1);
      hide Do;
      StepKeepsDeadline(states[k-1], acts[k-1], t, when);
    }
  }
}
