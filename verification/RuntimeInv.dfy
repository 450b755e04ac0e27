/** Every step of the runtime keeps the invariant of `RuntimeSpec`. */
module RuntimeInv {
  import opened Options
  import opened Seqs
  import opened RuntimeSpec

  // ------------------------------------------------------------------ sequences

  lemma Appended<T>(q: seq<T>, t: T, system: set<T>)
    requires NoDup(q) && t !in q
    ensures NoDup(q + [t]) && Elems(q + [t]) == Elems(q) + {t}
    ensures Users(q + [t], system) == Users(q, system) + if t in system then {} else {t}
    ensures |Users(q + [t], system)| == |Users(q, system)| + if t in system then 0 else 1
  {
    assert Users(q + [t], system) == Users(q, system) + if t in system then {} else {t};
  }

  lemma Joined<T>(p: seq<T>, q: seq<T>)
    requires NoDup(p) && NoDup(q) && forall x | x in q :: x !in p
    ensures NoDup(p + q) && forall x :: x in p + q <==> x in p || x in q
  {
    assert forall i | 0 <= i < |q| :: q[i] in q;
  }

  lemma Marked<T>(q: seq<T>, t: T, system: set<T>)
    requires t !in system
    ensures |Users(q, system + {t})| == |Users(q, system)| - if t in q then 1 else 0
  {
    assert Users(q, system + {t}) == Users(q, system) - {t};
  }

  /** Where the scan stops, everything before is earlier and everything after is not. */
  lemma {:induction false} PositionSplits<T>(q: seq<T>, alarm: map<T, nat>, when: nat)
    requires Sorted(q, alarm)
    ensures var i := Position(q, alarm, when);
            && (forall k | 0 <= k < i :: alarm[q[k]] < when)
            && (forall k | i <= k < |q| :: alarm[q[k]] >= when)
  {
    if q != [] && alarm[q[0]] < when {
      PositionSplits(q[1..], alarm, when);
    }
  }

  lemma SortedInsert<T>(q: seq<T>, alarm: map<T, nat>, t: T, when: nat)
    requires NoDup(q) && Sorted(q, alarm) && t !in q
    ensures var i := Position(q, alarm, when);
            Sorted(More(q, i, t), alarm[t := when])
  {
    var i := Position(q, alarm, when);
    PositionSplits(q, alarm, when);
    hide Position;
    SortedMore(q, alarm, i, t, when);
  }

  lemma SortedMore<T>(q: seq<T>, alarm: map<T, nat>, i: nat, t: T, when: nat)
    requires NoDup(q) && Sorted(q, alarm) && t !in q && i <= |q|
    requires forall k | 0 <= k < i :: alarm[q[k]] < when
    requires forall k | i <= k < |q| :: alarm[q[k]] >= when
    ensures Sorted(More(q, i, t), alarm[t := when])
  {
    MoreAt(q, i, t);
    hide More, NoDup;
  }

  lemma {:induction false} DueSplits<T>(q: seq<T>, alarm: map<T, nat>, now: nat)
    requires NoDup(q) && forall x | x in q :: x in alarm
    ensures var d, n := Due(q, alarm, now), NotDue(q, alarm, now);
            && NoDup(d) && NoDup(n)
            && (forall x :: x in d <==> x in q && alarm[x] <= now)
            && (forall x :: x in n <==> x in q && alarm[x] > now)
            && (forall x :: x in q <==> x in d || x in n) && (forall x | x in d :: x !in n)
  {
    if q != [] {
      DueSplits(q[1..], alarm, now);
    }
  }

  lemma {:induction false} NotDueSorted<T>(q: seq<T>, alarm: map<T, nat>, now: nat)
    requires Sorted(q, alarm)
    ensures Sorted(NotDue(q, alarm, now), alarm)
    ensures forall x | x in NotDue(q, alarm, now) :: x in q
  {
    if q != [] {
      var n := NotDue(q[1..], alarm, now);
      TailSorted(q, alarm);
      NotDueSorted(q[1..], alarm, now);
      HeadFirst(q, alarm);
      if alarm[q[0]] > now {
        SortedBehind(q[0], n, alarm);
      }
    }
  }

  lemma HeadFirst<T>(q: seq<T>, alarm: map<T, nat>)
    requires Sorted(q, alarm) && q != []
    ensures q[0] in alarm && forall x | x in q[1..] :: x in alarm && alarm[q[0]] <= alarm[x]
  {
    forall x | x in q[1..] ensures x in alarm && alarm[q[0]] <= alarm[x] {
      var k :| 0 <= k < |q[1..]| && q[1..][k] == x;
      assert q[k + 1] == x;
    }
  }

  lemma SortedBehind<T>(x: T, q: seq<T>, alarm: map<T, nat>)
    requires Sorted(q, alarm) && x in alarm && forall y | y in q :: alarm[x] <= alarm[y]
    ensures Sorted([x] + q, alarm)
  {
    assert forall i | 0 <= i < |q| :: q[i] in q && ([x] + q)[i + 1] == q[i];
  }

  lemma TailSorted<T>(q: seq<T>, alarm: map<T, nat>)
    requires Sorted(q, alarm) && q != []
    ensures Sorted(q[1..], alarm)
  {
    assert forall i | 0 <= i < |q[1..]| :: q[1..][i] == q[i+1];
  }

  // --------------------------------------------------------------------- steps

  lemma IdleInv<T>()
    ensures Inv(Idle<T>())
  {
  }

  lemma CreateKeeps<T>(s: Sys<T>, t: T)
    requires Inv(s) && t !in s.slots
    requires s.fd != NotStarted ==> s.running.Some? && s.running != Some(s.fd.task)
    ensures Inv(Create(s, t))
  {
    CreatePlaces(s, t);
    CreateCounts(s, t);
    hide Places, Counts, Sorted;
    assert FdOk(Create(s, t));
  }

  lemma CreatePlaces<T>(s: Sys<T>, t: T)
    requires Places(s) && t !in s.slots
    ensures Places(Create(s, t))
  {
    hide Users;
    SameWaits(s, Create(s, t));
    assert !Waits(s, t);
    hide Waits;
    Appended(s.slots, t, s.system);
    Appended(s.runq, t, s.system);
    hide NoDup;
  }

  lemma SameWaits<T>(s: Sys<T>, s': Sys<T>)
    requires s'.sleeping == s.sleeping && s'.parked == s.parked && s'.waiting == s.waiting && s'.chanwait == s.chanwait
    ensures forall t :: Waits(s', t) == Waits(s, t)
  {
  }

  lemma CreateCounts<T>(s: Sys<T>, t: T)
    requires Places(s) && Counts(s) && t !in s.slots
    ensures Counts(Create(s, t))
  {
    Appended(s.slots, t, s.system);
    hide Places, NoDup;
  }

  lemma StartFdKeeps<T>(s: Sys<T>, f: T)
    requires Inv(s) && f !in s.slots && s.running.Some? && s.fd == NotStarted
    ensures Inv(StartFd(s, f))
  {
    CreateKeeps(s, f);
    FreshOutside(s, f);
    hide Counts, Sorted;
    assert Registrations(StartFd(s, f)) && Places(StartFd(s, f)) by { hide FdOk; }
  }

  lemma FreshOutside<T>(s: Sys<T>, f: T)
    requires Inv(s) && f !in s.slots
    ensures f !in s.woken
  {
  }

  lemma MakeSystemKeeps<T>(s: Sys<T>)
    requires Inv(s) && s.running.Some?
    ensures Inv(MakeSystem(s, s.running.value))
  {
    var t := s.running.value;
    if t !in s.system {
      Marked(s.slots, t, s.system);
      Marked(s.sleeping, t, s.system);
    }
  }

  lemma YieldKeeps<T>(s: Sys<T>)
    requires Inv(s) && UserRuns(s)
    ensures Inv(Yield(s, s.running.value))
  {
    hide Counts, Sorted, Users;
    Appended(s.runq, s.running.value, s.system);
    hide NoDup;
    CountsApart(s, Yield(s, s.running.value));
  }

  /** The counters do not depend on who runs, is ready or waits for another task. */
  lemma CountsApart<T>(s: Sys<T>, s': Sys<T>)
    requires s'.slots == s.slots && s'.system == s.system && s'.sleeping == s.sleeping
    requires s'.taskcount == s.taskcount && s'.sleepingcounted == s.sleepingcounted
    ensures Counts(s) <==> Counts(s')
  {
  }

  lemma BlockKeeps<T>(s: Sys<T>)
    requires Inv(s) && UserRuns(s)
    ensures Inv(Block(s, s.running.value))
  {
    hide Counts, Sorted;
    CountsApart(s, Block(s, s.running.value));
  }

  lemma WakeKeeps<T>(s: Sys<T>, u: T)
    requires Inv(s) && UserRuns(s) && u in s.waiting
    ensures Inv(Wake(s, u))
  {
    hide Places, Counts, Sorted;
    WakePlaces(s, u);
    CountsApart(s, Wake(s, u));
  }

  lemma WakePlaces<T>(s: Sys<T>, u: T)
    requires Places(s) && u in s.waiting
    ensures Places(Wake(s, u))
  {
    hide Users;
    Appended(s.runq, u, s.system);
    hide NoDup;
  }

  lemma BlockChanKeeps<T>(s: Sys<T>)
    requires Inv(s) && UserRuns(s)
    ensures Inv(BlockChan(s, s.running.value))
  {
    hide Counts, Sorted;
    CountsApart(s, BlockChan(s, s.running.value));
  }

  lemma WakeChanKeeps<T>(s: Sys<T>, u: T)
    requires Inv(s) && UserRuns(s) && u in s.chanwait
    ensures Inv(WakeChan(s, u))
  {
    hide Places, Counts, Sorted;
    WakeChanPlaces(s, u);
    CountsApart(s, WakeChan(s, u));
  }

  lemma WakeChanPlaces<T>(s: Sys<T>, u: T)
    requires Places(s) && u in s.chanwait
    ensures Places(WakeChan(s, u))
  {
    hide Users;
    Appended(s.runq, u, s.system);
    hide NoDup;
  }

  lemma NoneWoken<T>(s: Sys<T>)
    ensures WakeAll(s, []) == s
  {
    assert Elems<T>([]) == {};
  }

  lemma WakeAllTurn<T>(s: Sys<T>, us: seq<T>, u: T)
    ensures Wake(WakeAll(s, us), u) == WakeAll(s, us + [u])
  {
    assert Elems(us + [u]) == Elems(us) + {u};
    assert s.waiting - Elems(us) - {u} == s.waiting - Elems(us + [u]);
  }

  lemma {:induction false} WakeAllKeeps<T>(s: Sys<T>, us: seq<T>)
    requires Inv(s) && UserRuns(s) && NoDup(us) && forall u | u in us :: u in s.waiting
    ensures Inv(WakeAll(s, us)) && UserRuns(WakeAll(s, us))
  {
    hide Inv;
    if us == [] {
      NoneWoken(s);
    } else {
      var r, u := us[..|us| - 1], us[|us| - 1];
      assert us == r + [u] && u !in r;
      WakeAllKeeps(s, r);
      WakeKeeps(WakeAll(s, r), u);
      WakeAllTurn(s, r, u);
    }
  }

  lemma ParkKeeps<T>(s: Sys<T>, fd: nat)
    requires Inv(s) && UserRuns(s)
    ensures Inv(Park(s, s.running.value, fd))
  {
    hide Counts, Sorted;
    CountsApart(s, Park(s, s.running.value, fd));
  }

  lemma ParkUnregisteredKeeps<T>(s: Sys<T>)
    requires Inv(s) && UserRuns(s)
    ensures Inv(ParkUnregistered(s, s.running.value))
  {
    hide Counts, Sorted;
    CountsApart(s, ParkUnregistered(s, s.running.value));
  }

  lemma UnparkKeeps<T>(s: Sys<T>, fd: nat)
    requires Inv(s) && s.running.Some? && s.running.value in s.woken && fd in s.epoll && s.epoll[fd] == s.running.value
    ensures Inv(Unpark(s, s.running.value, fd))
  {
    hide Counts, Sorted;
    CountsApart(s, Unpark(s, s.running.value, fd));
  }

  lemma SleeperJoins<T>(s: Sys<T>, t: T, r: seq<T>, alarm: map<T, nat>, now: nat)
    requires Inv(s) && UserRuns(s) && s.running == Some(t)
    requires NoDup(r) && Sorted(r, alarm) && forall x :: x in r <==> x in s.sleeping || x == t
    ensures var counts := t !in s.system;
            Inv(s.(sleeping := r, alarm := alarm,
                   sleepingcounted := s.sleepingcounted + if counts then 1 else 0,
                   taskcount := s.taskcount + if counts && s.sleepingcounted == 0 then 1 else 0,
                   running := None, clock := now))
  {
    assert Users(r, s.system) == Users(s.sleeping, s.system) + if t in s.system then {} else {t};
  }

  lemma RunningAwake<T>(s: Sys<T>)
    requires Places(s) && s.running.Some?
    ensures NoDup(s.sleeping) && s.running.value !in s.sleeping
  {
  }

  lemma RunningElsewhere<T>(s: Sys<T>)
    requires Inv(s) && s.running.Some?
    ensures s.running.value !in s.waiting
  {
  }

  lemma DelayKeeps<T>(s: Sys<T>, ms: nat, now: nat)
    requires Inv(s) && UserRuns(s)
    ensures Inv(Delay(s, s.running.value, ms, now))
  {
    hide Places, Counts, Sorted, Registrations, FdOk, More, Position;
    var t, when := s.running.value, now + ms * NS_PER_MS;
    var i := Position(s.sleeping, s.alarm, when);
    RunningAwake(s);
    MoreAt(s.sleeping, i, t);
    SortedInsert(s.sleeping, s.alarm, t, when);
    SleeperJoins(s, t, More(s.sleeping, i, t), s.alarm[t := when], now);
  }

  lemma ExitKeeps<T>(s: Sys<T>, v: int)
    requires Inv(s) && UserRuns(s)
    ensures Inv(Exit(s, s.running.value, v))
  {
    var t := s.running.value;
    var s' := Exit(s, t, v);
    SwapRemoved(s.slots, IndexOf(s.slots, t));
    assert Users(s'.slots, s'.system) == Users(s.slots, s.system) - {t};
    assert Users(s'.sleeping, s'.system) == Users(s.sleeping, s.system);
  }

  lemma PickKeeps<T>(s: Sys<T>)
    requires Inv(s) && s.running == None && s.runq != []
    ensures Inv(Pick(s))
  {
    var s' := Pick(s);
    assert forall k | 0 <= k < |s'.runq| :: s'.runq[k] == s.runq[k+1];
    forall t | t in s.runq && t != s.runq[0] ensures t in s'.runq {
      var k :| 0 <= k < |s.runq| && s.runq[k] == t;
      assert s'.runq[k-1] == t;
    }
  }

  // ------------------------------------------------------------- the fd task

  /** No task is made ready twice: when `fdtask` polls the run queue is empty, so every task
      it woke before has run and removed its registration; every registered fd therefore
      belongs to a task that is still parked, and no two to the same. */
  lemma PollFindsAllParked<T>(s: Sys<T>)
    requires Inv(s) && s.fd.Yielded? && s.running == Some(s.fd.task) && s.nswitch - s.fd.n - 1 <= 0
    ensures s.runq == [] && s.woken == {}
    ensures forall f | f in s.epoll :: s.epoll[f] in s.parked && s.epoll[f] !in s.runq
    ensures forall f, g | f in s.epoll && g in s.epoll && f != g :: s.epoll[f] != s.epoll[g]
  {
    assert forall t | t in s.woken :: false;
  }

  /** The reported tasks are different and all parked. */
  lemma TasksOfParked<T>(s: Sys<T>, events: seq<nat>)
    requires NoDup(events) && forall f | f in events :: f in s.epoll && s.epoll[f] in s.parked
    requires forall f, g | f in s.epoll && g in s.epoll && f != g :: s.epoll[f] != s.epoll[g]
    ensures var ts := TasksOf(s.epoll, events);
            NoDup(ts) && forall t | t in ts :: t in s.parked
  {
    var ts := TasksOf(s.epoll, events);
    forall i, j | 0 <= i < j < |ts| ensures ts[i] != ts[j] {
      assert events[i] in events && events[j] in events;
    }
    forall t | t in ts ensures t in s.parked {
      var i :| 0 <= i < |ts| && ts[i] == t;
      assert events[i] in events;
    }
  }

  lemma WakeFdsKeeps<T>(s: Sys<T>, events: seq<nat>)
    requires Inv(s) && s.fd.Yielded? && s.running == Some(s.fd.task) && s.nswitch - s.fd.n - 1 <= 0
    requires NoDup(events) && forall f | f in events :: f in s.epoll
    ensures var s' := WakeFds(s, events);
            Places(s') && Counts(s') && Registrations(s') && s'.runq == TasksOf(s.epoll, events)
            && s.fd.task !in s'.woken
  {
    PollFindsAllParked(s);
    TasksOfParked(s, events);
    var ts := TasksOf(s.epoll, events);
    assert s.runq + ts == ts;
    ParkedBecomeReady(s, ts);
  }

  lemma ParkedBecomeReady<T>(s: Sys<T>, ts: seq<T>)
    requires Places(s) && Counts(s) && Registrations(s) && s.runq == []
    requires NoDup(ts) && forall t | t in ts :: t in s.parked
    ensures var s' := s.(parked := s.parked - Elems(ts), woken := s.woken + Elems(ts), runq := ts);
            Places(s') && Counts(s') && Registrations(s')
  {
  }

  lemma SleepersBecomeReady<T>(s: Sys<T>, d: seq<T>, n: seq<T>)
    requires Places(s) && NoDup(d) && NoDup(n)
    requires forall x | x in d :: x !in n
    requires forall x :: x in s.sleeping <==> x in d || x in n
    ensures Places(s.(sleeping := n, runq := s.runq + d))
  {
    Joined(s.runq, d);
  }

  lemma DrainKeepsPlaces<T>(s: Sys<T>, now: nat)
    requires Places(s) && Sorted(s.sleeping, s.alarm)
    ensures Places(Drain(s, now)) && Sorted(Drain(s, now).sleeping, s.alarm)
  {
    DueSplits(s.sleeping, s.alarm, now);
    NotDueSorted(s.sleeping, s.alarm, now);
    SleepersBecomeReady(s, Due(s.sleeping, s.alarm, now), NotDue(s.sleeping, s.alarm, now));
  }

  lemma DrainKeepsCounts<T>(s: Sys<T>, now: nat)
    requires Places(s) && Counts(s) && Sorted(s.sleeping, s.alarm)
    ensures Counts(Drain(s, now))
  {
    var d, n := Due(s.sleeping, s.alarm, now), NotDue(s.sleeping, s.alarm, now);
    DueSplits(s.sleeping, s.alarm, now);
    hide Places, Sorted, Due, NotDue, Users;
    SplitUsers(s.sleeping, d, n, s.system);
  }

  lemma SplitUsers<T>(q: seq<T>, d: seq<T>, n: seq<T>, system: set<T>)
    requires forall x :: x in q <==> x in d || x in n
    requires forall x | x in d :: x !in n
    ensures |Users(q, system)| == |Users(d, system)| + |Users(n, system)|
    ensures Users(d, system) == {} <==> |Users(d, system)| == 0
  {
    assert Users(q, system) == Users(d, system) + Users(n, system);
  }

  /** A turn of the timer loop keeps what the loop needs and does not change where it ends. */
  lemma DrainTurn<T>(s: Sys<T>, now: nat)
    requires Places(s) && Counts(s) && Sorted(s.sleeping, s.alarm)
    requires s.sleeping != [] && s.alarm[s.sleeping[0]] <= now
    ensures Drain(WakeFirst(s), now) == Drain(s, now)
    ensures Places(WakeFirst(s)) && Counts(WakeFirst(s)) && Sorted(WakeFirst(s).sleeping, s.alarm)
    ensures WakeFirst(s).clock == s.clock && WakeFirst(s).alarm == s.alarm && |WakeFirst(s).sleeping| < |s.sleeping|
  {
    hide Places, Counts, Drain, Sorted;
    FirstLeaves(s);
    FirstUncounted(s);
    SameDrain(s, now);
  }

  lemma FirstLeaves<T>(s: Sys<T>)
    requires Places(s) && Sorted(s.sleeping, s.alarm) && s.sleeping != []
    ensures Places(WakeFirst(s)) && Sorted(WakeFirst(s).sleeping, s.alarm)
  {
    hide Counts;
    var t, q := s.sleeping[0], s.sleeping;
    assert q == [t] + q[1..];
    SleepersBecomeReady(s, [t], q[1..]);
    TailSorted(q, s.alarm);
  }

  lemma FirstUncounted<T>(s: Sys<T>)
    requires Places(s) && Counts(s) && s.sleeping != []
    ensures Counts(WakeFirst(s))
  {
    var t, q := s.sleeping[0], s.sleeping;
    assert q == [t] + q[1..];
    UsersOfHead(t, q[1..], s.system);
  }

  lemma SameDrain<T>(s: Sys<T>, now: nat)
    requires Places(s) && Counts(s) && Sorted(s.sleeping, s.alarm)
    requires s.sleeping != [] && s.alarm[s.sleeping[0]] <= now
    ensures Drain(WakeFirst(s), now) == Drain(s, now)
  {
    hide Places, Sorted, Due, NotDue, Users, Counts, NoDup;
    var t, rest, system := s.sleeping[0], s.sleeping[1..], s.system;
    var d := Due(rest, s.alarm, now);
    DueInside(s, now);
    CountsSleepers(s);
    UsersOfHead(t, rest, system);
    UsersOfHead(t, d, system);
    SmallerUsers(d, rest, system);
    assert (s.runq + [t]) + d == s.runq + ([t] + d);
  }

  lemma CountsSleepers<T>(s: Sys<T>)
    requires Counts(s) && s.sleeping != []
    ensures s.sleepingcounted == |Users([s.sleeping[0]] + s.sleeping[1..], s.system)|
  {
    assert s.sleeping == [s.sleeping[0]] + s.sleeping[1..];
  }

  lemma DueInside<T>(s: Sys<T>, now: nat)
    requires Places(s) && Sorted(s.sleeping, s.alarm)
    requires s.sleeping != [] && s.alarm[s.sleeping[0]] <= now
    ensures var t, rest := s.sleeping[0], s.sleeping[1..];
            var d := Due(rest, s.alarm, now);
            && t !in rest && t !in d && Users(d, s.system) <= Users(rest, s.system)
            && Due(s.sleeping, s.alarm, now) == [t] + d
            && NotDue(s.sleeping, s.alarm, now) == NotDue(rest, s.alarm, now)
  {
    var rest := s.sleeping[1..];
    assert forall i | 0 <= i < |rest| :: rest[i] == s.sleeping[i+1];
    DueInList(rest, s.alarm, now);
  }

  lemma {:induction false} DueInList<T>(q: seq<T>, alarm: map<T, nat>, now: nat)
    ensures forall x | x in Due(q, alarm, now) :: x in q
  {
    if q != [] {
      DueInList(q[1..], alarm, now);
    }
  }

  lemma UsersOfHead<T>(t: T, d: seq<T>, system: set<T>)
    requires t !in d
    ensures Users([t] + d, system) == Users(d, system) + if t in system then {} else {t}
    ensures |Users([t] + d, system)| == |Users(d, system)| + if t in system then 0 else 1
  {
    assert Users([t] + d, system) == Users(d, system) + if t in system then {} else {t};
  }

  lemma SmallerUsers<T>(d: seq<T>, q: seq<T>, system: set<T>)
    requires Users(d, system) <= Users(q, system)
    ensures |Users(d, system)| <= |Users(q, system)|
    ensures |Users(d, system)| == 0 <==> Users(d, system) == {}
  {
    Smaller(Users(d, system), Users(q, system));
  }

  lemma ClockReadKeeps<T>(s: Sys<T>, now: nat)
    requires Places(s) && Counts(s)
    ensures var s' := s.(clock := now);
            Places(s') && Counts(s') && Drain(s', now) == Drain(s, now)
  {
  }

  /** The timer loop stops where nothing is due any more. */
  lemma DrainDone<T>(s: Sys<T>, now: nat)
    requires Sorted(s.sleeping, s.alarm) && s.clock == now
    requires s.sleeping == [] || s.alarm[s.sleeping[0]] > now
    ensures Drain(s, now) == s
  {
    NoneDue(s.sleeping, s.alarm, now);
    assert Users<T>([], s.system) == {};
  }

  lemma {:induction false} NoneDue<T>(q: seq<T>, alarm: map<T, nat>, now: nat)
    requires Sorted(q, alarm) && (q != [] ==> alarm[q[0]] > now)
    ensures Due(q, alarm, now) == [] && NotDue(q, alarm, now) == q
  {
    if q != [] {
      TailSorted(q, alarm);
      NoneDue(q[1..], alarm, now);
    }
  }

  lemma NoEvents<T>(s: Sys<T>)
    ensures WakeFds(s, []) == s
  {
    assert Elems<T>([]) == {};
  }

  /** After `i` turns the I/O loop has woken the first `i` tasks; the next is still parked. */
  lemma WakeFdsTurn<T>(s: Sys<T>, events: seq<nat>, i: nat)
    requires Inv(s) && s.fd.Yielded? && s.running == Some(s.fd.task) && s.nswitch - s.fd.n - 1 <= 0
    requires NoDup(events) && (forall f | f in events :: f in s.epoll) && i < |events|
    ensures var w := WakeFds(s, events[..i]);
            && WakeFd(w, events[i]) == WakeFds(s, events[..i+1])
            && Places(w) && w.epoll == s.epoll && w.epoll[events[i]] in w.parked
  {
    hide Places, Counts, Sorted, Registrations, FdOk;
    WakeFdsKeeps(s, events[..i]);
    PollFindsAllParked(s);
    TasksOfParked(s, events);
    OneMoreWoken(s, events, i);
  }

  lemma OneMoreWoken<T>(s: Sys<T>, events: seq<nat>, i: nat)
    requires (forall f | f in events :: f in s.epoll) && i < |events|
    requires NoDup(TasksOf(s.epoll, events)) && forall t | t in TasksOf(s.epoll, events) :: t in s.parked
    ensures var w := WakeFds(s, events[..i]);
            WakeFd(w, events[i]) == WakeFds(s, events[..i+1]) && w.epoll[events[i]] in w.parked
  {
    var ts, before, after := TasksOf(s.epoll, events), TasksOf(s.epoll, events[..i]), TasksOf(s.epoll, events[..i+1]);
    assert after == before + [ts[i]];
    assert forall k | 0 <= k < i :: before[k] == ts[k];
    hide TasksOf, NoDup;
    assert Elems(after) == Elems(before) + {ts[i]};
    assert s.parked - Elems(before) - {ts[i]} == s.parked - Elems(after);
    assert s.woken + Elems(before) + {ts[i]} == s.woken + Elems(after);
    assert s.runq + before + [ts[i]] == s.runq + after;
  }

  lemma FdRoundKeeps<T>(s: Sys<T>, events: seq<nat>, now: nat)
    requires Inv(s) && s.fd != NotStarted && s.running == Some(s.fd.task)
    requires NoDup(events) && forall f | f in events :: f in s.epoll
    ensures Inv(FdRound(s, events, now))
  {
    var f := s.fd.task;
    var s1 := s;
    if s.fd.Fresh? {
      s1 := MakeSystem(s, f);
      MakeSystemKeeps(s);
    } else if s.nswitch - s.fd.n - 1 <= 0 {
      var w := WakeFds(s, events);
      WakeFdsKeeps(s, events);
      DrainKeepsPlaces(w, now);
      DrainKeepsCounts(w, now);
      s1 := Drain(w, now);
    }
    FdYields(s1, f, s.nswitch);
  }

  lemma FdYields<T>(s: Sys<T>, f: T, n: nat)
    requires Places(s) && Counts(s) && Sorted(s.sleeping, s.alarm) && Registrations(s)
    requires s.running == Some(f) && f in s.system && f !in s.woken && n == s.nswitch
    ensures Inv(Yield(s, f).(fd := Yielded(f, n)))
  {
    Appended(s.runq, f, s.system);
  }

  /** Every step keeps the invariant. */
  lemma StepKeepsInv<T>(s: Sys<T>, a: Action<T>)
    requires Inv(s) && Enabled(s, a)
    ensures Inv(Do(s, a))
  {
    hide Places, Counts, Sorted, Registrations, FdOk;
    match a
    case DoCreate(t) => CreateKeeps(s, t);
    case DoMakeSystem => MakeSystemKeeps(s);
    case DoStartFd(f) => StartFdKeeps(s, f);
    case DoYield => YieldKeeps(s);
    case DoBlock => BlockKeeps(s);
    case DoWake(u) => WakeKeeps(s, u);
    case DoBlockChan => BlockChanKeeps(s);
    case DoWakeChan(u) => WakeChanKeeps(s, u);
    case DoDelay(ms, now) => DelayKeeps(s, ms, now);
    case DoPark(fd) => ParkKeeps(s, fd);
    case DoParkUnregistered => ParkUnregisteredKeeps(s);
    case DoUnpark(fd) => UnparkKeeps(s, fd);
    case DoExit(v) => ExitKeeps(s, v);
    case DoExitAll(v) => EndKeeps(s, v);
    case DoPick => PickKeeps(s);
    case DoHalt => EndKeeps(s, if s.taskcount == 0 then s.exitval else 1);
    case DoFdRound(events, now1, now) => FdRoundKeeps(s, events, now);
    case DoPollFails => EndKeeps(s, 0);
  }

  lemma EndKeeps<T>(s: Sys<T>, v: int)
    requires Inv(s)
    ensures Inv(s.(exit := Some(v)))
  {
  }
}
