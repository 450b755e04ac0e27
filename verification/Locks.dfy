/** qlock.c and rendez.c on the lists of the scheduler. */
module Locks {
  import opened Options
  import opened RuntimeSpec
  import opened RuntimeInv
  import opened TaskLists
  import opened Runtime
  import M = MonitorSpec
  import W = RWLockSpec

  ghost function Maybe(o: Option<Task>): Task? {
    if o.Some? then o.value else null
  }

  class QLock {
    var owner: Task?
    const waiting: Tasklist
    /** The state of the specification: also who has been woken and not run yet, and the
        sleepers of the rendez points of this lock. */
    ghost var mon: M.Monitor<Task, nat>

    constructor (list: Tasklist)
      requires list.contents == []
      ensures Valid() && mon == M.Free() && waiting == list
    {
      owner, waiting, mon := null, list, M.Free();
    }

    ghost predicate Valid()
      reads this, waiting
    {
      owner == Maybe(mon.owner) && waiting.contents == mon.waiting && M.Inv(mon)
    }

    /** `_qlock` up to its return or its switch; `mine` says that the lock has been taken. */
    method Lock(s: Sched, block: bool) returns (mine: bool)
      requires Valid() && s.Valid() && UserRuns(s.st) && s.WaitList(waiting)
      requires M.Outside(mon, s.st.running.value)
      modifies this, s.Repr()
      ensures Valid() && s.Valid() && s.lists == old(s.lists) && s.Repr() == old(s.Repr())
      ensures var t := old(s.st).running.value;
              && mon == M.Do(old(mon), if block then M.Lock(t) else M.TryLock(t))
              && mine == (old(owner) == null)
              && s.st == (if mine || !block then old(s.st) else Block(old(s.st), t))
              && owner == (if mine then old(s.taskrunning) else old(owner))
              && waiting.contents == old(waiting.contents) + if mine || !block then [] else [t]
      ensures forall m | m in s.lists && m != waiting :: m.contents == old(m.contents)
    {
      hide Sched.Valid, M.Inv, M.Outside;
      ghost var t := s.st.running.value;
      M.StepKeepsInv(mon, if block then M.Lock(t) else M.TryLock(t));
      Running(s);
      mine := owner == null;
      if mine {
        label Before:
        owner := s.taskrunning;
        Unaffected@Before(s);
      } else if block {
        s.BlockOn(waiting);
      }
      label Noted:
      mon := M.Do(mon, if block then M.Lock(t) else M.TryLock(t));
      Unaffected@Noted(s);
    }

    /** The rest of `_qlock` for a task that had to wait: its check never fails. */
    method Resumed(s: Sched) returns (abort: bool)
      requires Valid() && s.Valid() && s.st.running.Some? && s.st.running.value in mon.granted
      modifies this
      ensures Valid() && s.Valid() && !abort && owner == s.taskrunning
      ensures mon == M.Do(old(mon), M.Resume(old(s.st).running.value))
    {
      hide Sched.Valid;
      ghost var t := s.st.running.value;
      M.StepKeepsInv(mon, M.Resume(t));
      Running(s);
      abort := owner != s.taskrunning;
      label Noted:
      mon := M.Do(mon, M.Resume(t));
      Unaffected@Noted(s);
    }

    /** The lock passes to the first task that waits for it, or becomes free. */
    method HandOver(s: Sched)
      requires s.Rep() && s.WaitList(waiting) && forall x | x in waiting.contents :: x in s.st.waiting
      requires forall x | x in s.st.runq || x in s.st.sleeping || x in s.st.waiting :: x in s.st.slots
      modifies this`owner, s.Repr()
      ensures s.Rep() && s.taskrunning == old(s.taskrunning) && s.Repr() == old(s.Repr()) && s.lists == old(s.lists)
      ensures owner == Nth(old(waiting.contents), 0)
      ensures if owner == null then s.st == old(s.st) && waiting.contents == []
              else s.st == Wake(old(s.st), owner) && waiting.contents == old(waiting.contents)[1..]
      ensures forall m | m in s.lists && m != waiting && m != s.taskrunqueue :: m.contents == old(m.contents)
    {
      hide Sched.Rep;
      s.Waiters(waiting);
      var ready := waiting.head;
      owner := ready;
      RepUnaffected(s);
      if ready != null {
        var t := s.WakeHead(waiting);
      }
    }

    /** `qunlock` */
    method Unlock(s: Sched) returns (abort: bool)
      requires Valid() && s.Valid() && UserRuns(s.st) && s.WaitList(waiting)
      requires M.Outside(mon, s.st.running.value) && (owner == null || owner == s.taskrunning)
      modifies this, s.Repr()
      ensures Valid() && s.Valid() && s.lists == old(s.lists) && s.Repr() == old(s.Repr())
      ensures abort == (old(owner) == null)
      ensures abort ==> mon == old(mon) && s.st == old(s.st)
      ensures !abort ==> mon == M.Do(old(mon), M.Unlock(old(s.st).running.value))
      ensures !abort ==> s.st == if owner == null then old(s.st) else Wake(old(s.st), owner)
      ensures !abort ==>
                var q := old(waiting.contents);
                if q == [] then owner == null && waiting.contents == []
                else owner == q[0] && waiting.contents == q[1..] && q[0] in s.taskrunqueue.contents
      ensures forall m | m in s.lists && m != waiting && m != s.taskrunqueue :: m.contents == old(m.contents)
    {
      hide Sched.Rep, Inv, M.Inv, M.Outside, M.Do;
      if owner == null {
        return true;
      }
      abort := false;
      ghost var t, q := s.st.running.value, waiting.contents;
      Running(s);
      M.StepKeepsInv(mon, M.Unlock(t));
      M.UnlockPasses(mon, t);
      Live(s.st);
      s.Waiters(waiting);
      if q != [] {
        WakeKeeps(s.st, q[0]);
      }
      HandOver(s);
      label Noted:
      mon := M.Do(mon, M.Unlock(t));
      Unaffected@Noted(s);
      s.Members();
    }
  }

  class Rendez {
    const l: QLock?
    const waiting: Tasklist
    /** What the specification of the lock calls this rendez point */
    ghost const id: nat

    constructor (l: QLock?, list: Tasklist, ghost id: nat)
      ensures this.l == l && waiting == list && this.id == id
    {
      this.l, waiting, this.id := l, list, id;
    }

    ghost predicate Valid()
      reads waiting, l, if l == null then {} else {l.waiting}
    {
      l != null ==> l.Valid() && l.waiting != waiting && waiting.contents == M.Sleepers(l.mon, id)
    }

    /** `tasksleep` with a lock, up to its switch, on the lists and the lock's owner */
    method Enter(s: Sched, lock: QLock)
      requires s.Valid() && UserRuns(s.st) && s.WaitList(waiting) && s.WaitList(lock.waiting) && lock.waiting != waiting
      modifies lock`owner, s.Repr()
      ensures s.Valid() && s.lists == old(s.lists) && s.Repr() == old(s.Repr())
      ensures waiting.contents == old(waiting.contents) + [old(s.st).running.value]
      ensures lock.owner == Nth(old(lock.waiting.contents), 0)
      ensures lock.waiting.contents == if lock.owner == null then [] else old(lock.waiting.contents)[1..]
      ensures var s1 := if lock.owner == null then old(s.st) else Wake(old(s.st), lock.owner);
              s.st == Block(s1, old(s.st).running.value)
      ensures forall m | m in s.lists && m != waiting && m != s.taskrunqueue && m != lock.waiting ::
                m.contents == old(m.contents)
    {
      hide Sched.Rep, Inv, Wake;
      Live(s.st);
      s.Waiters(waiting);
      s.Waiters(lock.waiting);
      s.RunningIsLoose();
      BlockKeeps(s.st);
      SleepThenWake(s.st, lock.waiting.contents);
      s.WaitIn(waiting);
      lock.HandOver(s);
      s.Leave();
    }

    /** `tasksleep` up to its switch */
    method Sleep(s: Sched)
      requires Valid() && s.Valid() && UserRuns(s.st) && s.WaitList(waiting)
      requires l != null ==> s.WaitList(l.waiting) && M.Legal(l.mon, M.Sleep(s.st.running.value, id))
      modifies if l == null then {} else {l}, s.Repr()
      ensures Valid() && s.Valid() && s.lists == old(s.lists) && s.Repr() == old(s.Repr())
      ensures var t := old(s.st).running.value;
              && waiting.contents == old(waiting.contents) + [t]
              && (l != null ==> l.mon == M.Do(old(l.mon), M.Sleep(t, id)))
              && s.st == Block(if l == null || l.owner == null then old(s.st) else Wake(old(s.st), l.owner), t)
      ensures forall m | m in s.lists && m != waiting && m != s.taskrunqueue && (l == null || m != l.waiting) ::
                m.contents == old(m.contents)
    {
      hide Sched.Valid, M.Inv, M.Outside, M.Do, M.Legal, M.Sleepers, Wake, Block;
      ghost var t := s.st.running.value;
      if l != null {
        M.StepKeepsInv(l.mon, M.Sleep(t, id));
        M.SleepMoves(l.mon, t, id);
      }
      if l == null {
        s.BlockOn(waiting);
      } else {
        Enter(s, l);
        label Noted:
        l.mon := M.Do(l.mon, M.Sleep(t, id));
        Unaffected@Noted(s);
      }
    }

    /** `tasksleep` after its switch: the lock is taken again. */
    method Awake(s: Sched) returns (mine: bool)
      requires Valid() && s.Valid() && UserRuns(s.st)
      requires l != null ==> s.WaitList(l.waiting) && M.Legal(l.mon, M.Relock(s.st.running.value))
      modifies l, s.Repr()
      ensures Valid() && s.Valid() && s.lists == old(s.lists) && s.Repr() == old(s.Repr())
      ensures l == null ==> mine && s.st == old(s.st)
      ensures l != null ==>
                var t := old(s.st).running.value;
                && l.mon == M.Do(old(l.mon), M.Relock(t))
                && mine == (old(l.owner) == null)
                && s.st == if mine then old(s.st) else Block(old(s.st), t)
      ensures forall m | m in s.lists && (l == null || m != l.waiting) :: m.contents == old(m.contents)
    {
      hide Sched.Valid, M.Inv, M.Outside;
      mine := true;
      if l != null {
        ghost var t := s.st.running.value;
        M.WokenComesBack(l.mon, t);
        label Noted:
        l.mon := l.mon.(woken := l.mon.woken - {t});
        Unaffected@Noted(s);
        mine := l.Lock(s, true);
      }
    }

    /** The loop of `_taskwakeup` */
    method WakeSome(s: Sched, all: bool) returns (i: nat)
      requires s.Valid() && UserRuns(s.st) && s.WaitList(waiting)
      modifies s.Repr()
      ensures s.Valid() && s.lists == old(s.lists) && s.Repr() == old(s.Repr())
      ensures var q := old(waiting.contents);
              i == M.Woken(q, all) && waiting.contents == q[i..] && s.st == WakeAll(old(s.st), q[..i])
      ensures forall m | m in s.lists && m != waiting && m != s.taskrunqueue :: m.contents == old(m.contents)
    {
      hide Sched.Rep, Inv;
      ghost var q, s0 := waiting.contents, s.st;
      NoneWoken(s0);
      i := 0;
      while true
        invariant s.Valid() && s.lists == old(s.lists) && s.Repr() == old(s.Repr()) && UserRuns(s.st)
        invariant i <= |q| && (all || i <= 1) && waiting.contents == q[i..] && s.st == WakeAll(s0, q[..i])
        invariant forall m | m in s.lists && m != waiting && m != s.taskrunqueue :: m.contents == old(m.contents)
        decreases |q| - i
      {
        if i == 1 && !all {
          break;
        }
        s.Waiters(waiting);
        if waiting.head == null {
          break;
        }
        WakeAllTurn(s0, q[..i], q[i]);
        var u := s.WakeFrom(waiting);
        assert q[..i + 1] == q[..i] + [q[i]];
        i := i + 1;
      }
    }

    /** `_taskwakeup` */
    method Wakeup(s: Sched, all: bool) returns (i: nat)
      requires Valid() && s.Valid() && UserRuns(s.st) && s.WaitList(waiting)
      requires l != null ==> s.WaitList(l.waiting) && M.Outside(l.mon, s.st.running.value)
      modifies l, s.Repr()
      ensures Valid() && s.Valid() && s.lists == old(s.lists) && s.Repr() == old(s.Repr())
      ensures var q := old(waiting.contents);
              && i == M.Woken(q, all) && waiting.contents == q[i..] && s.st == WakeAll(old(s.st), q[..i])
              && i == (if all || q == [] then |q| else 1) && (forall t | t in q[..i] :: t in s.taskrunqueue.contents)
              && (l != null ==> l.mon == M.Do(old(l.mon), M.Wakeup(old(s.st).running.value, id, all)))
      ensures forall m | m in s.lists && m != waiting && m != s.taskrunqueue :: m.contents == old(m.contents)
    {
      hide Sched.Valid, M.Inv, M.Outside, M.Do, M.Sleepers, WakeAll;
      ghost var t := s.st.running.value;
      if l != null {
        M.StepKeepsInv(l.mon, M.Wakeup(t, id, all));
        M.WakeupTakes(l.mon, t, id, all);
      }
      i := WakeSome(s, all);
      if l != null {
        label Noted:
        l.mon := M.Do(l.mon, M.Wakeup(t, id, all));
        Unaffected@Noted(s);
      }
      MadeReady(s, old(s.st), old(waiting.contents)[..i]);
    }
  }

  class RWLock {
    var readers: int
    var writer: Task?
    const rwaiting: Tasklist
    const wwaiting: Tasklist
    /** The state of the specification: also who holds the lock for reading */
    ghost var rw: W.RW<Task>

    constructor (rlist: Tasklist, wlist: Tasklist)
      requires rlist != wlist && rlist.contents == [] && wlist.contents == []
      ensures Valid() && rw == W.Unlocked()
    {
      readers, writer, rwaiting, wwaiting, rw := 0, null, rlist, wlist, W.Unlocked();
    }

    ghost predicate Valid()
      reads this, rwaiting, wwaiting
    {
      && readers == rw.readers && writer == Maybe(rw.writer) && rwaiting != wwaiting
      && rwaiting.contents == rw.rwaiting && wwaiting.contents == rw.wwaiting
      && W.Inv(rw)
    }

    ghost predicate Ready(s: Sched)
      reads *
    {
      Valid() && s.Valid() && UserRuns(s.st) && s.WaitList(rwaiting) && s.WaitList(wwaiting)
    }

    /** `_rlock` up to its return or its switch */
    method RLock(s: Sched, block: bool) returns (mine: bool)
      requires Ready(s) && !W.Waits(rw, s.st.running.value)
      modifies this, s.Repr()
      ensures Valid() && s.Valid() && s.lists == old(s.lists) && s.Repr() == old(s.Repr())
      ensures var t := old(s.st).running.value;
              && rw == W.Do(old(rw), if block then W.RLock(t) else W.CanRLock(t))
              && mine == (old(writer) == null && old(wwaiting.contents) == [])
              && s.st == (if mine || !block then old(s.st) else Block(old(s.st), t))
              && readers == old(readers) + (if mine then 1 else 0) && writer == old(writer)
              && rwaiting.contents == old(rwaiting.contents) + if mine || !block then [] else [t]
      ensures forall m | m in s.lists && m != rwaiting :: m.contents == old(m.contents)
    {
      hide Sched.Rep, Inv, W.Inv, W.Do, W.Waits;
      ghost var t := s.st.running.value;
      ghost var c := if block then W.RLock(t) else W.CanRLock(t);
      W.CallKeepsInv(rw, c);
      W.ReaderArrives(rw, t, block);
      s.Waiters(wwaiting);
      mine := writer == null && wwaiting.head == null;
      if mine {
        label Before:
        readers := readers + 1;
        Unaffected@Before(s);
      } else if block {
        s.BlockOn(rwaiting);
      }
      label Noted:
      rw := W.Do(rw, c);
      Unaffected@Noted(s);
    }

    /** `_wlock` up to its return or its switch */
    method WLock(s: Sched, block: bool) returns (mine: bool)
      requires Ready(s) && !W.Waits(rw, s.st.running.value)
      modifies this, s.Repr()
      ensures Valid() && s.Valid() && s.lists == old(s.lists) && s.Repr() == old(s.Repr())
      ensures var t := old(s.st).running.value;
              && rw == W.Do(old(rw), if block then W.WLock(t) else W.CanWLock(t))
              && mine == (old(writer) == null && old(readers) == 0)
              && s.st == (if mine || !block then old(s.st) else Block(old(s.st), t))
              && writer == (if mine then old(s.taskrunning) else old(writer)) && readers == old(readers)
              && wwaiting.contents == old(wwaiting.contents) + if mine || !block then [] else [t]
      ensures forall m | m in s.lists && m != wwaiting :: m.contents == old(m.contents)
    {
      hide Sched.Rep, Inv, W.Inv, W.Do, W.Waits;
      ghost var t := s.st.running.value;
      ghost var c := if block then W.WLock(t) else W.CanWLock(t);
      W.CallKeepsInv(rw, c);
      W.WriterArrives(rw, t, block);
      Running(s);
      mine := writer == null && readers == 0;
      label Before:
      if mine {
        writer := s.taskrunning;
        Unaffected@Before(s);
      } else if block {
        s.BlockOn(wwaiting);
      }
      label Noted:
      rw := W.Do(rw, c);
      Unaffected@Noted(s);
    }

    /** `runlock` */
    method RUnlock(s: Sched)
      requires Ready(s) && W.Legal(rw, W.RUnlock(s.st.running.value))
      modifies this, s.Repr()
      ensures Valid() && s.Valid() && s.lists == old(s.lists) && s.Repr() == old(s.Repr())
      ensures var c := W.RUnlock(old(s.st).running.value);
              rw == W.Do(old(rw), c) && s.st == WakeAll(old(s.st), W.Released(old(rw), c))
      ensures var q := old(wwaiting.contents);
              && readers == old(readers) - 1
              && if readers > 0 || q == [] then writer == null && wwaiting.contents == q
                 else writer == q[0] && wwaiting.contents == q[1..]
      ensures forall m | m in s.lists && m != wwaiting && m != s.taskrunqueue :: m.contents == old(m.contents)
    {
      hide Sched.Rep, Inv, W.Inv, W.Do;
      ghost var c := W.RUnlock(s.st.running.value);
      W.CallKeepsInv(rw, c);
      W.ReaderLeaves(rw, c.t);
      label Before:
      readers := readers - 1;
      Unaffected@Before(s);
      if readers == 0 {
        GrantWriter(s);
      } else {
        NoneWoken(s.st);
      }
      label Noted:
      rw := W.Do(rw, c);
      Unaffected@Noted(s);
    }

    /** `wunlock`; of its two checks the first guards against misuse, the second never fails. */
    method WUnlock(s: Sched) returns (abort: bool)
      requires Ready(s) && !W.Waits(rw, s.st.running.value) && (writer == null || writer == s.taskrunning)
      modifies this, s.Repr()
      ensures Valid() && s.Valid() && s.lists == old(s.lists) && s.Repr() == old(s.Repr())
      ensures abort == (old(writer) == null)
      ensures abort ==> rw == old(rw) && s.st == old(s.st)
      ensures !abort ==>
                var c := W.WUnlock(old(s.st).running.value);
                rw == W.Do(old(rw), c) && s.st == WakeAll(old(s.st), W.Released(old(rw), c))
      ensures !abort ==>
                var r, q := old(rwaiting.contents), old(wwaiting.contents);
                && readers == |r| && rwaiting.contents == []
                && if r != [] || q == [] then writer == null && wwaiting.contents == q
                   else writer == q[0] && wwaiting.contents == q[1..]
      ensures forall m | m in s.lists && m != rwaiting && m != wwaiting && m != s.taskrunqueue ::
                m.contents == old(m.contents)
    {
      hide Sched.Rep, Inv, W.Inv, W.Do;
      if writer == null {
        return true;
      }
      Running(s);
      ghost var c, s0 := W.WUnlock(s.st.running.value), s.st;
      W.CallKeepsInv(rw, c);
      W.WriterAlone(rw);
      W.WriterLeaves(rw, s.st.running.value);
      label Before:
      writer := null;
      Unaffected@Before(s);
      abort := readers != 0;
      AdmitReaders(s);
      if readers == 0 {
        GrantWriter(s);
      }
      label Noted:
      rw := W.Do(rw, c);
      Unaffected@Noted(s);
    }

    /** The loop of `wunlock` */
    method AdmitReaders(s: Sched)
      requires s.Valid() && UserRuns(s.st) && s.WaitList(rwaiting) && readers == 0
      modifies this`readers, s.Repr()
      ensures s.Valid() && s.lists == old(s.lists) && s.Repr() == old(s.Repr())
      ensures var q := old(rwaiting.contents);
              readers == |q| && rwaiting.contents == [] && s.st == WakeAll(old(s.st), q)
      ensures forall m | m in s.lists && m != rwaiting && m != s.taskrunqueue :: m.contents == old(m.contents)
    {
      hide Sched.Rep, Inv;
      ghost var q, s0 := rwaiting.contents, s.st;
      NoneWoken(s0);
      s.Waiters(rwaiting);
      var t := rwaiting.head;
      while t != null
        invariant s.Valid() && s.lists == old(s.lists) && s.Repr() == old(s.Repr()) && UserRuns(s.st)
        invariant 0 <= readers <= |q| && rwaiting.contents == q[readers..] && s.st == WakeAll(s0, q[..readers])
        invariant t == Nth(rwaiting.contents, 0)
        invariant forall m | m in s.lists && m != rwaiting && m != s.taskrunqueue :: m.contents == old(m.contents)
        decreases |rwaiting.contents|
      {
        WakeAllTurn(s0, q[..readers], q[readers]);
        assert q[..readers + 1] == q[..readers] + [q[readers]];
        var u := s.WakeFrom(rwaiting);
        label Before:
        readers := readers + 1;
        Unaffected@Before(s);
        s.Waiters(rwaiting);
        t := rwaiting.head;
      }
    }

    /** The first waiting writer, if any, gets the lock. */
    method GrantWriter(s: Sched)
      requires s.Valid() && UserRuns(s.st) && s.WaitList(wwaiting) && readers == 0
      modifies this`writer, s.Repr()
      ensures s.Valid() && s.lists == old(s.lists) && s.Repr() == old(s.Repr())
      ensures var q := old(wwaiting.contents);
              if q == [] then writer == old(writer) && wwaiting.contents == [] && s.st == WakeAll(old(s.st), [])
              else writer == q[0] && wwaiting.contents == q[1..] && s.st == WakeAll(old(s.st), [q[0]])
      ensures forall m | m in s.lists && m != wwaiting && m != s.taskrunqueue :: m.contents == old(m.contents)
    {
      hide Sched.Rep, Inv;
      ghost var s0 := s.st;
      s.Waiters(wwaiting);
      NoneWoken(s0);
      if wwaiting.head != null {
        WakeAllTurn(s0, [], wwaiting.contents[0]);
        var t := s.WakeFrom(wwaiting);
        label Before:
        writer := t;
        Unaffected@Before(s);
      }
    }
  }

  /** `tasksleep` enters its list before it gives up the lock; the result is the same. */
  lemma SleepThenWake(s: Sys<Task>, q: seq<Task>)
    requires Inv(s) && UserRuns(s) && forall x | x in q :: x in s.waiting
    ensures q != [] ==>
              var t, s1 := s.running.value, s.(waiting := s.waiting + {s.running.value});
              && Wake(s1, q[0]).(running := None) == Block(Wake(s, q[0]), t)
              && Inv(Block(Wake(s, q[0]), t))
  {
    hide Inv;
    if q != [] {
      RunningElsewhere(s);
      WakeKeeps(s, q[0]);
      BlockKeeps(Wake(s, q[0]));
    }
  }

  lemma MadeReady(s: Sched, s0: Sys<Task>, us: seq<Task>)
    requires s.Valid() && s.st == WakeAll(s0, us)
    ensures forall t | t in us :: t in s.taskrunqueue.contents
  {
    hide Inv, Sched.Rep;
    s.Members();
  }

  lemma Running(s: Sched)
    requires s.Valid() && s.st.running.Some?
    ensures s.taskrunning == s.st.running.value
  {
  }
}
