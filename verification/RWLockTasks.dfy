/** A reader-writer lock together with the scheduler: who waits for the lock waits for the
    scheduler too, who is given it is made ready, and a task comes out of `rlock` or `wlock` only
    as a holder. */
module RWLockTasks {
  import opened Options
  import opened TaskLists
  import opened Runtime
  import opened Locks
  import W = RWLockSpec
  import S = RuntimeSpec
  import RuntimeInv
  import RuntimeRuns

  /** The tasks of `back` have been given the lock while they waited and have not returned from
      `rlock` or `wlock` yet. */
  datatype Both<!T> = Both(s: S.Sys<T>, rw: W.RW<T>, back: set<T>)

  ghost predicate Holds<T>(rw: W.RW<T>, t: T) {
    rw.writer == Some(t) || t in rw.held
  }

  /** Who waits for the lock waits for the scheduler; who has been given it is a holder, and is
      ready or running. */
  ghost predicate Together<T>(b: Both<T>) {
    && S.Inv(b.s) && W.Inv(b.rw)
    && (forall t | t in b.rw.rwaiting + b.rw.wwaiting :: t in b.s.waiting)
    && (forall t | t in b.back :: Holds(b.rw, t) && (t in b.s.runq || b.s.running == Some(t)))
  }

  /** A call of the lock, the rest of a call that had to wait, or anything else */
  datatype Event<T> = Plain(a: S.Action<T>) | OnLock(c: W.Call<T>) | Return(t: T)

  /** The running task is not inside a call. */
  ghost predicate Outside<T>(b: Both<T>) {
    b.s.running.Some? && b.s.running.value !in b.back
  }

  /** Nobody but the lock makes its waiters ready. */
  ghost predicate Happens<T>(b: Both<T>, v: Event<T>) {
    && b.s.exit == None
    && match v
       case Plain(a) => S.Enabled(b.s, a) && (a.DoWake? ==> !W.Waits(b.rw, a.u)) && (S.OfScheduler(a) || Outside(b))
       case OnLock(c) => S.UserRuns(b.s) && b.s.running == Some(c.t) && Outside(b) && W.Legal(b.rw, c)
       case Return(t) => b.s.running == Some(t) && t in b.back
  }

  /** What a call means for the scheduler */
  ghost function SchedAfter<T>(s: S.Sys<T>, rw: W.RW<T>, c: W.Call<T>): S.Sys<T> {
    match c
    case RLock(t) => if W.ReadOpen(rw) then s else S.Block(s, t)
    case CanRLock(t) => s
    case WLock(t) => if W.WriteOpen(rw) then s else S.Block(s, t)
    case CanWLock(t) => s
    case RUnlock(t) => S.WakeAll(s, W.Released(rw, c))
    case WUnlock(t) => S.WakeAll(s, W.Released(rw, c))
  }

  /** The tasks that a call takes off the queues of the lock are on their way back. */
  ghost function BackAfter<T>(b: Both<T>, c: W.Call<T>): set<T> {
    b.back + set t | t in b.rw.rwaiting + b.rw.wwaiting && !W.Waits(W.Do(b.rw, c), t)
  }

  ghost function After<T>(b: Both<T>, v: Event<T>): Both<T>
    requires Happens(b, v)
  {
    match v
    case Plain(a) => b.(s := S.Do(b.s, a))
    case OnLock(c) => Both(SchedAfter(b.s, b.rw, c), W.Do(b.rw, c), BackAfter(b, c))
    case Return(t) => b.(back := b.back - {t})
  }

  lemma EventKeepsTogether<T>(b: Both<T>, v: Event<T>)
    requires Together(b) && Happens(b, v)
    ensures Together(After(b, v))
  {
    hide S.Inv, W.Inv;
    match v
    case Plain(a) =>
      RuntimeInv.StepKeepsInv(b.s, a);
      forall t | t in b.rw.rwaiting + b.rw.wwaiting ensures t in S.Do(b.s, a).waiting { }
      forall t | t in b.back ensures t in S.Do(b.s, a).runq || S.Do(b.s, a).running == Some(t) {
        RuntimeRuns.ReadyStays(b.s, a, t);
      }
    case OnLock(c) =>
      W.CallKeepsInv(b.rw, c);
      HoldersStay(b, c);
      if W.Release(c) {
        ReleaseMoves(b, c);
      } else {
        ArrivalMoves(b, c);
      }
    case Return(t) =>
  }

  /** Those that a release takes off the queues are made ready, and only those. */
  lemma ReleaseMoves<T>(b: Both<T>, c: W.Call<T>)
    requires Together(b) && Happens(b, OnLock(c)) && W.Release(c)
    ensures var s', rw' := SchedAfter(b.s, b.rw, c), W.Do(b.rw, c);
            && S.Inv(s') && (forall t | t in rw'.rwaiting + rw'.wwaiting :: t in s'.waiting)
            && forall t | t in BackAfter(b, c) :: t in s'.runq || s'.running == Some(t)
  {
    hide S.Inv;
    W.ReleasedLeave(b.rw, c);
    W.NobodyJoins(b.rw, c);
    hide W.Do, W.Inv, W.Released;
    RuntimeInv.WakeAllKeeps(b.s, W.Released(b.rw, c));
  }

  lemma ArrivalMoves<T>(b: Both<T>, c: W.Call<T>)
    requires Together(b) && Happens(b, OnLock(c)) && !W.Release(c)
    ensures var s', rw' := SchedAfter(b.s, b.rw, c), W.Do(b.rw, c);
            && S.Inv(s') && (forall t | t in rw'.rwaiting + rw'.wwaiting :: t in s'.waiting)
            && forall t | t in BackAfter(b, c) :: t in s'.runq || s'.running == Some(t)
  {
    hide S.Inv, W.Inv;
    RuntimeInv.BlockKeeps(b.s);
  }

  /** Those on their way back keep the lock, and those that leave a queue get it. */
  lemma HoldersStay<T>(b: Both<T>, c: W.Call<T>)
    requires Together(b) && Happens(b, OnLock(c))
    ensures forall t | t in BackAfter(b, c) :: Holds(W.Do(b.rw, c), t)
  {
    hide S.Inv, S.UserRuns;
    forall t | t in BackAfter(b, c) ensures Holds(W.Do(b.rw, c), t) {
      if t in b.back { W.HolderStays(b.rw, c, t); } else { W.LeaverHolds(b.rw, c, t); }
    }
  }

  // -------------------------------------------------------------------- runs

  /** A run of the whole program, as far as this lock is concerned */
  ghost predicate Run<T>(states: seq<Both<T>>, events: seq<Event<T>>) {
    && |states| == |events| + 1
    && forall i | 0 <= i < |events| :: Happens(states[i], events[i]) && states[i+1] == After(states[i], events[i])
  }

  /** A lock that nobody holds fits to any state of the scheduler. */
  lemma UnlockedTogether<T>(s: S.Sys<T>)
    requires S.Inv(s)
    ensures Together(Both(s, W.Unlocked(), {}))
  {
  }

  lemma {:induction false} RunKeepsTogether<T>(states: seq<Both<T>>, events: seq<Event<T>>, k: nat)
    requires Run(states, events) && k <= |events| && Together(states[0])
    ensures Together(states[k])
    decreases k
  {
    hide Together, After, Happens;
    if k > 0 {
      RunKeepsTogether(states, events, k - 1);
      EventKeepsTogether(states[k-1], events[k-1]);
    }
  }

  lemma RunnerDoesNotWait<T>(b: Both<T>)
    requires Together(b)
    ensures b.s.running.Some? ==> !W.Waits(b.rw, b.s.running.value)
  {
    hide S.Inv;
    if b.s.running.Some? { RuntimeInv.RunningElsewhere(b.s); }
  }

  /** A task that waits for the lock keeps waiting, or is on its way back with the lock, until it
      has returned. */
  lemma WaiterStays<T>(b: Both<T>, v: Event<T>, t: T)
    requires Happens(b, v) && v != Return(t) && (W.Waits(b.rw, t) || t in b.back)
    ensures var b' := After(b, v);
            W.Waits(b'.rw, t) || t in b'.back
  {
    hide W.Do;
  }

  /** No waiter is lost, and none comes back without the lock: a task that had to wait in
      `rlock` or `wlock` waits until it is given the lock, is then ready or running, and when
      it runs again it is a holder. */
  lemma {:induction false} ComesBackHolding<T>(states: seq<Both<T>>, events: seq<Event<T>>, k: nat, t: T)
    requires Run(states, events) && k <= |events| && Together(states[0]) && W.Waits(states[0].rw, t)
    requires forall i | 0 <= i < k :: events[i] != Return(t)
    ensures var b := states[k];
            if W.Waits(b.rw, t) then t in b.s.waiting
            else t in b.back && Holds(b.rw, t) && (t in b.s.runq || b.s.running == Some(t))
    ensures states[k].s.running == Some(t) ==> t in states[k].back && Holds(states[k].rw, t)
    decreases k
  {
    hide After, Happens, S.Inv;
    RunKeepsTogether(states, events, k);
    RunnerDoesNotWait(states[k]);
    if k > 0 {
      RunKeepsTogether(states, events, k - 1);
      ComesBackHolding(states, events, k - 1, t);
      WaiterStays(states[k-1], events[k-1], t);
    }
  }

  /** A writer that waits, or has been given the lock, stays so until it has returned. */
  lemma WriterStays<T>(b: Both<T>, v: Event<T>, t: T)
    requires Together(b) && Happens(b, v) && v != Return(t)
    requires t in b.rw.wwaiting || (b.rw.writer == Some(t) && t in b.back)
    ensures var b' := After(b, v);
            t in b'.rw.wwaiting || (b'.rw.writer == Some(t) && t in b'.back)
  {
    hide S.Inv, S.Do, S.UserRuns, W.Do, W.Inv;
    if v.OnLock? {
      if t in b.rw.wwaiting { W.WriterLeavesAsOwner(b.rw, v.c, t); }
      if b.rw.writer == Some(t) { W.HolderStays(b.rw, v.c, t); }
    }
  }

  /** `wlock` returns only with the lock held for writing: nobody else is inside. */
  lemma {:induction false} WriterComesBack<T>(states: seq<Both<T>>, events: seq<Event<T>>, k: nat, t: T)
    requires Run(states, events) && k <= |events| && Together(states[0]) && t in states[0].rw.wwaiting
    requires forall i | 0 <= i < k :: events[i] != Return(t)
    ensures t in states[k].rw.wwaiting || (states[k].rw.writer == Some(t) && t in states[k].back)
    ensures states[k].s.running == Some(t) ==> states[k].rw.writer == Some(t) && states[k].rw.readers == 0
    decreases k
  {
    hide After, Happens, S.Inv;
    RunKeepsTogether(states, events, k);
    RunnerDoesNotWait(states[k]);
    if k > 0 {
      RunKeepsTogether(states, events, k - 1);
      WriterComesBack(states, events, k - 1, t);
      WriterStays(states[k-1], events[k-1], t);
    }
  }

  lemma ReaderStays<T>(b: Both<T>, v: Event<T>, t: T)
    requires Together(b) && Happens(b, v) && v != Return(t)
    requires t in b.rw.rwaiting || (t in b.rw.held && t in b.back)
    ensures var b' := After(b, v);
            t in b'.rw.rwaiting || (t in b'.rw.held && t in b'.back)
  {
    hide S.Inv, S.Do, S.UserRuns;
    if v.OnLock? {
      if t in b.rw.rwaiting { W.ReaderStays(b.rw, v.c, t); }
      if t in b.rw.held { W.HolderStays(b.rw, v.c, t); }
    }
  }

  /** `rlock` returns only with the lock held for reading, and no writer inside. */
  lemma {:induction false} ReaderComesBack<T>(states: seq<Both<T>>, events: seq<Event<T>>, k: nat, t: T)
    requires Run(states, events) && k <= |events| && Together(states[0]) && t in states[0].rw.rwaiting
    requires forall i | 0 <= i < k :: events[i] != Return(t)
    ensures t in states[k].rw.rwaiting || (t in states[k].rw.held && t in states[k].back)
    ensures states[k].s.running == Some(t) ==> t in states[k].rw.held && states[k].rw.writer == None
    decreases k
  {
    hide After, Happens, S.Inv;
    RunKeepsTogether(states, events, k);
    RunnerDoesNotWait(states[k]);
    if k > 0 {
      RunKeepsTogether(states, events, k - 1);
      ReaderComesBack(states, events, k - 1, t);
      ReaderStays(states[k-1], events[k-1], t);
    }
  }

  // ------------------------------------------------------------------ on the heap

  ghost predicate Joint(s: Sched, l: RWLock, back: set<Task>)
    reads *
  {
    s.Valid() && l.Valid() && Together(Both(s.st, l.rw, back))
  }

  /** Whatever method has brought about the event, the two objects still fit together. */
  twostate lemma EventKeepsJoint(l: RWLock, new s: Sched, new back: set<Task>, v: Event<Task>)
    returns (back': set<Task>)
    requires old(allocated(s)) && old(allocated(back)) && old(Joint(s, l, back)) && s.Valid() && l.Valid()
    requires var b := old(Both(s.st, l.rw, back));
             Happens(b, v) && s.st == After(b, v).s && l.rw == After(b, v).rw
    ensures Joint(s, l, back') && back' == After(old(Both(s.st, l.rw, back)), v).back
  {
    hide Sched.Valid, RWLock.Valid, Together;
    EventKeepsTogether(old(Both(s.st, l.rw, back)), v);
    back' := After(old(Both(s.st, l.rw, back)), v).back;
  }
}
