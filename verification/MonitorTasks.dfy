/** A lock and its rendez points together with the scheduler: who waits for the lock or sleeps on
    a rendez waits for the scheduler too, and a task comes out of `qlock` only as the owner. */
module MonitorTasks {
  import opened Options
  import opened TaskLists
  import opened Runtime
  import opened Locks
  import M = MonitorSpec
  import S = RuntimeSpec
  import RuntimeInv
  import RuntimeRuns

  datatype Both<!T, !R> = Both(s: S.Sys<T>, m: M.Monitor<T, R>)

  /** The tasks made ready by the lock or a rendez that have not left its operations yet */
  ghost function Back<T, R>(m: M.Monitor<T, R>): set<T> {
    m.granted + m.woken
  }

  /** Those that wait for the lock or sleep are waiting, those made ready are ready or running. */
  ghost predicate Together<T, R(!new)>(b: Both<T, R>) {
    && S.Inv(b.s) && M.Inv(b.m)
    && (forall t | t in b.m.waiting :: t in b.s.waiting)
    && (forall r, t | t in M.Sleepers(b.m, r) :: t in b.s.waiting)
    && (forall t | t in Back(b.m) :: t in b.s.runq || b.s.running == Some(t))
  }

  /** An operation of the lock or of one of its rendez points, or anything else */
  datatype Event<T, R> = Plain(a: S.Action<T>) | OnLock(e: M.Step<T, R>)

  /** Nobody but the lock and its rendez points makes their waiters ready. */
  ghost predicate Elsewhere<T, R(!new)>(m: M.Monitor<T, R>, a: S.Action<T>) {
    a.DoWake? ==> a.u !in m.waiting && forall r :: a.u !in M.Sleepers(m, r)
  }

  ghost predicate Happens<T, R(!new)>(b: Both<T, R>, v: Event<T, R>) {
    match v
    case Plain(a) =>
      && S.Enabled(b.s, a) && Elsewhere(b.m, a)
      && (S.OfScheduler(a) || (b.s.running.Some? && b.s.running.value !in Back(b.m)))
    case OnLock(e) => b.s.exit == None && S.UserRuns(b.s) && b.s.running == Some(e.t) && M.Legal(b.m, e)
  }

  /** `qunlock` makes the first that waits ready. */
  ghost function HandedOver<T, R>(s: S.Sys<T>, m: M.Monitor<T, R>): S.Sys<T> {
    if m.waiting == [] then s else S.Wake(s, m.waiting[0])
  }

  /** What an operation means for the scheduler */
  ghost function SchedAfter<T, R>(s: S.Sys<T>, m: M.Monitor<T, R>, e: M.Step<T, R>): S.Sys<T> {
    match e
    case Lock(t) => if m.owner == None then s else S.Block(s, t)
    case TryLock(t) => s
    case Resume(t) => s
    case Unlock(t) => HandedOver(s, m)
    case Sleep(t, r) => S.Block(HandedOver(s, m), t)
    case Relock(t) => if m.owner == None then s else S.Block(s, t)
    case Wakeup(t, r, all) =>
      var q := M.Sleepers(m, r);
      S.WakeAll(s, q[..M.Woken(q, all)])
  }

  ghost function After<T, R(!new)>(b: Both<T, R>, v: Event<T, R>): Both<T, R>
    requires Happens(b, v)
  {
    match v
    case Plain(a) => b.(s := S.Do(b.s, a))
    case OnLock(e) => Both(SchedAfter(b.s, b.m, e), M.Do(b.m, e))
  }

  lemma EventKeepsTogether<T, R(!new)>(b: Both<T, R>, v: Event<T, R>)
    requires Together(b) && Happens(b, v)
    ensures Together(After(b, v))
  {
    hide S.Inv, M.Inv;
    match v
    case Plain(a) =>
      RuntimeInv.StepKeepsInv(b.s, a);
      forall t | t in b.s.waiting && !(a.DoWake? && a.u == t) ensures t in S.Do(b.s, a).waiting { }
      forall t | t in Back(b.m) ensures t in S.Do(b.s, a).runq || S.Do(b.s, a).running == Some(t) {
        RuntimeRuns.ReadyStays(b.s, a, t);
      }
    case OnLock(e) =>
      M.StepKeepsInv(b.m, e);
      StepMoves(b, e);
      forall r ensures forall t | t in M.Sleepers(M.Do(b.m, e), r) :: t in SchedAfter(b.s, b.m, e).waiting {
        SleepersWait(b, e, r);
      }
  }

  /** What an operation does to who waits for the lock and who is ready */
  lemma StepMoves<T, R(!new)>(b: Both<T, R>, e: M.Step<T, R>)
    requires Together(b) && Happens(b, OnLock(e))
    ensures var s', m' := SchedAfter(b.s, b.m, e), M.Do(b.m, e);
            && S.Inv(s')
            && (forall t | t in m'.waiting :: t in s'.waiting)
            && (forall t | t in Back(m') :: t in s'.runq || s'.running == Some(t))
  {
    hide S.Inv, M.Sleepers;
    match e
    case Lock(t) => RuntimeInv.BlockKeeps(b.s);
    case TryLock(t) =>
    case Resume(t) =>
    case Unlock(t) => HandOverMoves(b);
    case Sleep(t, r) =>
      HandOverMoves(b);
      RuntimeInv.BlockKeeps(HandedOver(b.s, b.m));
    case Relock(t) => RuntimeInv.BlockKeeps(b.s);
    case Wakeup(t, r, all) => RuntimeInv.WakeAllKeeps(b.s, M.Sleepers(b.m, r)[..M.Woken(M.Sleepers(b.m, r), all)]);
  }

  /** ... and to who sleeps on a rendez */
  lemma SleepersWait<T, R(!new)>(b: Both<T, R>, e: M.Step<T, R>, r: R)
    requires Together(b) && Happens(b, OnLock(e))
    ensures forall t | t in M.Sleepers(M.Do(b.m, e), r) :: t in SchedAfter(b.s, b.m, e).waiting
  {
    hide S.Inv;
    M.StepSleepers(b.m, e, r);
    hide M.Do, M.Sleepers;
  }

  lemma HandOverMoves<T, R(!new)>(b: Both<T, R>)
    requires Together(b) && S.UserRuns(b.s)
    ensures var s' := HandedOver(b.s, b.m);
            && S.Inv(s') && S.UserRuns(s') && s'.running == b.s.running
  {
    hide S.Inv, M.Inv;
    if b.m.waiting != [] { RuntimeInv.WakeKeeps(b.s, b.m.waiting[0]); }
  }

  // -------------------------------------------------------------------- runs

  /** A run of the whole program, as far as this lock is concerned */
  ghost predicate Run<T, R(!new)>(states: seq<Both<T, R>>, events: seq<Event<T, R>>) {
    && |states| == |events| + 1
    && forall i | 0 <= i < |events| :: Happens(states[i], events[i]) && states[i+1] == After(states[i], events[i])
  }

  /** A free lock fits to any state of the scheduler. */
  lemma FreeTogether<T, R(!new)>(s: S.Sys<T>)
    requires S.Inv(s)
    ensures Together(Both(s, M.Free<T, R>()))
  {
  }

  lemma {:induction false} RunKeepsTogether<T, R(!new)>(states: seq<Both<T, R>>, events: seq<Event<T, R>>, k: nat)
    requires Run(states, events) && k <= |events| && Together(states[0])
    ensures Together(states[k])
    decreases k
  {
    hide Together, After, Happens;
    if k > 0 {
      RunKeepsTogether(states, events, k - 1);
      EventKeepsTogether(states[k-1], events[k-1]);
    }
  }

  lemma StaysForLock<T, R(!new)>(b: Both<T, R>, v: Event<T, R>, t: T)
    requires Happens(b, v) && v != OnLock(M.Resume(t)) && (t in b.m.waiting || t in b.m.granted)
    ensures var m' := After(b, v).m;
            t in m'.waiting || t in m'.granted
  {
  }

  /** A task that had to wait in `qlock` runs again only once it has been granted the lock,
      and it owns it then: the check after the switch in `qlock` never fails. */
  lemma {:induction false} ComesBackGranted<T, R(!new)>(states: seq<Both<T, R>>, events: seq<Event<T, R>>, k: nat, t: T)
    requires Run(states, events) && k <= |events| && Together(states[0]) && t in states[0].m.waiting
    requires forall i | 0 <= i < k :: events[i] != OnLock(M.Resume(t))
    ensures t in states[k].m.waiting || t in states[k].m.granted
    ensures states[k].s.running == Some(t) ==>
              t in states[k].m.granted && states[k].m.owner == Some(t) && M.Legal(states[k].m, M.Resume(t))
    decreases k
  {
    hide After, Happens;
    RunKeepsTogether(states, events, k);
    if k > 0 {
      ComesBackGranted(states, events, k - 1, t);
      StaysForLock(states[k-1], events[k-1], t);
    }
  }

  lemma StaysForRendez<T, R(!new)>(b: Both<T, R>, v: Event<T, R>, r: R, t: T)
    requires Happens(b, v) && v != OnLock(M.Relock(t)) && (t in M.Sleepers(b.m, r) || t in b.m.woken)
    ensures var m' := After(b, v).m;
            t in M.Sleepers(m', r) || t in m'.woken
  {
    if v.OnLock? {
      M.StepSleepers(b.m, v.e, r);
    }
  }

  /** A task that sleeps on a rendez runs again only after a wakeup for that rendez. */
  lemma {:induction false} ComesBackWoken<T, R(!new)>(states: seq<Both<T, R>>, events: seq<Event<T, R>>, k: nat, r: R,
                                                      t: T)
    requires Run(states, events) && k <= |events| && Together(states[0]) && t in M.Sleepers(states[0].m, r)
    requires forall i | 0 <= i < k :: events[i] != OnLock(M.Relock(t))
    ensures t in M.Sleepers(states[k].m, r) || t in states[k].m.woken
    ensures states[k].s.running == Some(t) ==> t in states[k].m.woken && M.Legal(states[k].m, M.Relock(t))
    decreases k
  {
    hide After, Happens, M.Sleepers;
    RunKeepsTogether(states, events, k);
    if k > 0 {
      ComesBackWoken(states, events, k - 1, r, t);
      StaysForRendez(states[k-1], events[k-1], r, t);
    }
  }

  // ------------------------------------------------------------------ on the heap

  ghost predicate Joint(s: Sched, l: QLock)
    reads *
  {
    s.Valid() && l.Valid() && Together(Both(s.st, l.mon))
  }

  /** Whatever method has brought about the event, the two objects still fit together. */
  twostate lemma EventKeepsJoint(l: QLock, new s: Sched, v: Event<Task, nat>)
    requires old(allocated(s)) && old(Joint(s, l)) && s.Valid() && l.Valid()
    requires Happens(old(Both(s.st, l.mon)), v) && Both(s.st, l.mon) == After(old(Both(s.st, l.mon)), v)
    ensures Joint(s, l)
  {
    hide Sched.Valid, QLock.Valid, Together;
    EventKeepsTogether(old(Both(s.st, l.mon)), v);
  }
}
