/** The mutex of qlock.c together with the condition variables of rendez.c that use it. */
module MonitorSpec {
  import opened Options
  import opened Seqs

  /** One lock and the rendez points `R` built on it.  A task of `granted` has been made
      ready as the owner but has not run yet; a task of `woken` has been made ready by a
      wakeup and has still to take the lock again. */
  datatype Monitor<!T, !R> = Monitor(
    owner: Option<T>,
    waiting: seq<T>,
    granted: set<T>,
    asleep: map<R, seq<T>>,
    woken: set<T>)

  ghost function Free<T, R>(): Monitor<T, R> { Monitor(None, [], {}, map[], {}) }

  ghost function Sleepers<T, R>(s: Monitor<T, R>, r: R): seq<T> {
    if r in s.asleep then s.asleep[r] else []
  }

  datatype Step<T, R> =
    | Lock(t: T)                      // qlock
    | TryLock(t: T)                   // canqlock
    | Resume(t: T)                    // the rest of qlock, after its switch
    | Unlock(t: T)                    // qunlock
    | Sleep(t: T, r: R)               // tasksleep up to its switch
    | Relock(t: T)                    // tasksleep after its switch: qlock again
    | Wakeup(t: T, r: R, all: bool)   // taskwakeup and taskwakeupall

  /** Where a task is when it is inside none of these operations. */
  ghost predicate Outside<T, R(!new)>(s: Monitor<T, R>, t: T) {
    t !in s.waiting && t !in s.granted && t !in s.woken && forall r :: t !in Sleepers(s, r)
  }

  /** Only the owner unlocks, or sleeps on a rendez of the lock. */
  ghost predicate Legal<T, R(!new)>(s: Monitor<T, R>, a: Step<T, R>) {
    match a
    case Lock(t) => Outside(s, t)
    case TryLock(t) => Outside(s, t)
    case Resume(t) => t in s.granted
    case Unlock(t) => Outside(s, t) && s.owner == Some(t)
    case Sleep(t, r) => Outside(s, t) && s.owner == Some(t)
    case Relock(t) => t in s.woken
    case Wakeup(t, r, all) => Outside(s, t)
  }

  /** `qunlock`: the lock goes straight to the first that waits for it. */
  ghost function HandOver<T, R>(s: Monitor<T, R>): Monitor<T, R> {
    if s.waiting == [] then s.(owner := None)
    else s.(owner := Some(s.waiting[0]), waiting := s.waiting[1..], granted := s.granted + {s.waiting[0]})
  }

  ghost function Take<T, R>(s: Monitor<T, R>, t: T): Monitor<T, R> {
    if s.owner == None then s.(owner := Some(t)) else s.(waiting := s.waiting + [t])
  }

  /** How many sleepers a wakeup wakes, which is also what it returns. */
  ghost function Woken<T>(q: seq<T>, all: bool): nat {
    if all || q == [] then |q| else 1
  }

  ghost function Do<T, R>(s: Monitor<T, R>, a: Step<T, R>): Monitor<T, R> {
    match a
    case Lock(t) => Take(s, t)
    case TryLock(t) => if s.owner == None then s.(owner := Some(t)) else s
    case Resume(t) => s.(granted := s.granted - {t})
    case Unlock(t) => HandOver(s)
    case Sleep(t, r) => HandOver(s.(asleep := s.asleep[r := Sleepers(s, r) + [t]]))
    case Relock(t) => Take(s.(woken := s.woken - {t}), t)
    case Wakeup(t, r, all) =>
      var q := Sleepers(s, r);
      var n := Woken(q, all);
      s.(asleep := s.asleep[r := q[n..]], woken := s.woken + set x | x in q[..n])
  }

  /** An unowned lock has no waiters, the only task granted the lock is its owner, and no
      task is in two places. */
  ghost predicate Inv<T, R(!new)>(s: Monitor<T, R>) {
    && (s.owner == None ==> s.waiting == [])
    && (forall t | t in s.granted :: s.owner == Some(t))
    && (forall t | t in s.woken :: s.owner != Some(t) && t !in s.waiting)
    && NoDup(s.waiting)
    && (forall r :: NoDup(Sleepers(s, r)))
    && (forall r, t | t in Sleepers(s, r) :: s.owner != Some(t) && t !in s.waiting && t !in s.woken)
    && (forall r, r', t | r != r' && t in Sleepers(s, r) :: t !in Sleepers(s, r'))
  }

  lemma StepKeepsInv<T, R(!new)>(s: Monitor<T, R>, a: Step<T, R>)
    requires Inv(s) && Legal(s, a)
    ensures Inv(Do(s, a))
  {
    match a
    case Lock(t) => TakeKeeps(s, t);
    case TryLock(t) => assert forall r :: Sleepers(Do(s, a), r) == Sleepers(s, r);
    case Resume(t) => assert forall r :: Sleepers(Do(s, a), r) == Sleepers(s, r);
    case Unlock(t) => HandOverKeeps(s);
    case Sleep(t, r) => SleepKeeps(s, t, r);
    case Relock(t) =>
      WokenComesBack(s, t);
      TakeKeeps(s.(woken := s.woken - {t}), t);
    case Wakeup(t, r, all) => WakeupKeeps(s, t, r, all);
  }

  lemma TakeKeeps<T, R(!new)>(s: Monitor<T, R>, t: T)
    requires Inv(s) && Outside(s, t)
    ensures Inv(Take(s, t))
  {
    assert forall r :: Sleepers(Take(s, t), r) == Sleepers(s, r);
  }

  /** A woken task that is about to take the lock again is outside everything else. */
  lemma WokenComesBack<T, R(!new)>(s: Monitor<T, R>, t: T)
    requires Inv(s) && t in s.woken
    ensures var s1 := s.(woken := s.woken - {t});
            Inv(s1) && Outside(s1, t) && forall r :: Sleepers(s1, r) == Sleepers(s, r)
  {
    var s1 := s.(woken := s.woken - {t});
    assert forall r :: Sleepers(s1, r) == Sleepers(s, r);
  }

  lemma HandOverKeeps<T, R(!new)>(s: Monitor<T, R>)
    requires Inv(s) && s.owner.Some? && s.owner.value !in s.granted
    ensures Inv(HandOver(s))
  {
    assert forall r :: Sleepers(HandOver(s), r) == Sleepers(s, r);
  }

  lemma SleepKeeps<T, R(!new)>(s: Monitor<T, R>, t: T, r: R)
    requires Inv(s) && Outside(s, t) && s.owner == Some(t)
    ensures Inv(Do(s, Sleep(t, r)))
  {
    var s' := Do(s, Sleep(t, r));
    assert forall r' :: Sleepers(s', r') == if r' == r then Sleepers(s, r) + [t] else Sleepers(s, r');
  }

  lemma WakeupKeeps<T, R(!new)>(s: Monitor<T, R>, t: T, r: R, all: bool)
    requires Inv(s)
    ensures Inv(Do(s, Wakeup(t, r, all)))
  {
    var s' := Do(s, Wakeup(t, r, all));
    var q := Sleepers(s, r);
    var n := Woken(q, all);
    assert forall r' :: Sleepers(s', r') == if r' == r then q[n..] else Sleepers(s, r');
    assert forall x | x in q[..n] || x in q[n..] :: x in q;
    assert forall x | x in q[..n] :: x !in q[n..];
  }

  lemma UnlockPasses<T, R(!new)>(s: Monitor<T, R>, t: T)
    ensures var s' := Do(s, Unlock(t));
            if s.waiting == [] then s'.owner == None && s'.waiting == []
            else s'.owner == Some(s.waiting[0]) && s'.waiting == s.waiting[1..]
  {
  }

  lemma WakeupTakes<T, R(!new)>(s: Monitor<T, R>, t: T, r: R, all: bool)
    ensures var s', q := Do(s, Wakeup(t, r, all)), Sleepers(s, r);
            s'.owner == s.owner && s'.waiting == s.waiting && Sleepers(s', r) == q[Woken(q, all)..]
  {
  }

  // -------------------------------------------------------------------- runs

  ghost predicate Run<T, R(!new)>(states: seq<Monitor<T, R>>, steps: seq<Step<T, R>>) {
    && |states| == |steps| + 1
    && forall i | 0 <= i < |steps| :: Legal(states[i], steps[i]) && states[i+1] == Do(states[i], steps[i])
  }

  /** The invariant holds in every run that starts with it, such as those of a free lock. */
  lemma {:induction false} RunKeepsInv<T, R(!new)>(states: seq<Monitor<T, R>>, steps: seq<Step<T, R>>, k: nat)
    requires Run(states, steps) && k <= |steps| && (states[0] == Free() || Inv(states[0]))
    ensures Inv(states[k])
    decreases k
  {
    if k > 0 {
      RunKeepsInv(states, steps, k - 1);
      StepKeepsInv(states[k-1], steps[k-1]);
    }
  }

  /** The check in `qlock` after its switch never fails: in every run, a task that has been
      made ready by `qunlock` owns the lock until it has run. */
  lemma GrantedOwns<T, R(!new)>(states: seq<Monitor<T, R>>, steps: seq<Step<T, R>>, k: nat)
    requires Run(states, steps) && k < |steps| && states[0] == Free() && steps[k].Resume?
    ensures states[k].owner == Some(steps[k].t)
  {
    RunKeepsInv(states, steps, k);
  }

  /** How often the first `k` steps give the lock away. */
  ghost function Unlocks<T, R>(steps: seq<Step<T, R>>, k: nat): nat
    requires k <= |steps|
  {
    if k == 0 then 0 else Unlocks(steps, k - 1) + if steps[k-1].Unlock? || steps[k-1].Sleep? then 1 else 0
  }

  /** What a step does to the queue of the lock. */
  lemma StepQueue<T, R(!new)>(s: Monitor<T, R>, a: Step<T, R>)
    requires Inv(s) && Legal(s, a)
    ensures var s' := Do(s, a);
            if (a.Unlock? || a.Sleep?) && s.waiting != [] then
              s'.owner == Some(s.waiting[0]) && s'.waiting == s.waiting[1..]
            else s.waiting <= s'.waiting && (s.waiting != [] ==> s'.owner == s.owner)
  {
  }

  /** Ownership passes in FIFO order: a task at position `p` of the queue is at position
      `p - d` after `d` hand-overs, and the one after that makes it the owner. */
  lemma {:induction false} LockIsFifo<T, R(!new)>(states: seq<Monitor<T, R>>, steps: seq<Step<T, R>>, k: nat, p: nat)
    requires Run(states, steps) && k <= |steps| && Inv(states[0]) && p < |states[0].waiting|
    ensures var t, d := states[0].waiting[p], Unlocks(steps, k);
            && (d <= p ==> p - d < |states[k].waiting| && states[k].waiting[p - d] == t)
            && (d == p + 1 && k > 0 && Unlocks(steps, k - 1) == p ==>
                  states[k].owner == Some(t) && t !in states[k].waiting)
    decreases k
  {
    hide Do, Legal;
    if k > 0 {
      LockIsFifo(states, steps, k - 1, p);
      RunKeepsInv(states, steps, k - 1);
      StepQueue(states[k-1], steps[k-1]);
    }
  }

  /** Whoever asks for a free lock has it, and nobody asks in vain: `qlock` on a lock that is
      owned puts the task at the end of the queue, `canqlock` changes nothing. */
  lemma AskingTakes<T, R(!new)>(s: Monitor<T, R>, a: Step<T, R>)
    requires Inv(s) && Legal(s, a) && (a.Lock? || a.TryLock? || a.Relock?)
    ensures var s' := Do(s, a);
            && s'.owner == (if s.owner == None then Some(a.t) else s.owner)
            && s'.waiting == (if s.owner == None || a.TryLock? then s.waiting else s.waiting + [a.t])
            && (a.TryLock? && s.owner.Some? ==> s' == s)
  {
  }

  /** A task owns the lock from the moment it gets it until it gives it away itself, by
      `qunlock` or by going to sleep: in every state of every run. */
  lemma {:induction false} OwnsUntilRelease<T, R(!new)>(states: seq<Monitor<T, R>>, steps: seq<Step<T, R>>, k: nat,
                                                        t: T)
    requires Run(states, steps) && k <= |steps| && Inv(states[0]) && states[0].owner == Some(t)
    requires forall i | 0 <= i < k && (steps[i].Unlock? || steps[i].Sleep?) :: steps[i].t != t
    ensures states[k].owner == Some(t)
    decreases k
  {
    hide Do, Legal;
    if k > 0 {
      OwnsUntilRelease(states, steps, k - 1, t);
      RunKeepsInv(states, steps, k - 1);
      OnlyTheOwnerReleases(states[k-1], steps[k-1]);
    }
  }

  lemma OnlyTheOwnerReleases<T, R(!new)>(s: Monitor<T, R>, a: Step<T, R>)
    requires Inv(s) && Legal(s, a) && s.owner.Some?
    ensures Do(s, a).owner == s.owner || ((a.Unlock? || a.Sleep?) && s.owner == Some(a.t))
  {
  }

  /** From a `qlock` or `canqlock` that finds the lock free to the caller's own release it is
      the owner, so that every other `canqlock` fails and every other `qlock` waits. */
  lemma TakenUntilRelease<T, R(!new)>(states: seq<Monitor<T, R>>, steps: seq<Step<T, R>>, k: nat)
    requires Run(states, steps) && 0 < k <= |steps| && Inv(states[0]) && states[0].owner == None
    requires steps[0].Lock? || steps[0].TryLock? || steps[0].Relock?
    requires forall i | 0 < i < k && (steps[i].Unlock? || steps[i].Sleep?) :: steps[i].t != steps[0].t
    ensures states[k].owner == Some(steps[0].t)
  {
    hide Do, Legal;
    AskingTakes(states[0], steps[0]);
    RunKeepsInv(states, steps, 1);
    assert Run(states[1..], steps[1..]);
    OwnsUntilRelease(states[1..], steps[1..], k - 1, steps[0].t);
  }

  ghost predicate IsWakeup<T, R>(a: Step<T, R>, r: R) { a.Wakeup? && a.r == r }

  lemma StepSleepers<T, R(!new)>(s: Monitor<T, R>, a: Step<T, R>, r: R)
    requires Legal(s, a)
    ensures var q, s' := Sleepers(s, r), Do(s, a);
            if IsWakeup(a, r) then
              var n := if a.all then |q| else if |q| > 0 then 1 else 0;
              && q == q[..n] + Sleepers(s', r)
              && (forall x :: x in s'.woken <==> x in s.woken || x in q[..n])
            else if a.Sleep? && a.r == r then Sleepers(s', r) == q + [a.t]
            else Sleepers(s', r) == q
  {
  }

  ghost function Wakeups<T, R>(steps: seq<Step<T, R>>, r: R, k: nat): nat
    requires k <= |steps|
  {
    if k == 0 then 0 else Wakeups(steps, r, k - 1) + if IsWakeup(steps[k-1], r) then 1 else 0
  }

  /** A wakeup cannot be missed: a task that went to sleep on `r` as the `p`-th is still
      there after fewer than `p` wakeups, none of them for all ... */
  lemma {:induction false} SleeperStays<T, R(!new)>(states: seq<Monitor<T, R>>, steps: seq<Step<T, R>>, k: nat, r: R,
                                                    p: nat)
    requires Run(states, steps) && k <= |steps| && p < |Sleepers(states[0], r)|
    requires Wakeups(steps, r, k) <= p && forall i | 0 <= i < k && IsWakeup(steps[i], r) :: !steps[i].all
    ensures var q, d := Sleepers(states[k], r), Wakeups(steps, r, k);
            p - d < |q| && q[p - d] == Sleepers(states[0], r)[p]
    decreases k
  {
    hide Do, Legal, Sleepers;
    if k > 0 {
      SleeperStays(states, steps, k - 1, r, p);
      StepSleepers(states[k-1], steps[k-1], r);
    }
  }

  /** ... and then the next wakeup wakes it, as does any for all. */
  lemma SleeperWoken<T, R(!new)>(states: seq<Monitor<T, R>>, steps: seq<Step<T, R>>, k: nat, r: R, p: nat)
    requires Run(states, steps) && Inv(states[0]) && k < |steps| && p < |Sleepers(states[0], r)|
    requires IsWakeup(steps[k], r) && Wakeups(steps, r, k) <= p
    requires forall i | 0 <= i < k && IsWakeup(steps[i], r) :: !steps[i].all
    ensures var t := Sleepers(states[0], r)[p];
            if steps[k].all || Wakeups(steps, r, k) == p then t in states[k+1].woken && t !in Sleepers(states[k+1], r)
            else t in Sleepers(states[k+1], r)
  {
    hide Do, Legal;
    var t, d := Sleepers(states[0], r)[p], Wakeups(steps, r, k);
    SleeperStays(states, steps, k, r, p);
    RunKeepsInv(states, steps, k);
    RunKeepsInv(states, steps, k + 1);
    StepSleepers(states[k], steps[k], r);
    if !steps[k].all && d < p {
      SleeperStays(states, steps, k + 1, r, p);
    }
  }

  /** What `tasksleep` does to rendez and lock up to its switch */
  lemma SleepMoves<T, R(!new)>(s: Monitor<T, R>, t: T, r: R)
    requires Inv(s) && Legal(s, Sleep(t, r))
    ensures var s' := Do(s, Sleep(t, r));
            && Sleepers(s', r) == Sleepers(s, r) + [t] && s'.owner != Some(t)
            && if s.waiting == [] then s'.owner == None && s'.waiting == []
               else s'.owner == Some(s.waiting[0]) && s'.waiting == s.waiting[1..]
  {
  }

  /** A task that returns from a `qlock` in which it waited keeps the lock, and is no longer
      about to be resumed; the others stay where they are. */
  lemma ResumeReturns<T, R(!new)>(s: Monitor<T, R>, t: T)
    requires Inv(s) && Legal(s, Resume(t))
    ensures var s' := Do(s, Resume(t));
            && s'.owner == Some(t) && s'.waiting == s.waiting && s'.asleep == s.asleep && s'.woken == s.woken
            && forall u :: u in s'.granted <==> u in s.granted && u != t
  {
  }

  /** Every one of these operations that ends with the task outside them leaves it the owner,
      except `qunlock`, a failed `canqlock` and a wakeup; so `tasksleep` returns with the
      lock held. */
  lemma ReturnsOwning<T, R(!new)>(s: Monitor<T, R>, a: Step<T, R>, t: T)
    requires Inv(s) && Legal(s, a) && !Outside(s, t) && Outside(Do(s, a), t)
    ensures a.t == t && (a.Resume? || a.Relock?) && Do(s, a).owner == Some(t)
  {
    forall r ensures t in Sleepers(s, r) ==> t in Sleepers(Do(s, a), r) || t in Do(s, a).woken {
      StepSleepers(s, a, r);
    }
  }
}
