/** Channels and scheduler together: a task blocked in `chanalt` is one that waits on a channel,
    the wakeups of `altexec` reach the run queue, and a task comes back from `chanalt` only
    when one of its alternatives has been run. */
module ChanTasks {
  import opened Options
  import opened Channels
  import opened ChanAlts
  import opened TaskLists
  import opened Runtime
  import A = Alternation
  import R = RuntimeSpec
  import RuntimeInv
  import RuntimeRuns

  /** The tasks of `back` have been made ready by `altexec` and have not yet returned from
      `chanalt`. */
  datatype Both<!T, C, E> = Both(s: R.Sys<T>, ch: A.State<T, C, E>, back: set<T>)

  /** The tasks blocked in `chanalt` are those that the scheduler has waiting on a channel,
      and those on their way back are ready or running. */
  ghost predicate Together<T, C, E>(b: Both<T, C, E>) {
    && R.Inv(b.s) && A.Inv(b.ch) && b.ch.blocked.Keys == b.s.chanwait
    && forall t | t in b.back :: t in b.s.runq || b.s.running == Some(t)
  }

  /** Something that a task does or the scheduler, a channel operation, or the rest of
      `chanalt` for a task that had to wait. */
  datatype Event<T, C, E> = Plain(a: R.Action<T>) | OnChannel(e: A.Event<T, C, E>) | Return(t: T)

  /** The running task is not inside `chanalt`. */
  ghost predicate Outside<T, C, E>(b: Both<T, C, E>) {
    b.s.running.Some? && b.s.running.value !in b.back
  }

  ghost predicate Happens<T, C, E>(b: Both<T, C, E>, v: Event<T, C, E>) {
    && b.s.exit == None
    && match v
       case Plain(a) => R.Enabled(b.s, a) && !a.DoBlockChan? && !a.DoWakeChan? && (R.OfScheduler(a) || Outside(b))
       case OnChannel(e) =>
         R.UserRuns(b.s) && Outside(b) && A.Happens(b.ch, e) && (e.Call? ==> b.s.running == Some(e.t))
       case Return(t) => b.s.running == Some(t) && t in b.back
  }

  /** What `chanalt` by task `t` means for the scheduler */
  ghost function SchedAfter<T>(s: R.Sys<T>, t: T, o: A.Outcome<T>): R.Sys<T> {
    match o
    case WouldBlock => s
    case Blocks => R.BlockChan(s, t)
    case Runs(_, None) => s
    case Runs(_, Some(p)) => R.WakeChan(s, p.0)
  }

  ghost function BackAfter<T>(back: set<T>, o: A.Outcome<T>): set<T> {
    if o.Runs? && o.partner.Some? then back + {o.partner.value.0} else back
  }

  ghost function After<T, C, E>(b: Both<T, C, E>, v: Event<T, C, E>): Both<T, C, E>
    requires Happens(b, v)
  {
    match v
    case Plain(a) => b.(s := R.Do(b.s, a))
    case OnChannel(New(c, size)) => b.(ch := A.After(b.ch, v.e))
    case OnChannel(Call(t, alts, canblock, o, x)) =>
      Both(SchedAfter(b.s, t, o), A.After(b.ch, v.e), BackAfter(b.back, o))
    case Return(t) => b.(back := b.back - {t})
  }

  /** A channel wakeup meets a task that waits on a channel, and so is not in the run queue:
      no task is linked into it twice. */
  lemma WakesAWaiter<T, C, E>(b: Both<T, C, E>, e: A.Event<T, C, E>)
    requires Together(b) && Happens(b, OnChannel(e)) && e.Call? && e.o.Runs? && e.o.partner.Some?
    ensures var u := e.o.partner.value.0;
            && R.Enabled(b.s, R.DoWakeChan(u)) && u !in b.s.runq && b.s.running != Some(u)
  {
  }

  /** Every event keeps channels and scheduler consistent, and each with itself. */
  lemma EventKeepsTogether<T, C, E>(b: Both<T, C, E>, v: Event<T, C, E>)
    requires Together(b) && Happens(b, v)
    ensures Together(After(b, v))
  {
    hide R.Inv, A.Inv;
    match v
    case Plain(a) =>
      RuntimeInv.StepKeepsInv(b.s, a);
      WaitersStay(b.s, a);
      forall t | t in b.back ensures t in R.Do(b.s, a).runq || R.Do(b.s, a).running == Some(t) {
        RuntimeRuns.ReadyStays(b.s, a, t);
      }
    case OnChannel(e) =>
      A.EventKeepsInv(b.ch, e);
      if e.Call? {
        CallMoves(b, e.t, e.o);
      }
    case Return(t) =>
  }

  /** Nothing but channel operations changes who waits on a channel. */
  lemma WaitersStay<T>(s: R.Sys<T>, a: R.Action<T>)
    requires R.Enabled(s, a) && !a.DoBlockChan? && !a.DoWakeChan?
    ensures R.Do(s, a).chanwait == s.chanwait
  {
  }

  /** What a call of `chanalt` does on the side of the scheduler */
  lemma CallMoves<T, C, E>(b: Both<T, C, E>, t: T, o: A.Outcome<T>)
    requires Together(b) && R.UserRuns(b.s) && b.s.running == Some(t) && t !in b.back
    requires o.Runs? && o.partner.Some? ==> o.partner.value.0 in b.s.chanwait
    ensures var s' := SchedAfter(b.s, t, o);
            && R.Inv(s')
            && s'.chanwait == (match o case Blocks => b.s.chanwait + {t}
                                       case Runs(_, Some(p)) => b.s.chanwait - {p.0}
                                       case _ => b.s.chanwait)
            && forall u | u in BackAfter(b.back, o) :: u in s'.runq || s'.running == Some(u)
  {
    hide R.Inv, A.Inv;
    match o
    case WouldBlock =>
    case Blocks => RuntimeInv.BlockChanKeeps(b.s);
    case Runs(_, None) =>
    case Runs(_, Some(p)) => RuntimeInv.WakeChanKeeps(b.s, p.0);
  }

  /** A run of the whole program */
  ghost predicate Run<T, C, E>(states: seq<Both<T, C, E>>, events: seq<Event<T, C, E>>) {
    && |states| == |events| + 1
    && forall i | 0 <= i < |events| :: Happens(states[i], events[i]) && states[i+1] == After(states[i], events[i])
  }

  /** A process starts with one task and no channels. */
  lemma StartsTogether<T, C, E>(main: T)
    ensures var ch: A.State<T, C, E> := A.State(map[], map[], map[]);
            Together(Both(RuntimeRuns.Start(main), ch, {}))
  {
    RuntimeRuns.StartInv(main);
  }

  /** Channels and scheduler stay consistent in every state of every run of the program. */
  lemma {:induction false} RunKeepsTogether<T, C, E>(states: seq<Both<T, C, E>>, events: seq<Event<T, C, E>>, k: nat)
    requires Run(states, events) && k <= |events| && Together(states[0])
    ensures Together(states[k])
    decreases k
  {
    hide Together, After, Happens;
    if k > 0 {
      RunKeepsTogether(states, events, k - 1);
      EventKeepsTogether(states[k-1], events[k-1]);
    }
  }

  lemma StaysInside<T, C, E>(b: Both<T, C, E>, v: Event<T, C, E>, t: T)
    requires Happens(b, v) && v != Return(t) && (t in b.ch.blocked || t in b.back)
    ensures t in After(b, v).ch.blocked || t in After(b, v).back
  {
  }

  /** A task that had to wait in `chanalt` comes back only when another has run one of its
      alternatives: whenever it runs again it has been woken by `altexec`. */
  lemma {:induction false} ComesBackWoken<T, C, E>(states: seq<Both<T, C, E>>, events: seq<Event<T, C, E>>, k: nat,
                                                   t: T)
    requires Run(states, events) && k <= |events| && Together(states[0]) && t in states[0].ch.blocked
    requires forall i | 0 <= i < k :: events[i] != Return(t)
    ensures t in states[k].ch.blocked || t in states[k].back
    ensures states[k].s.running == Some(t) ==> t in states[k].back
    decreases k
  {
    hide After, Happens;
    RunKeepsTogether(states, events, k);
    if k > 0 {
      ComesBackWoken(states, events, k - 1, t);
      StaysInside(states[k-1], events[k-1], t);
    }
  }

  // ------------------------------------------------------------------ on the heap

  /** What the two objects represent */
  ghost function View(s: Sched, c: ChanSys): Both<Task, Channel, seq<byte>>
    reads s, c
  {
    Both(s.st, c.st, c.woken.Keys)
  }

  ghost predicate Joint(s: Sched, c: ChanSys)
    reads *
  {
    s.Valid() && c.Valid() && Together(View(s, c))
  }

  /** Scheduler and channels share no memory. */
  lemma Apart(s: Sched, c: ChanSys)
    ensures (c as object) !in s.Repr()
    ensures forall d | d in c.chans :: (d as object) !in s.Repr()
    ensures forall b | b in Rings(c.chans) :: (b as object) !in s.Repr()
  {
  }

  /** Changes outside the channels do not concern them. */
  twostate lemma ChannelsUnaffected(c: ChanSys)
    requires old(c.Valid()) && unchanged(c) && unchanged(old(c.chans)) && unchanged(old(Rings(c.chans)))
    ensures c.Valid()
  {
    hide ChanSys.Valid;
  }

  ghost function Data(v: array?<byte>): seq<byte>
    reads Cell(v)
  {
    if v == null then [] else v[..]
  }

  /** The task that a call with outcome `o` makes ready */
  ghost function Readied(o: A.Outcome<Task>): Option<Task> {
    if o.Runs? && o.partner.Some? then Some(o.partner.value.0) else None
  }

  /** What a call of `chanalt` does to the scheduler: it makes a task ready, or switches, or
      neither; channels and data stay as they are. */
  method PassOn(s: Sched, woken: Option<Task>, blocks: bool, ghost c: ChanSys, ghost o: A.Outcome<Task>,
                ghost dst: array?<byte>)
    requires s.Valid() && c.Valid() && R.UserRuns(s.st)
    requires woken == Readied(o) && blocks == o.Blocks? && (woken.Some? ==> woken.value in s.st.chanwait)
    modifies s.Repr()
    ensures s.Valid() && s.Repr() == old(s.Repr()) && s.lists == old(s.lists)
    ensures s.st == SchedAfter(old(s.st), old(s.st).running.value, o)
    ensures forall m | m in old(s.lists) && m != s.taskrunqueue && m != s.sleeping :: m.contents == old(m.contents)
    ensures c.Valid() && unchanged(c) && unchanged(c.chans) && unchanged(Rings(c.chans)) && Data(dst) == old(Data(dst))
  {
    hide Sched.Valid, ChanSys.Valid;
    Apart(s, c);
    CellApart(s, dst);
    if woken.Some? {
      s.WakeFromChannel(woken.value);
    }
    if blocks {
      s.BlockOnChannel();
    }
    ChannelsUnaffected(c);
  }

  /** A step of the channels and the scheduler's part of it fit together. */
  lemma CallTogether<T, C, E>(b: Both<T, C, E>, alts: seq<A.Alt<C>>, canblock: bool, o: A.Outcome<T>, x: E,
                              ch: A.State<T, C, E>)
    requires Together(b) && R.UserRuns(b.s) && Outside(b)
    requires A.Steps(b.ch, b.s.running.value, alts, canblock, o, x, ch) && A.Inv(ch)
    ensures o.Runs? && o.partner.Some? ==> o.partner.value.0 in b.s.chanwait
    ensures Together(Both(SchedAfter(b.s, b.s.running.value, o), ch, BackAfter(b.back, o)))
  {
    hide A.Inv, R.Inv;
    PartnerWaits(b, b.s.running.value, alts, canblock, o, x, ch);
    hide A.Steps;
    CallMoves(b, b.s.running.value, o);
  }

  /** A partner that was met is one of the blocked tasks. */
  lemma PartnerWaits<T, C, E>(b: Both<T, C, E>, t: T, alts: seq<A.Alt<C>>, canblock: bool, o: A.Outcome<T>, x: E,
                              ch: A.State<T, C, E>)
    requires Together(b) && A.Steps(b.ch, t, alts, canblock, o, x, ch)
    ensures o.Runs? && o.partner.Some? ==> o.partner.value.0 in b.s.chanwait
    ensures ch.blocked.Keys == match o
                               case Blocks => b.ch.blocked.Keys + {t}
                               case Runs(_, Some(p)) => b.ch.blocked.Keys - {p.0}
                               case _ => b.ch.blocked.Keys
  {
    hide A.Inv, R.Inv;
  }

  lemma ChannelsSound(c: ChanSys)
    requires c.Valid()
    ensures A.Inv(c.st)
  {
  }

  lemma CallerOutside(s: Sched, c: ChanSys, a: AltSet)
    requires Joint(s, c) && R.UserRuns(s.st) && c.Calls(s.st.running.value, a)
    ensures Outside(View(s, c)) && s.taskrunning == s.st.running.value
  {
    hide Sched.Valid, ChanSys.Valid, Together;
    s.RunningIsLoose();
  }

  /** What `Delivered` says about the bytes of the receiver's memory */
  ghost predicate Holds(s: A.State<Task, Channel, seq<byte>>, p: AltPtr, other: Option<AltPtr>, x: seq<byte>,
                        data: seq<byte>) {
    Dest(p, other) != null ==>
      var a := Deref(p);
      && !a.Nop? && a.c in s.buf && a.c.elemsize <= |data|
      && A.Queue(s.buf[a.c], A.Sends(a, other.Some?), x) != []
      && data[..a.c.elemsize] == A.Queue(s.buf[a.c], A.Sends(a, other.Some?), x)[0]
  }

  lemma DeliveredIs(s: A.State<Task, Channel, seq<byte>>, p: AltPtr, other: Option<AltPtr>, x: seq<byte>)
    ensures Delivered(s, p, other, x) <==> Holds(s, p, other, x, Data(Dest(p, other)))
  {
  }

  /** No data cell is memory of the scheduler. */
  lemma CellApart(s: Sched, v: array?<byte>)
    ensures v != null ==> (v as object) !in s.Repr()
  {
  }

  /** `chanalt` by the running task, as far as the channels are concerned; `woken` is the task
      that `altexec` makes ready. */
  method Call(s: Sched, c: ChanSys, a: AltSet, rnd1: nat, rnd2: nat)
    returns (r: Result, woken: Option<Task>, ghost o: A.Outcome<Task>, ghost x: seq<byte>)
    requires Joint(s, c) && R.UserRuns(s.st) && c.Calls(s.st.running.value, a) && A.AllKnown(c.st, a.alts)
    modifies c`task, c`regs, c`sets, c`woken, c`readied, c`st, c`xalt, c`arrays
    modifies c.chans`nbuf, c.chans`off, Rings(c.chans), c.Dests(a, rnd2)
    ensures o.Runs? ==> o.i < |a.alts|
    ensures woken == Readied(o) && (woken.Some? ==> woken.value in s.st.chanwait)
    ensures match o
            case WouldBlock => c.sets == old(c.sets) && c.woken == old(c.woken)
            case Blocks => c.sets == old(c.sets)[s.st.running.value := a] && c.woken == old(c.woken)
            case Runs(_, who) => c.Woke(who, old(c.sets), old(c.woken), old(c.readied))
    ensures o.Runs? ==> Turn(old(c.st), a.alts, rnd1, o.i)
    ensures o.Runs? ==>
              var p := AltPtr(a, o.i);
              && Names(old(c.sets), old(c.Met(p, rnd2)), o.partner)
              && old(c.Ready(p, rnd2)) && x == old(c.Elem(p, rnd2))
              && Delivered(old(c.st), p, old(c.Met(p, rnd2)), x)
    ensures r == match o case Runs(i, _) => Returned(i) case WouldBlock => Returned(-1) case Blocks => Switched
    ensures A.Steps(old(c.st), s.st.running.value, a.alts, a.canblock, o, x, c.st)
    ensures s.Valid() && c.Valid()
    ensures Together(Both(SchedAfter(s.st, s.st.running.value, o), c.st, c.woken.Keys))
  {
    hide Sched.Valid, ChanSys.Valid, ChanSys.Ready, Together, A.Steps, A.AllKnown, R.UserRuns, SchedAfter, Turn, Names,
         Delivered, ChanSys.Calls, ChanSys.Met, ChanSys.Elem;
    Apart(s, c);
    CallerOutside(s, c, a);
    ghost var b := View(s, c);
    var n := |c.readied|;
    r, o, x := c.ChanAlt(a, s.taskrunning, rnd1, rnd2);
    woken := if |c.readied| > n then Some(c.readied[n]) else None;
    Unaffected(s);
    ChannelsSound(c);
    CallTogether(b, a.alts, a.canblock, o, x, c.st);
    assert c.woken.Keys == BackAfter(b.back, o);
  }

  /** `chanalt` by the running task, up to its return or its switch: the task that it wakes,
      if any, goes to the tail of the run queue, in which it is not yet. */
  method Alt(s: Sched, c: ChanSys, a: AltSet, rnd1: nat, rnd2: nat)
    returns (r: Result, ghost o: A.Outcome<Task>, ghost x: seq<byte>)
    requires Joint(s, c) && R.UserRuns(s.st) && c.Calls(s.st.running.value, a) && A.AllKnown(c.st, a.alts)
    modifies s.Repr()
    modifies c`task, c`regs, c`sets, c`woken, c`readied, c`st, c`xalt, c`arrays
    modifies c.chans`nbuf, c.chans`off, Rings(c.chans), c.Dests(a, rnd2)
    ensures o.Runs? ==> o.i < |a.alts|
    ensures Joint(s, c) && s.Repr() == old(s.Repr()) && s.lists == old(s.lists)
    ensures var t := old(s.st).running.value;
            && A.Steps(old(c.st), t, a.alts, a.canblock, o, x, c.st) && s.st == SchedAfter(old(s.st), t, o)
            && match o
               case WouldBlock => c.sets == old(c.sets) && c.woken == old(c.woken)
               case Blocks => c.sets == old(c.sets)[t := a] && c.woken == old(c.woken)
               case Runs(_, who) => c.Woke(who, old(c.sets), old(c.woken), old(c.readied))
    ensures o.Runs? ==> Turn(old(c.st), a.alts, rnd1, o.i)
    ensures o.Runs? ==>
              var p := AltPtr(a, o.i);
              && Names(old(c.sets), old(c.Met(p, rnd2)), o.partner)
              && old(c.Ready(p, rnd2)) && x == old(c.Elem(p, rnd2))
              && Delivered(old(c.st), p, old(c.Met(p, rnd2)), x)
    ensures r == match o case Runs(i, _) => Returned(i) case WouldBlock => Returned(-1) case Blocks => Switched
    ensures forall m | m in old(s.lists) && m != s.taskrunqueue && m != s.sleeping :: m.contents == old(m.contents)
  {
    hide Sched.Valid, ChanSys.Valid, ChanSys.Ready, Together, A.Steps, A.AllKnown, SchedAfter, Turn, Names, Delivered,
         Dest, Holds, Data, ChanSys.Calls, ChanSys.Met, ChanSys.Elem;
    var woken;
    r, woken, o, x := Call(s, c, a, rnd1, rnd2);
    ghost var p := AltPtr(a, if o.Runs? then o.i else 0);
    ghost var other := if o.Runs? then old(c.Met(AltPtr(a, o.i), rnd2)) else None;
    DeliveredIs(old(c.st), p, other, x);
    PassOn(s, woken, r.Switched?, c, o, Dest(p, other));
    DeliveredIs(old(c.st), p, other, x);
  }

  /** `chanalt` after its switch: the task that runs again gets the index of the alternative
      that the waking task has run, and may call again. */
  method Resume(s: Sched, c: ChanSys, a: AltSet) returns (r: int)
    requires Joint(s, c) && s.st.running.Some? && s.st.running.value in c.woken && c.woken[s.st.running.value].set_ == a
    modifies c`woken
    ensures Joint(s, c)
    ensures var t := s.st.running.value;
            && r == old(c.woken)[t].idx && 0 <= r < |a.alts|
            && c.woken == old(c.woken) - {t} && Fresh(c.sets, c.woken, t, a)
  {
    hide Sched.Valid, ChanSys.Valid, R.Inv, A.Inv;
    Apart(s, c);
    r := c.Resume(a, s.st.running.value);
    Unaffected(s);
  }

  /** What the scheduler or a task does besides leaves the channels as they are. */
  twostate lemma PlainKeepsJoint(c: ChanSys, new s: Sched, a: R.Action<Task>)
    requires old(allocated(s)) && old(Joint(s, c)) && s.Valid()
    requires Happens(old(View(s, c)), Plain(a)) && s.st == R.Do(old(s.st), a)
    requires unchanged(c) && unchanged(old(c.chans)) && unchanged(old(Rings(c.chans)))
    ensures Joint(s, c)
  {
    hide Sched.Valid, ChanSys.Valid, R.Inv, A.Inv, R.Do, Happens;
    EventKeepsTogether(old(View(s, c)), Plain(a));
    ChannelsUnaffected(c);
  }
}
