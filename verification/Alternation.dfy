/** What one call of `chanalt` means, without wait arrays, rings or pointers.

    A state keeps the capacity and the queue of every channel and, for every task
    blocked in `chanalt`, the alternatives it offered.  Who waits on a channel is
    read off the blocked tasks, so there is nothing to keep consistent here; the
    class `ChanAlts.ChanSys` keeps explicit wait arrays and refines this module. */
module Alternation {
  import opened Options

  /** One alternative of an Alt set.  A CHANNOP entry names no channel. */
  datatype Alt<+C> = Snd(c: C) | Rcv(c: C) | Nop

  datatype State<T, C, E> = State(
    cap: map<C, nat>,
    buf: map<C, seq<E>>,
    blocked: map<T, seq<Alt<C>>>)

  /** How a call ends: it returns -1, it blocks, or it runs alternative `i`,
      completing alternative `partner.1` of the blocked task `partner.0`. */
  datatype Outcome<+T> =
    | WouldBlock
    | Blocks
    | Runs(i: nat, partner: Option<(T, nat)>)

  /** The alternative that completes `a`. */
  function Other<C>(a: Alt<C>): Alt<C> {
    match a
    case Snd(c) => Rcv(c)
    case Rcv(c) => Snd(c)
    case Nop => Nop
  }

  // ---------------------------------------------------------------- one call

  ghost predicate Waits<T, C, E>(s: State<T, C, E>, u: T, j: int, a: Alt<C>) {
    u in s.blocked && 0 <= j < |s.blocked[u]| && s.blocked[u][j] == a
  }

  ghost predicate SomeoneWaits<T, C, E>(s: State<T, C, E>, a: Alt<C>) {
    exists u, j :: u in s.blocked && 0 <= j < |s.blocked[u]| && Waits(s, u, j, a)
  }

  ghost predicate Known<T, C, E>(s: State<T, C, E>, a: Alt<C>) {
    a.Nop? || (a.c in s.cap && a.c in s.buf)
  }

  ghost predicate AllKnown<T, C, E>(s: State<T, C, E>, alts: seq<Alt<C>>) {
    forall i | 0 <= i < |alts| :: Known(s, alts[i])
  }

  ghost predicate CanExec<T, C, E>(s: State<T, C, E>, a: Alt<C>)
    requires Known(s, a)
  {
    && !a.Nop?
    && if s.cap[a.c] == 0 then SomeoneWaits(s, Other(a))
       else if a.Snd? then |s.buf[a.c]| < s.cap[a.c]
       else s.buf[a.c] != []
  }

  /** The outcomes `chanalt` may have: any executable alternative may run, with any
      task waiting for it, and only when there is none does the call block or fail. */
  ghost predicate Chosen<T, C, E>(s: State<T, C, E>, alts: seq<Alt<C>>, canblock: bool, o: Outcome<T>)
    requires AllKnown(s, alts)
  {
    match o
    case WouldBlock => !canblock && forall i | 0 <= i < |alts| :: !CanExec(s, alts[i])
    case Blocks => canblock && forall i | 0 <= i < |alts| :: !CanExec(s, alts[i])
    case Runs(i, None) => i < |alts| && CanExec(s, alts[i]) && !SomeoneWaits(s, Other(alts[i]))
    case Runs(i, Some(p)) => i < |alts| && CanExec(s, alts[i]) && Waits(s, p.0, p.1, Other(alts[i]))
  }

  /** A call always has an outcome, and none where nothing can run but the one that
      `canblock` says. */
  lemma SomeOutcome<T, C, E>(s: State<T, C, E>, alts: seq<Alt<C>>, canblock: bool) returns (o: Outcome<T>)
    requires AllKnown(s, alts)
    ensures Chosen(s, alts, canblock, o)
    ensures !o.Runs? <==> forall i | 0 <= i < |alts| :: !CanExec(s, alts[i])
  {
    if i :| 0 <= i < |alts| && CanExec(s, alts[i]) {
      if SomeoneWaits(s, Other(alts[i])) {
        var u, j :| u in s.blocked && 0 <= j < |s.blocked[u]| && Waits(s, u, j, Other(alts[i]));
        o := Runs(i, Some((u, j)));
      } else {
        o := Runs(i, None);
      }
    } else {
      o := if canblock then Blocks else WouldBlock;
    }
  }

  /** What a call may do is fixed but for the choice of what to run: it runs something exactly
      if something can run, otherwise blocks exactly if it may, and else returns -1. */
  lemma KindOfOutcome<T, C, E>(s: State<T, C, E>, alts: seq<Alt<C>>, canblock: bool, o: Outcome<T>)
    requires AllKnown(s, alts) && Chosen(s, alts, canblock, o)
    ensures o.Runs? <==> exists i :: 0 <= i < |alts| && CanExec(s, alts[i])
    ensures o.Blocks? <==> canblock && forall i | 0 <= i < |alts| :: !CanExec(s, alts[i])
    ensures o.WouldBlock? <==> !canblock && forall i | 0 <= i < |alts| :: !CanExec(s, alts[i])
  {
  }

  /** Who takes part when `a` runs, meeting a waiting task or not. */
  predicate Sends<C>(a: Alt<C>, met: bool) { a.Snd? || (a.Rcv? && met) }

  predicate Receives<C>(a: Alt<C>, met: bool) { a.Rcv? || (a.Snd? && met) }

  /** The queue of a channel once the sender, if there is one, has put in `x`.  The
      receiver, if there is one, takes its first element. */
  function Queue<E>(buf: seq<E>, sends: bool, x: E): seq<E> {
    if sends then buf + [x] else buf
  }

  /** The channel after both parties have moved their data. */
  function AfterMove<E>(buf: seq<E>, sends: bool, receives: bool, x: E): seq<E>
    requires receives ==> Queue(buf, sends, x) != []
  {
    if receives then Queue(buf, sends, x)[1..] else Queue(buf, sends, x)
  }

  lemma RunsMoves<T, C, E>(s: State<T, C, E>, alts: seq<Alt<C>>, canblock: bool, o: Outcome<T>, x: E)
    requires AllKnown(s, alts) && Chosen(s, alts, canblock, o) && o.Runs?
    ensures var a := alts[o.i];
            && !a.Nop?
            && (Receives(a, o.partner.Some?) ==> Queue(s.buf[a.c], Sends(a, o.partner.Some?), x) != [])
  {
  }

  ghost function Apply<T, C, E>(s: State<T, C, E>, t: T, alts: seq<Alt<C>>, canblock: bool, o: Outcome<T>,
                                x: E): State<T, C, E>
    requires AllKnown(s, alts) && Chosen(s, alts, canblock, o)
  {
    match o
    case WouldBlock => s
    case Blocks => s.(blocked := s.blocked[t := alts])
    case Runs(i, p) =>
      var a := alts[i];
      RunsMoves(s, alts, canblock, o, x);
      s.(buf := s.buf[a.c := AfterMove(s.buf[a.c], Sends(a, p.Some?), Receives(a, p.Some?), x)],
         blocked := if p.Some? then s.blocked - {p.value.0} else s.blocked)
  }

  /** One call of `chanalt` by task `t` leads from `s` to `s'`. */
  ghost predicate Steps<T, C, E>(s: State<T, C, E>, t: T, alts: seq<Alt<C>>, canblock: bool, o: Outcome<T>, x: E,
                                 s': State<T, C, E>) {
    AllKnown(s, alts) && Chosen(s, alts, canblock, o) && s' == Apply(s, t, alts, canblock, o, x)
  }

  // -------------------------------------------------------------- invariants

  /** No communication is missed: on a buffered channel nobody waits to receive while
      there is data nor to send while there is room; on an unbuffered channel a waiting
      sender and a waiting receiver are alternatives of the same blocked task. */
  ghost predicate NoMissed<T, C, E>(s: State<T, C, E>)
    requires s.cap.Keys == s.buf.Keys
  {
    && (forall u, j | u in s.blocked && 0 <= j < |s.blocked[u]| :: Satisfied(s, s.blocked[u][j]))
    && (forall u, j, v, k | u in s.blocked && 0 <= j < |s.blocked[u]| && v in s.blocked && 0 <= k < |s.blocked[v]| ::
          u != v ==> !Rendezvous(s, s.blocked[u][j], s.blocked[v][k]))
  }

  /** A waiting alternative on a buffered channel really has to wait. */
  ghost predicate Satisfied<T, C, E>(s: State<T, C, E>, a: Alt<C>)
    requires s.cap.Keys == s.buf.Keys
  {
    !a.Nop? && a.c in s.cap && s.cap[a.c] > 0 ==>
      if a.Snd? then |s.buf[a.c]| == s.cap[a.c] else s.buf[a.c] == []
  }

  /** A sender and a receiver that could meet on an unbuffered channel. */
  ghost predicate Rendezvous<T, C, E>(s: State<T, C, E>, a: Alt<C>, b: Alt<C>) {
    a.Snd? && b == Other(a) && a.c in s.cap && s.cap[a.c] == 0
  }

  ghost predicate Inv<T, C, E>(s: State<T, C, E>) {
    && s.cap.Keys == s.buf.Keys
    && (forall c | c in s.cap :: |s.buf[c]| <= s.cap[c])
    && (forall u | u in s.blocked :: AllKnown(s, s.blocked[u]))
    && NoMissed(s)
  }

  lemma WaiterSatisfied<T, C, E>(s: State<T, C, E>, u: T, j: nat)
    requires Inv(s) && u in s.blocked && j < |s.blocked[u]|
    ensures s.cap.Keys == s.buf.Keys && Satisfied(s, s.blocked[u][j])
  {
  }

  lemma WaitersApart<T, C, E>(s: State<T, C, E>, u: T, j: nat, v: T, k: nat)
    requires Inv(s) && u in s.blocked && j < |s.blocked[u]| && v in s.blocked && k < |s.blocked[v]| && u != v
    ensures !Rendezvous(s, s.blocked[u][j], s.blocked[v][k])
  {
  }

  /** Who may call: a task that is not blocked, with channels that exist. */
  ghost predicate MayCall<T, C, E>(s: State<T, C, E>, t: T, alts: seq<Alt<C>>) {
    t !in s.blocked && AllKnown(s, alts)
  }

  lemma BlockingKeepsNoMissed<T, C, E>(s: State<T, C, E>, t: T, alts: seq<Alt<C>>, s': State<T, C, E>)
    requires Inv(s) && MayCall(s, t, alts)
    requires forall i | 0 <= i < |alts| :: !CanExec(s, alts[i])
    requires s' == s.(blocked := s.blocked[t := alts])
    ensures NoMissed(s')
  {
    forall u, j, v, k | u in s'.blocked && 0 <= j < |s'.blocked[u]|
                        && v in s'.blocked && 0 <= k < |s'.blocked[v]| && u != v
      ensures !Rendezvous(s', s'.blocked[u][j], s'.blocked[v][k])
    {
      var a, b := s'.blocked[u][j], s'.blocked[v][k];
      if u == t && Rendezvous(s', a, b) {
        assert Waits(s, v, k, Other(alts[j]));
      } else if v == t && Rendezvous(s', a, b) {
        assert Waits(s, u, j, Other(alts[k]));
      }
    }
    forall u, j | u in s'.blocked && 0 <= j < |s'.blocked[u]|
      ensures Satisfied(s', s'.blocked[u][j])
    {
      if u == t {
        assert !CanExec(s, alts[j]);
      } else {
        assert Satisfied(s, s.blocked[u][j]);
      }
    }
  }

  /** Moving data on a channel never strands a task that still waits there. */
  lemma RunningKeepsSatisfied<T, C, E>(s: State<T, C, E>, alts: seq<Alt<C>>, canblock: bool, o: Outcome<T>, x: E,
                                       b: Alt<C>, u: T, j: int)
    requires Inv(s) && AllKnown(s, alts) && Chosen(s, alts, canblock, o) && o.Runs?
    requires Waits(s, u, j, b)
    ensures var a := alts[o.i];
            !b.Nop? && b.c == a.c && s.cap[a.c] > 0 ==>
              && (Receives(a, o.partner.Some?) ==> Queue(s.buf[a.c], Sends(a, o.partner.Some?), x) != [])
              && var q := AfterMove(s.buf[a.c], Sends(a, o.partner.Some?), Receives(a, o.partner.Some?), x);
                 if b.Snd? then |q| == s.cap[a.c] else q == []
  {
    var a := alts[o.i];
    if !b.Nop? && b.c == a.c && s.cap[a.c] > 0 {
      assert Satisfied(s, s.blocked[u][j]);
      match o.partner
      case Some(p) => assert Satisfied(s, s.blocked[p.0][p.1]);
      case None =>
        // impossible: `b` cannot be `Other(a)`, for which nobody waits, and a task that
        // waits on the side of `a` says that `a` cannot be executed
    }
  }

  /** Every call keeps the invariant, whatever the random choices are. */
  lemma CallKeepsInv<T, C, E>(s: State<T, C, E>, t: T, alts: seq<Alt<C>>, canblock: bool, o: Outcome<T>, x: E)
    requires Inv(s) && MayCall(s, t, alts) && Chosen(s, alts, canblock, o)
    ensures Inv(Apply(s, t, alts, canblock, o, x))
  {
    var s' := Apply(s, t, alts, canblock, o, x);
    match o
    case WouldBlock =>
    case Blocks =>
      BlockingKeepsNoMissed(s, t, alts, s');
    case Runs(i, p) =>
      var a := alts[i];
      assert |s'.buf[a.c]| <= s.cap[a.c] by { RunStaysInCapacity(s, alts, canblock, o, x); }
      forall u, j | u in s'.blocked && 0 <= j < |s'.blocked[u]|
        ensures Satisfied(s', s'.blocked[u][j])
      {
        assert Waits(s, u, j, s.blocked[u][j]);
        assert Satisfied(s, s.blocked[u][j]);
        RunningKeepsSatisfied(s, alts, canblock, o, x, s.blocked[u][j], u, j);
      }
      forall u, j, v, k | u in s'.blocked && 0 <= j < |s'.blocked[u]|
                          && v in s'.blocked && 0 <= k < |s'.blocked[v]| && u != v
        ensures !Rendezvous(s', s'.blocked[u][j], s'.blocked[v][k])
      {
        assert !Rendezvous(s, s.blocked[u][j], s.blocked[v][k]);
      }
      forall u | u in s'.blocked ensures AllKnown(s', s'.blocked[u]) {
        assert AllKnown(s, s.blocked[u]);
      }
  }

  /** `chancreate`: a new, empty channel */
  lemma NewChannelKeepsInv<T, C, E>(s: State<T, C, E>, c: C, size: nat)
    requires Inv(s) && c !in s.cap
    ensures Inv(s.(cap := s.cap[c := size], buf := s.buf[c := []]))
  {
    var s' := s.(cap := s.cap[c := size], buf := s.buf[c := []]);
    forall u | u in s.blocked ensures AllKnown(s', s.blocked[u]) {
      assert AllKnown(s, s.blocked[u]);
    }
    forall u, j | u in s.blocked && 0 <= j < |s.blocked[u]| ensures Satisfied(s', s.blocked[u][j]) {
      assert Known(s, s.blocked[u][j]) && Satisfied(s, s.blocked[u][j]);
    }
    forall u, j, v, k | u in s.blocked && 0 <= j < |s.blocked[u]| && v in s.blocked && 0 <= k < |s.blocked[v]| && u != v
      ensures !Rendezvous(s', s.blocked[u][j], s.blocked[v][k])
    {
      assert Known(s, s.blocked[u][j]) && !Rendezvous(s, s.blocked[u][j], s.blocked[v][k]);
    }
  }

  lemma StepKeepsInv<T, C, E>(s: State<T, C, E>, t: T, alts: seq<Alt<C>>, canblock: bool, o: Outcome<T>, x: E,
                              s': State<T, C, E>)
    requires Inv(s) && t !in s.blocked && Steps(s, t, alts, canblock, o, x, s')
    ensures Inv(s')
  {
    CallKeepsInv(s, t, alts, canblock, o, x);
  }

  /** `nbuf` neither underflows nor passes `bufsize`. */
  lemma RunStaysInCapacity<T, C, E>(s: State<T, C, E>, alts: seq<Alt<C>>, canblock: bool, o: Outcome<T>, x: E)
    requires Inv(s) && AllKnown(s, alts) && Chosen(s, alts, canblock, o) && o.Runs?
    ensures var a := alts[o.i];
            && (Receives(a, o.partner.Some?) ==> Queue(s.buf[a.c], Sends(a, o.partner.Some?), x) != [])
            && |AfterMove(s.buf[a.c], Sends(a, o.partner.Some?), Receives(a, o.partner.Some?), x)| <= s.cap[a.c]
  {
  }

  /** The three players of a copy: with a partner the channel is either empty (and the
      data goes straight across) or, when a waiting sender is the partner, full. */
  lemma PartnerMeetsEmptyOrFull<T, C, E>(s: State<T, C, E>, alts: seq<Alt<C>>, canblock: bool, o: Outcome<T>)
    requires Inv(s) && AllKnown(s, alts) && Chosen(s, alts, canblock, o) && o.Runs?
    ensures var a := alts[o.i];
            && (o.partner.None? ==> s.cap[a.c] > 0)
            && (o.partner.Some? && a.Snd? ==> s.buf[a.c] == [])
            && (o.partner.Some? && a.Rcv? ==> |s.buf[a.c]| == s.cap[a.c])
  {
    match o.partner
    case Some(p) => assert Satisfied(s, s.blocked[p.0][p.1]);
    case None =>
  }

  // -------------------------------------------------------------------- runs

  /** What happens in a run: a call of `chanalt` with its outcome and, if there is a sender,
      the element `x` that it commits; or a call of `chancreate`. */
  datatype Event<T, C, E> =
    | Call(t: T, alts: seq<Alt<C>>, canblock: bool, o: Outcome<T>, x: E)
    | New(c: C, size: nat)

  ghost predicate Happens<T, C, E>(s: State<T, C, E>, e: Event<T, C, E>) {
    match e
    case Call(t, alts, canblock, o, x) => MayCall(s, t, alts) && Chosen(s, alts, canblock, o)
    case New(c, size) => c !in s.cap
  }

  ghost function After<T, C, E>(s: State<T, C, E>, e: Event<T, C, E>): State<T, C, E>
    requires Happens(s, e)
  {
    match e
    case Call(t, alts, canblock, o, x) => Apply(s, t, alts, canblock, o, x)
    case New(c, size) => s.(cap := s.cap[c := size], buf := s.buf[c := []])
  }

  ghost predicate Run<T, C, E>(s: State<T, C, E>, events: seq<Event<T, C, E>>)
    decreases |events|
  {
    events != [] ==> Happens(s, events[0]) && Run(After(s, events[0]), events[1..])
  }

  ghost function Final<T, C, E>(s: State<T, C, E>, events: seq<Event<T, C, E>>): State<T, C, E>
    requires Run(s, events)
    decreases |events|
  {
    if events == [] then s else Final(After(s, events[0]), events[1..])
  }

  lemma EventKeepsInv<T, C, E>(s: State<T, C, E>, e: Event<T, C, E>)
    requires Inv(s) && Happens(s, e)
    ensures Inv(After(s, e))
  {
    match e
    case Call(t, alts, canblock, o, x) => CallKeepsInv(s, t, alts, canblock, o, x);
    case New(c, size) => NewChannelKeepsInv(s, c, size);
  }

  lemma {:induction false} RunKeepsInv<T, C, E>(s: State<T, C, E>, events: seq<Event<T, C, E>>)
    requires Inv(s) && Run(s, events)
    ensures Inv(Final(s, events))
    decreases |events|
  {
    if events != [] {
      EventKeepsInv(s, events[0]);
      RunKeepsInv(After(s, events[0]), events[1..]);
    }
  }

  /** A channel has the capacity it is created with, for ever. */
  lemma EventKeepsCapacity<T, C, E>(s: State<T, C, E>, e: Event<T, C, E>, c: C)
    requires s.cap.Keys == s.buf.Keys && Happens(s, e)
    ensures After(s, e).cap.Keys == After(s, e).buf.Keys
    ensures c in After(s, e).cap <==> c in s.cap || (e.New? && e.c == c)
    ensures c in s.cap ==> After(s, e).cap[c] == s.cap[c]
    ensures e.New? && e.c == c ==> After(s, e).cap[c] == e.size && After(s, e).buf[c] == []
  {
    if e.Call? && e.o.Runs? { RunsMoves(s, e.alts, e.canblock, e.o, e.x); }
  }

  lemma {:induction false} RunKeepsCapacity<T, C, E>(s: State<T, C, E>, events: seq<Event<T, C, E>>, c: C)
    requires s.cap.Keys == s.buf.Keys && Run(s, events) && c in s.cap
    ensures c in Final(s, events).cap && Final(s, events).cap[c] == s.cap[c]
    decreases |events|
  {
    if events != [] {
      EventKeepsCapacity(s, events[0], c);
      RunKeepsCapacity(After(s, events[0]), events[1..], c);
    }
  }

  /** A communication: with a partner or without, on channel `c`. */
  ghost predicate Moves<T, C, E>(e: Event<T, C, E>, c: C) {
    e.Call? && e.o.Runs? && e.o.i < |e.alts| && !e.alts[e.o.i].Nop? && e.alts[e.o.i].c == c
  }

  ghost predicate SendsIn<T, C, E>(e: Event<T, C, E>, c: C) {
    Moves(e, c) && Sends(e.alts[e.o.i], e.o.partner.Some?)
  }

  ghost predicate ReceivesIn<T, C, E>(e: Event<T, C, E>, c: C) {
    Moves(e, c) && Receives(e.alts[e.o.i], e.o.partner.Some?)
  }

  /** What an event commits to channel `c`. */
  ghost function SentBy<T, C, E>(e: Event<T, C, E>, c: C): seq<E> {
    if SendsIn(e, c) then [e.x] else []
  }

  /** What an event takes out of channel `c`. */
  ghost function ReceivedBy<T, C, E>(s: State<T, C, E>, e: Event<T, C, E>, c: C): seq<E>
    requires Happens(s, e)
  {
    if ReceivesIn(e, c) then
      RunsMoves(s, e.alts, e.canblock, e.o, e.x);
      [Queue(s.buf[c], SendsIn(e, c), e.x)[0]]
    else []
  }

  ghost function AllSent<T, C, E>(s: State<T, C, E>, events: seq<Event<T, C, E>>, c: C): seq<E>
    requires Run(s, events)
    decreases |events|
  {
    if events == [] then [] else SentBy(events[0], c) + AllSent(After(s, events[0]), events[1..], c)
  }

  ghost function AllReceived<T, C, E>(s: State<T, C, E>, events: seq<Event<T, C, E>>, c: C): seq<E>
    requires Run(s, events)
    decreases |events|
  {
    if events == [] then [] else ReceivedBy(s, events[0], c) + AllReceived(After(s, events[0]), events[1..], c)
  }

  /** What a channel holds; nothing before it is created. */
  ghost function Held<T, C, E>(s: State<T, C, E>, c: C): seq<E> {
    if c in s.buf then s.buf[c] else []
  }

  lemma EventIsFifo<T, C, E>(s: State<T, C, E>, e: Event<T, C, E>, c: C)
    requires s.cap.Keys == s.buf.Keys && Happens(s, e)
    ensures After(s, e).cap.Keys == After(s, e).buf.Keys
    ensures Held(s, c) + SentBy(e, c) == ReceivedBy(s, e, c) + Held(After(s, e), c)
  {
    if Moves(e, c) {
      RunsMoves(s, e.alts, e.canblock, e.o, e.x);
      var q := Queue(s.buf[c], SendsIn(e, c), e.x);
      assert s.buf[c] + SentBy(e, c) == q;
      if ReceivesIn(e, c) {
        assert q == [q[0]] + q[1..];
      }
    } else if e.Call? && e.o.Runs? {
      RunsMoves(s, e.alts, e.canblock, e.o, e.x);
    }
  }

  lemma Splice<E>(b0: seq<E>, s0: seq<E>, s1: seq<E>, r0: seq<E>, b1: seq<E>, r1: seq<E>, b2: seq<E>)
    requires b0 + s0 == r0 + b1 && b1 + s1 == r1 + b2
    ensures b0 + (s0 + s1) == (r0 + r1) + b2
  {
    assert b0 + (s0 + s1) == (b0 + s0) + s1;
    assert (r0 + b1) + s1 == r0 + (b1 + s1);
    assert r0 + (r1 + b2) == (r0 + r1) + b2;
  }

  /** Over any run a channel is a FIFO queue: what was in it followed by what was
      committed to it is what was received followed by what it still holds. */
  lemma {:induction false} RunIsFifo<T, C, E>(s: State<T, C, E>, events: seq<Event<T, C, E>>, c: C)
    requires s.cap.Keys == s.buf.Keys && Run(s, events)
    ensures Held(s, c) + AllSent(s, events, c) == AllReceived(s, events, c) + Held(Final(s, events), c)
    decreases |events|
  {
    if events != [] {
      var e, rest := events[0], events[1..];
      var s1 := After(s, e);
      EventIsFifo(s, e, c);
      RunIsFifo(s1, rest, c);
      Splice(Held(s, c), SentBy(e, c), AllSent(s1, rest, c), ReceivedBy(s, e, c), Held(s1, c),
             AllReceived(s1, rest, c), Held(Final(s1, rest), c));
    }
  }

  // ------------------------------------------------------- blocking and waking

  ghost predicate BlocksTask<T, C, E>(e: Event<T, C, E>, t: T) {
    e.Call? && e.o.Blocks? && e.t == t
  }

  ghost predicate WakesTask<T, C, E>(e: Event<T, C, E>, t: T) {
    e.Call? && e.o.Runs? && e.o.partner.Some? && e.o.partner.value.0 == t
  }

  ghost function BlocksOf<T, C, E>(events: seq<Event<T, C, E>>, t: T): nat
    decreases |events|
  {
    if events == [] then 0 else (if BlocksTask(events[0], t) then 1 else 0) + BlocksOf(events[1..], t)
  }

  ghost function WakesOf<T, C, E>(events: seq<Event<T, C, E>>, t: T): nat
    decreases |events|
  {
    if events == [] then 0 else (if WakesTask(events[0], t) then 1 else 0) + WakesOf(events[1..], t)
  }

  function Bit(b: bool): nat { if b then 1 else 0 }

  /** A task is woken exactly once for every time it blocked, except that the last
      time may still be outstanding. */
  lemma {:induction false} WokenOncePerBlock<T, C, E>(s: State<T, C, E>, events: seq<Event<T, C, E>>, t: T)
    requires Run(s, events)
    ensures Bit(t in s.blocked) + BlocksOf(events, t) == WakesOf(events, t) + Bit(t in Final(s, events).blocked)
    decreases |events|
  {
    if events != [] {
      WokenOncePerBlock(After(s, events[0]), events[1..], t);
    }
  }

  /** While a task stays blocked its alternatives stay as it offered them, and the call
      that wakes it completes exactly one of them. */
  lemma {:induction false} WokenByItsOwnAlternative<T, C, E>(s: State<T, C, E>, events: seq<Event<T, C, E>>, t: T,
                                                             k: nat)
    requires Run(s, events) && t in s.blocked && k < |events|
    requires WakesOf(events[..k], t) == 0 && WakesTask(events[k], t)
    ensures var e := events[k];
            && e.o.i < |e.alts| && e.o.partner.value.1 < |s.blocked[t]|
            && s.blocked[t][e.o.partner.value.1] == Other(e.alts[e.o.i])
            && !e.alts[e.o.i].Nop?
            && e.t != t
    decreases |events|
  {
    if k > 0 {
      assert events[..k][1..] == events[1..][..k-1];
      WokenByItsOwnAlternative(After(s, events[0]), events[1..], t, k - 1);
    }
  }
}
