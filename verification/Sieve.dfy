/** The concurrent prime sieve of primes.c, on the channels of `Alternation`.

    Task 0 is `taskmain`; task `k + 1` is the `primetask` that receives from channel `k`
    and sends to channel `k + 1`.  Any task that is not blocked may run next. */
module Sieve {
  import opened Options
  import opened Alternation
  import opened Primes

  /** How far a `primetask` is. */
  datatype Stage =
    | First                      // about to receive its prime, or blocked there
    | HaveFirst(v: nat)          // has received it
    | Loop(p: nat)               // about to receive the next number, or blocked there
    | Have(p: nat, i: nat)       // has received it
    | Sending(p: nat, i: nat)    // about to send it on, or blocked there

  /** `sent` and `rcvd` record all that went into and came out of each channel. */
  datatype Sys = Sys(
    ch: State<nat, nat, nat>,
    next: nat,
    stages: seq<Stage>,
    printed: seq<nat>,
    sent: seq<seq<nat>>,
    rcvd: seq<seq<nat>>,
    done: bool)

  /** `taskmain` has created the first channel and the first `primetask`. */
  ghost function Start(buffer: nat): Sys {
    Sys(State(map[0 := buffer], map[0 := []], map[]), 2, [First], [], [[]], [[]], false)
  }

  /** The channel operation that task `t` is at, if any */
  ghost function Offer(s: Sys, t: nat): Alt<nat> {
    if t == 0 then Snd(0)
    else if t > |s.stages| then Nop
    else match s.stages[t - 1]
         case First => Rcv(t - 1)
         case Loop(p) => Rcv(t - 1)
         case Sending(p, i) => Snd(t)
         case _ => Nop
  }

  /** The number task `t` is sending */
  ghost function Value(s: Sys, t: nat): nat {
    if t == 0 then s.next
    else if 0 < t <= |s.stages| && s.stages[t - 1].Sending? then s.stages[t - 1].i
    else 0
  }

  /** The send of task `t` has been completed, by itself or by the receiver. */
  ghost function Sent(s: Sys, t: nat): Sys {
    if t >= |s.sent| then s
    else
      var s1 := s.(sent := s.sent[t := s.sent[t] + [Value(s, t)]]);
      if t == 0 then s1.(next := s.next + 1)
      else if t <= |s.stages| && s.stages[t - 1].Sending? then s1.(stages := s.stages[t - 1 := Loop(s.stages[t - 1].p)])
      else s1
  }

  /** The receive of task `t` has been completed with `w`. */
  ghost function Received(s: Sys, t: nat, w: nat): Sys {
    if t == 0 || t > |s.rcvd| || t > |s.stages| then s
    else
      s.(rcvd := s.rcvd[t - 1 := s.rcvd[t - 1] + [w]],
         stages := s.stages[t - 1 :=
           match s.stages[t - 1]
           case First => HaveFirst(w)
           case Loop(p) => Have(p, w)
           case other => other])
  }

  /** What a `primetask` does between two channel operations */
  ghost function Local(s: Sys, t: nat, goal: int, buffer: nat): Sys
    requires 0 < t <= |s.stages|
  {
    match s.stages[t - 1]
    case HaveFirst(v) =>
      if v > goal then s.(done := true)
      else
        var c := |s.stages|;
        s.(printed := s.printed + [v],
           stages := s.stages[t - 1 := Loop(v)] + [First],
           sent := s.sent + [[]], rcvd := s.rcvd + [[]],
           ch := s.ch.(cap := s.ch.cap[c := buffer], buf := s.ch.buf[c := []]))
    case Have(p, i) =>
      s.(stages := s.stages[t - 1 := if p > 0 && i % p != 0 then Sending(p, i) else Loop(p)])
    case _ => s
  }

  /** Who sends and who receives when `t` runs its operation with outcome `o` */
  ghost function Sender(s: Sys, t: nat, o: Outcome<nat>): Option<nat> {
    if !o.Runs? then None
    else if Offer(s, t).Snd? then Some(t)
    else if o.partner.Some? then Some(o.partner.value.0)
    else None
  }

  ghost function Receiver(s: Sys, t: nat, o: Outcome<nat>): Option<nat> {
    if !o.Runs? then None
    else if Offer(s, t).Rcv? then Some(t)
    else if o.partner.Some? then Some(o.partner.value.0)
    else None
  }

  ghost predicate Enabled(s: Sys, t: nat, o: Outcome<nat>) {
    && !s.done && t <= |s.stages| && t !in s.ch.blocked
    && if Offer(s, t).Nop? then o == Blocks
       else AllKnown(s.ch, [Offer(s, t)]) && Chosen(s.ch, [Offer(s, t)], true, o)
  }

  /** Task `t` runs its channel operation. */
  ghost function Operate(s: Sys, t: nat, o: Outcome<nat>): Sys
    requires Enabled(s, t, o) && !Offer(s, t).Nop?
  {
    var a, snd, rcv := Offer(s, t), Sender(s, t, o), Receiver(s, t, o);
    var x := if snd.Some? then Value(s, snd.value) else 0;
    var s0 := s.(ch := Apply(s.ch, t, [a], true, o, x));
    var s1 := if snd.Some? then Sent(s0, snd.value) else s0;
    if rcv.Some? then
      RunsMoves(s.ch, [a], true, o, x);
      Received(s1, rcv.value, Queue(s.ch.buf[a.c], snd.Some?, x)[0])
    else s1
  }

  /** Task `t` runs up to or through its next channel operation. */
  ghost function Do(s: Sys, t: nat, o: Outcome<nat>, goal: int, buffer: nat): Sys
    requires Enabled(s, t, o)
  {
    if Offer(s, t).Nop? then Local(s, t, goal, buffer) else Operate(s, t, o)
  }

  // -------------------------------------------------------------- invariant

  /** What a stage has received and passed on so far */
  ghost predicate StageOk(s: Sys, k: nat)
    requires k < |s.stages| == |s.sent| == |s.rcvd|
  {
    var n, q := |s.stages|, s.rcvd[k];
    match s.stages[k]
    case First => k == n - 1 && q == []
    case HaveFirst(v) => k == n - 1 && q == [v]
    case Loop(p) => k < n - 1 && p > 0 && q != [] && q[0] == p && s.sent[k + 1] == Filter(q, p)
    case Have(p, i) =>
      k < n - 1 && p > 0 && |q| > 1 && q[0] == p && q[|q| - 1] == i && s.sent[k + 1] == Filter(q[..|q| - 1], p)
    case Sending(p, i) =>
      && k < n - 1 && p > 0 && |q| > 1 && q[0] == p && q[|q| - 1] == i
      && s.sent[k + 1] == Filter(q[..|q| - 1], p) && i % p != 0
  }

  ghost predicate Tasks(s: Sys, goal: int) {
    && |s.stages| == |s.sent| == |s.rcvd| == |s.printed| + 1
    && s.next >= 2 && s.sent[0] == Ints(s.next)
    && (forall k | 0 <= k < |s.stages| :: StageOk(s, k))
    && (forall k | 0 <= k < |s.printed| :: s.rcvd[k] != [] && s.printed[k] == s.rcvd[k][0] && s.printed[k] <= goal)
  }

  ghost predicate Channels(s: Sys, buffer: nat) {
    && Inv(s.ch)
    && (forall c: nat :: c in s.ch.cap <==> c < |s.stages|)
    && (forall c | c in s.ch.cap :: s.ch.cap[c] == buffer)
    && |s.sent| == |s.rcvd| == |s.stages|
    && (forall c | c in s.ch.buf :: c < |s.sent| && s.sent[c] == s.rcvd[c] + s.ch.buf[c])
  }

  /** A blocked task waits in the operation it is at. */
  ghost predicate Blocked(s: Sys) {
    forall u | u in s.ch.blocked :: u <= |s.stages| && !Offer(s, u).Nop? && s.ch.blocked[u] == [Offer(s, u)]
  }

  ghost predicate SieveInv(s: Sys, goal: int, buffer: nat) {
    Tasks(s, goal) && Channels(s, buffer) && Blocked(s)
  }

  // ---------------------------------------------------------- what is printed

  /** A stage hands on the part of its stream that its prime does not divide. */
  lemma NextStream(s: Sys, goal: int, k: nat)
    requires Tasks(s, goal) && k + 1 < |s.stages| && Stream(s.rcvd[k], s.printed[..k])
    ensures Stream(s.sent[k + 1], s.printed[..k + 1])
  {
    hide Stream;
    var q, p := s.rcvd[k], s.printed[k];
    assert StageOk(s, k);
    if s.stages[k].Loop? {
      FilterStream(q, s.printed[..k], p);
    } else {
      StreamPrefix(q, s.printed[..k], |q| - 1);
      FilterStream(q[..|q| - 1], s.printed[..k], p);
    }
    assert s.printed[..k + 1] == s.printed[..k] + [p];
  }

  lemma ReceivedStream(s: Sys, buffer: nat, k: nat, ps: seq<nat>)
    requires Channels(s, buffer) && k < |s.stages| && Stream(s.sent[k], ps)
    ensures Stream(s.rcvd[k], ps) && s.rcvd[k] <= s.sent[k]
  {
    hide Stream, NoMissed;
    assert k in s.ch.cap;
    assert s.rcvd[k] == s.sent[k][..|s.rcvd[k]|];
    StreamPrefix(s.sent[k], ps, |s.rcvd[k]|);
  }

  /** Each channel carries the numbers from 2 that the primes before it do not divide. */
  lemma {:induction false} Streams(s: Sys, goal: int, buffer: nat, k: nat)
    requires Tasks(s, goal) && Channels(s, buffer) && k < |s.stages|
    ensures Stream(s.sent[k], s.printed[..k]) && Stream(s.rcvd[k], s.printed[..k])
  {
    hide Stream, StageOk, Channels;
    if k == 0 {
      IntsStream(s.next);
    } else {
      Streams(s, goal, buffer, k - 1);
      NextStream(s, goal, k - 1);
    }
    ReceivedStream(s, buffer, k, s.printed[..k]);
  }

  /** The numbers printed so far are the first primes, in order. */
  lemma {:induction false} PrintedPrimes(s: Sys, goal: int, buffer: nat, k: nat)
    requires Tasks(s, goal) && Channels(s, buffer) && k <= |s.printed|
    ensures FirstPrimes(s.printed[..k])
  {
    if k > 0 {
      PrintedPrimes(s, goal, buffer, k - 1);
      Streams(s, goal, buffer, k - 1);
      assert StageOk(s, k - 1);
      HeadIsNextPrime(s.rcvd[k - 1], s.printed[..k - 1]);
      assert s.printed[..k] == s.printed[..k - 1] + [s.rcvd[k - 1][0]];
    }
  }

  // ------------------------------------------------------------ every step

  lemma SentKeepsTasks(s: Sys, t: nat, goal: int)
    requires Tasks(s, goal) && Offer(s, t).Snd?
    ensures var s' := Sent(s, t);
            && Tasks(s', goal) && t < |s.sent|
            && s'.sent == s.sent[t := s.sent[t] + [Value(s, t)]] && s'.rcvd == s.rcvd
            && !Offer(s', t).Nop?
            && forall u | u != t :: Offer(s', u) == Offer(s, u)
  {
    hide Ints, Filter;
    if t == 0 {
      IntsStream(s.next);
    } else {
      assert StageOk(s, t - 1);
      var q, p, i := s.rcvd[t - 1], s.stages[t - 1].p, s.stages[t - 1].i;
      FilterMore(q[..|q| - 1], i, p);
      assert q == q[..|q| - 1] + [i];
    }
    var s' := Sent(s, t);
    forall k | 0 <= k < |s'.stages| ensures StageOk(s', k) {
      assert StageOk(s, k);
    }
  }

  lemma ReceivedKeepsTasks(s: Sys, t: nat, w: nat, goal: int)
    requires Tasks(s, goal) && Offer(s, t).Rcv?
    ensures var s' := Received(s, t, w);
            && Tasks(s', goal) && 0 < t <= |s.rcvd|
            && s'.rcvd == s.rcvd[t - 1 := s.rcvd[t - 1] + [w]] && s'.sent == s.sent
            && Offer(s', t).Nop?
            && forall u | u != t :: Offer(s', u) == Offer(s, u)
  {
    var s' := Received(s, t, w);
    var q := s.rcvd[t - 1];
    assert (q + [w])[..|q + [w]| - 1] == q;
    forall k | 0 <= k < |s'.stages| ensures StageOk(s', k) {
      assert StageOk(s, k);
    }
    forall k | 0 <= k < |s'.printed| ensures s'.rcvd[k] != [] && s'.printed[k] == s'.rcvd[k][0] {
      assert StageOk(s, k);
    }
  }

  /** A stage has looked at a number. */
  lemma ExamineKeeps(s: Sys, t: nat, goal: int, buffer: nat)
    requires SieveInv(s, goal, buffer) && t !in s.ch.blocked && 0 < t <= |s.stages| && s.stages[t - 1].Have?
    ensures SieveInv(Local(s, t, goal, buffer), goal, buffer)
  {
    ExamineKeepsTasks(s, t, goal, buffer);
    ExamineKeepsOffers(s, t, goal, buffer);
    hide Tasks, Blocked, Inv;
  }

  lemma ExamineKeepsTasks(s: Sys, t: nat, goal: int, buffer: nat)
    requires Tasks(s, goal) && 0 < t <= |s.stages| && s.stages[t - 1].Have?
    ensures Tasks(Local(s, t, goal, buffer), goal)
  {
    hide Filter, Ints;
    var s' := Local(s, t, goal, buffer);
    var q, p, i := s.rcvd[t - 1], s.stages[t - 1].p, s.stages[t - 1].i;
    assert StageOk(s, t - 1);
    FilterMore(q[..|q| - 1], i, p);
    assert q == q[..|q| - 1] + [i];
    forall k | 0 <= k < |s'.stages| ensures StageOk(s', k) {
      assert StageOk(s, k);
    }
  }

  lemma ExamineKeepsOffers(s: Sys, t: nat, goal: int, buffer: nat)
    requires Blocked(s) && t !in s.ch.blocked && 0 < t <= |s.stages| && s.stages[t - 1].Have?
    ensures Blocked(Local(s, t, goal, buffer))
  {
    var s' := Local(s, t, goal, buffer);
    assert forall u | u != t :: Offer(s', u) == Offer(s, u);
  }

  lemma FirstIsPositive(s: Sys, k: nat, goal: int, buffer: nat)
    requires Tasks(s, goal) && Channels(s, buffer) && k < |s.stages| && s.rcvd[k] != []
    ensures s.rcvd[k][0] >= 2
  {
    Streams(s, goal, buffer, k);
  }

  /** A stage has found its prime and made the next stage. */
  lemma FoundKeepsTasks(s: Sys, t: nat, goal: int, buffer: nat)
    requires SieveInv(s, goal, buffer) && 0 < t <= |s.stages| && s.stages[t - 1].HaveFirst? && s.stages[t - 1].v <= goal
    ensures Tasks(Local(s, t, goal, buffer), goal)
  {
    hide Channels, Blocked;
    var s', v := Local(s, t, goal, buffer), s.stages[t - 1].v;
    assert StageOk(s, t - 1);
    FirstIsPositive(s, t - 1, goal, buffer);
    FilterMore([], v, v);
    assert [] + [v] == [v];
    forall k | 0 <= k < |s'.stages| ensures StageOk(s', k) {
      if k < |s.stages| { assert StageOk(s, k); }
    }
  }

  lemma FoundKeepsChannels(s: Sys, t: nat, goal: int, buffer: nat)
    requires SieveInv(s, goal, buffer) && t !in s.ch.blocked
    requires 0 < t <= |s.stages| && s.stages[t - 1].HaveFirst? && s.stages[t - 1].v <= goal
    ensures var s' := Local(s, t, goal, buffer);
            Channels(s', buffer) && Blocked(s')
  {
    hide Inv, StageOk;
    var s', n := Local(s, t, goal, buffer), |s.stages|;
    NewChannelKeepsInv(s.ch, n, buffer);
    assert s.ch.cap.Keys == s.ch.buf.Keys by { KnownBuffers(s.ch); }
    assert forall u: nat | u <= n && u != t :: Offer(s', u) == Offer(s, u);
  }

  lemma KnownBuffers(ch: State<nat, nat, nat>)
    requires Inv(ch)
    ensures ch.cap.Keys == ch.buf.Keys
  {
  }

  lemma LocalKeeps(s: Sys, t: nat, goal: int, buffer: nat)
    requires SieveInv(s, goal, buffer) && t !in s.ch.blocked && 0 < t <= |s.stages|
    ensures SieveInv(Local(s, t, goal, buffer), goal, buffer)
  {
    match s.stages[t - 1]
    case HaveFirst(v) =>
      if v <= goal {
        FoundKeepsTasks(s, t, goal, buffer);
        FoundKeepsChannels(s, t, goal, buffer);
      } else {
        DoneKeeps(s, goal, buffer);
      }
    case Have(p, i) => ExamineKeeps(s, t, goal, buffer);
    case _ =>
  }

  lemma DoneKeeps(s: Sys, goal: int, buffer: nat)
    requires SieveInv(s, goal, buffer)
    ensures SieveInv(s.(done := true), goal, buffer)
  {
    var s' := s.(done := true);
    assert forall k | 0 <= k < |s.stages| :: StageOk(s', k) == StageOk(s, k);
    assert forall u :: Offer(s', u) == Offer(s, u);
  }

  /** Channel `c` is used by tasks `c` and `c + 1` only. */
  lemma Parties(s: Sys, t: nat, o: Outcome<nat>)
    requires Blocked(s) && Enabled(s, t, o) && !Offer(s, t).Nop? && o.Runs?
    ensures var c, snd, rcv := Offer(s, t).c, Sender(s, t, o), Receiver(s, t, o);
            && (snd.Some? ==> snd.value == c && Offer(s, c) == Snd(c))
            && (rcv.Some? ==> rcv.value == c + 1 && Offer(s, c + 1) == Rcv(c))
            && (snd.Some? <==> Sends(Offer(s, t), o.partner.Some?))
            && (rcv.Some? <==> Receives(Offer(s, t), o.partner.Some?))
  {
  }

  /** What the tasks have done so far does not depend on the channels' insides. */
  lemma ChannelsApart(s: Sys, ch: State<nat, nat, nat>, goal: int)
    requires Tasks(s, goal)
    ensures Tasks(s.(ch := ch), goal) && forall u: nat :: Offer(s.(ch := ch), u) == Offer(s, u)
  {
    var s' := s.(ch := ch);
    assert forall k | 0 <= k < |s.stages| :: StageOk(s', k) == StageOk(s, k);
  }

  /** An operation in terms of its channel: task `c` sends and task `c + 1` receives. */
  lemma OperateOnChannel(s: Sys, t: nat, o: Outcome<nat>)
    requires Blocked(s) && Enabled(s, t, o) && !Offer(s, t).Nop? && o.Runs?
    ensures var a, c := Offer(s, t), Offer(s, t).c;
            var snd, rcv := Sends(a, o.partner.Some?), Receives(a, o.partner.Some?);
            var x := Value(s, c);
            && c in s.ch.buf && (rcv ==> Queue(s.ch.buf[c], snd, x) != [])
            && (snd ==> Offer(s, c).Snd?) && (rcv ==> Offer(s, c + 1).Rcv?)
            && var s0 := s.(ch := Apply(s.ch, t, [a], true, o, if snd then x else 0));
               var s1 := if snd then Sent(s0, c) else s0;
               Operate(s, t, o) == if rcv then Received(s1, c + 1, Queue(s.ch.buf[c], snd, x)[0]) else s1
  {
    Parties(s, t, o);
    RunsMoves(s.ch, [Offer(s, t)], true, o, Value(s, Offer(s, t).c));
    hide Sent, Received, Apply, Chosen, Offer;
  }

  lemma SendsThenReceives(s: Sys, c: nat, snd: bool, rcv: bool, w: nat, goal: int)
    requires Tasks(s, goal) && (snd ==> Offer(s, c).Snd? && c < |s.sent|)
    requires (rcv ==> Offer(s, c + 1).Rcv? && c < |s.rcvd|)
    ensures var s1 := if snd then Sent(s, c) else s;
            var s' := if rcv then Received(s1, c + 1, w) else s1;
            && Tasks(s', goal) && s'.ch == s.ch && |s'.stages| == |s.stages|
            && s'.sent == (if snd then s.sent[c := s.sent[c] + [Value(s, c)]] else s.sent)
            && s'.rcvd == (if rcv then s.rcvd[c := s.rcvd[c] + [w]] else s.rcvd)
            && (snd ==> !Offer(s', c).Nop?) && (rcv ==> Offer(s', c + 1).Nop?)
            && forall u: nat | !(snd && u == c) && !(rcv && u == c + 1) :: Offer(s', u) == Offer(s, u)
  {
    hide Tasks, Offer;
    if snd { SentKeepsTasks(s, c, goal); }
    var s1 := if snd then Sent(s, c) else s;
    if rcv { ReceivedKeepsTasks(s1, c + 1, w, goal); }
  }

  /** A communication moves one number into, or out of, or through channel `c`. */
  lemma OperateMoves(s: Sys, t: nat, o: Outcome<nat>, goal: int, buffer: nat)
    requires SieveInv(s, goal, buffer) && Enabled(s, t, o) && !Offer(s, t).Nop? && o.Runs?
    ensures var s', a, c := Operate(s, t, o), Offer(s, t), Offer(s, t).c;
            var snd, rcv := Sends(a, o.partner.Some?), Receives(a, o.partner.Some?);
            && Tasks(s', goal) && |s'.stages| == |s.stages| && c < |s.sent| && c < |s.rcvd| && c in s.ch.buf
            && (rcv ==> Queue(s.ch.buf[c], snd, Value(s, c)) != [])
            && s'.ch == Apply(s.ch, t, [a], true, o, if snd then Value(s, c) else 0)
            && s'.sent == (if snd then s.sent[c := s.sent[c] + [Value(s, c)]] else s.sent)
            && s'.rcvd == (if rcv then s.rcvd[c := s.rcvd[c] + [Queue(s.ch.buf[c], snd, Value(s, c))[0]]] else s.rcvd)
            && (snd ==> !Offer(s', c).Nop?) && (rcv ==> Offer(s', c + 1).Nop?)
            && forall u: nat | !(snd && u == c) && !(rcv && u == c + 1) :: Offer(s', u) == Offer(s, u)
  {
    hide Inv, Tasks, Operate, Sent, Received, Apply, Chosen, Blocked, Offer;
    var a, c := Offer(s, t), Offer(s, t).c;
    var snd, rcv := Sends(a, o.partner.Some?), Receives(a, o.partner.Some?);
    OperateOnChannel(s, t, o);
    var s0 := s.(ch := Apply(s.ch, t, [a], true, o, if snd then Value(s, c) else 0));
    ChannelsApart(s, s0.ch, goal);
    SendsThenReceives(s0, c, snd, rcv, if rcv then Queue(s.ch.buf[c], snd, Value(s, c))[0] else 0, goal);
    assert Value(s0, c) == Value(s, c);
  }

  /** What leaves a channel and what stays in it is what was in it and what comes in. */
  lemma FifoKept(sent: seq<nat>, rcvd: seq<nat>, buf: seq<nat>, snd: bool, rcv: bool, x: nat)
    requires sent == rcvd + buf && (rcv ==> Queue(buf, snd, x) != [])
    ensures (if snd then sent + [x] else sent)
         == (if rcv then rcvd + [Queue(buf, snd, x)[0]] else rcvd) + AfterMove(buf, snd, rcv, x)
  {
    var q := Queue(buf, snd, x);
    if rcv { assert q == [q[0]] + q[1..]; }
  }

  lemma ApplyRuns(ch: State<nat, nat, nat>, t: nat, a: Alt<nat>, o: Outcome<nat>, x: nat)
    requires AllKnown(ch, [a]) && Chosen(ch, [a], true, o) && o.Runs?
    ensures var ch' := Apply(ch, t, [a], true, o, x);
            var snd, rcv := Sends(a, o.partner.Some?), Receives(a, o.partner.Some?);
            && !a.Nop? && a.c in ch.buf && (rcv ==> Queue(ch.buf[a.c], snd, x) != [])
            && ch'.cap == ch.cap && ch'.buf == ch.buf[a.c := AfterMove(ch.buf[a.c], snd, rcv, x)]
  {
    RunsMoves(ch, [a], true, o, x);
  }

  lemma RunKeepsChannels(s: Sys, t: nat, o: Outcome<nat>, goal: int, buffer: nat)
    requires SieveInv(s, goal, buffer) && Enabled(s, t, o) && !Offer(s, t).Nop? && o.Runs?
    ensures Channels(Operate(s, t, o), buffer)
  {
    hide Inv, Tasks, Operate, Chosen, Blocked, Offer, Apply, Queue, AfterMove;
    var a, c := Offer(s, t), Offer(s, t).c;
    var snd, rcv := Sends(a, o.partner.Some?), Receives(a, o.partner.Some?);
    var x := if snd then Value(s, c) else 0;
    NotWaiting(s, t);
    CallKeepsInv(s.ch, t, [a], true, o, x);
    OperateMoves(s, t, o, goal, buffer);
    ApplyRuns(s.ch, t, a, o, x);
    FifoKept(s.sent[c], s.rcvd[c], s.ch.buf[c], snd, rcv, Value(s, c));
    SameWithoutSender(s.ch.buf[c], snd, rcv, x, Value(s, c));
  }

  lemma NotWaiting(s: Sys, t: nat)
    requires t !in s.ch.blocked && AllKnown(s.ch, [Offer(s, t)])
    ensures MayCall(s.ch, t, [Offer(s, t)])
  {
  }

  lemma SameWithoutSender(buf: seq<nat>, snd: bool, rcv: bool, x: nat, y: nat)
    requires (snd ==> x == y) && (rcv ==> Queue(buf, snd, x) != [])
    ensures Queue(buf, snd, x) == Queue(buf, snd, y) && AfterMove(buf, snd, rcv, x) == AfterMove(buf, snd, rcv, y)
  {
  }

  lemma RunKeepsBlocked(s: Sys, t: nat, o: Outcome<nat>, goal: int, buffer: nat)
    requires SieveInv(s, goal, buffer) && Enabled(s, t, o) && !Offer(s, t).Nop? && o.Runs?
    ensures Blocked(Operate(s, t, o))
  {
    OperateMoves(s, t, o, goal, buffer);
    Parties(s, t, o);
    hide Inv, Tasks, Operate, Offer;
    var a, c := Offer(s, t), Offer(s, t).c;
    var s' := Operate(s, t, o);
    forall u | u in s'.ch.blocked
      ensures u <= |s'.stages| && !Offer(s', u).Nop? && s'.ch.blocked[u] == [Offer(s', u)]
    {
      assert u in s.ch.blocked && u != t && (o.partner.Some? ==> u != o.partner.value.0);
    }
  }

  lemma BlockKeeps(s: Sys, t: nat, goal: int, buffer: nat)
    requires SieveInv(s, goal, buffer) && Enabled(s, t, Blocks) && !Offer(s, t).Nop?
    ensures SieveInv(Operate(s, t, Blocks), goal, buffer)
  {
    CallKeepsInv(s.ch, t, [Offer(s, t)], true, Blocks, 0);
    var s' := Operate(s, t, Blocks);
    ChannelsApart(s, s'.ch, goal);
    hide Inv, Tasks, Offer;
    assert s' == s.(ch := s'.ch);
  }

  /** Every step of every task keeps the invariant, whatever the schedule. */
  lemma StepKeeps(s: Sys, t: nat, o: Outcome<nat>, goal: int, buffer: nat)
    requires SieveInv(s, goal, buffer) && Enabled(s, t, o)
    ensures SieveInv(Do(s, t, o, goal, buffer), goal, buffer)
  {
    if Offer(s, t).Nop? {
      LocalKeeps(s, t, goal, buffer);
    } else if o.Blocks? {
      BlockKeeps(s, t, goal, buffer);
    } else {
      OperateMoves(s, t, o, goal, buffer);
      RunKeepsChannels(s, t, o, goal, buffer);
      RunKeepsBlocked(s, t, o, goal, buffer);
    }
  }

  // --------------------------------------------------------------- main results

  datatype Turn = Turn(t: nat, o: Outcome<nat>)

  /** The states that a run from the start goes through, with any schedule */
  ghost predicate Schedule(states: seq<Sys>, turns: seq<Turn>, goal: int, buffer: nat) {
    && |states| == |turns| + 1 && states[0] == Start(buffer)
    && forall i | 0 <= i < |turns| ::
         Enabled(states[i], turns[i].t, turns[i].o)
         && states[i + 1] == Do(states[i], turns[i].t, turns[i].o, goal, buffer)
  }

  lemma StartInv(goal: int, buffer: nat)
    ensures SieveInv(Start(buffer), goal, buffer)
  {
    var s := Start(buffer);
    assert Ints(2) == [] && s.sent[0] == [];
    assert StageOk(s, 0);
    assert s.ch.cap.Keys == {0} == s.ch.buf.Keys;
    assert Inv(s.ch);
  }

  /** Only a stage whose first number exceeds `goal` ends the program. */
  lemma EndsAboveGoal(s: Sys, t: nat, o: Outcome<nat>, goal: int, buffer: nat)
    requires SieveInv(s, goal, buffer) && Enabled(s, t, o) && Do(s, t, o, goal, buffer).done
    ensures var s', n := Do(s, t, o, goal, buffer), |s.stages|;
            && s'.printed == s.printed && s'.rcvd == s.rcvd && |s'.stages| == n
            && s.rcvd[n - 1] != [] && s.rcvd[n - 1][0] > goal
  {
    if Offer(s, t).Nop? {
      assert StageOk(s, t - 1);
    } else {
      OperateGoesOn(s, t, o);
    }
  }

  lemma OperateGoesOn(s: Sys, t: nat, o: Outcome<nat>)
    requires Enabled(s, t, o) && !Offer(s, t).Nop?
    ensures !Operate(s, t, o).done
  {
    hide Apply, Chosen, Offer, Value;
  }

  lemma {:induction false} RunInv(states: seq<Sys>, turns: seq<Turn>, k: nat, goal: int, buffer: nat)
    requires Schedule(states, turns, goal, buffer) && k <= |turns|
    ensures SieveInv(states[k], goal, buffer)
    decreases k
  {
    if k == 0 {
      StartInv(goal, buffer);
    } else {
      RunInv(states, turns, k - 1, goal, buffer);
      StepKeeps(states[k - 1], turns[k - 1].t, turns[k - 1].o, goal, buffer);
    }
  }

  lemma PrintedSoFar(s: Sys, goal: int, buffer: nat)
    requires SieveInv(s, goal, buffer)
    ensures FirstPrimes(s.printed) && forall p | p in s.printed :: p <= goal
  {
    PrintedPrimes(s, goal, buffer, |s.printed|);
    assert s.printed[..|s.printed|] == s.printed;
  }

  /** What has been printed when the last stage has received a number above `goal` */
  lemma PrintedAtEnd(s: Sys, goal: int, buffer: nat)
    requires SieveInv(s, goal, buffer) && s.rcvd[|s.stages| - 1] != [] && s.rcvd[|s.stages| - 1][0] > goal
    ensures forall p: nat :: p in s.printed <==> Prime(p) && p <= goal
  {
    var k := |s.stages| - 1;
    PrintedSoFar(s, goal, buffer);
    Streams(s, goal, buffer, k);
    hide Channels, Blocked, StageOk, FirstPrimes, Stream, Prime;
    assert s.printed[..k] == s.printed;
    HeadIsNextPrime(s.rcvd[k], s.printed);
    AllUpTo(s.printed, s.rcvd[k][0], goal);
  }

  /** Under every schedule, what has been printed is the first primes in order, none above
      `goal`; and the number that ends the program is the next prime after them. */
  lemma PrintsPrimes(states: seq<Sys>, turns: seq<Turn>, k: nat, goal: int, buffer: nat)
    requires Schedule(states, turns, goal, buffer) && k <= |turns|
    ensures FirstPrimes(states[k].printed)
    ensures forall p | p in states[k].printed :: p <= goal
    ensures states[k].done ==> forall p: nat :: p in states[k].printed <==> Prime(p) && p <= goal
  {
    hide SieveInv, Do, FirstPrimes, Prime;
    RunInv(states, turns, k, goal, buffer);
    PrintedSoFar(states[k], goal, buffer);
    if states[k].done {
      assert k > 0;
      RunInv(states, turns, k - 1, goal, buffer);
      EndsAboveGoal(states[k - 1], turns[k - 1].t, turns[k - 1].o, goal, buffer);
      PrintedAtEnd(states[k], goal, buffer);
    }
  }

  /** Each channel carries the numbers from 2 not divisible by the primes before it. */
  lemma CarriesStreams(states: seq<Sys>, turns: seq<Turn>, k: nat, c: nat, goal: int, buffer: nat)
    requires Schedule(states, turns, goal, buffer) && k <= |turns| && c < |states[k].stages|
    ensures var s := states[k];
            && |s.sent| == |s.rcvd| == |s.stages| == |s.printed| + 1
            && Stream(s.sent[c], s.printed[..c]) && s.rcvd[c] <= s.sent[c]
  {
    RunInv(states, turns, k, goal, buffer);
    Streams(states[k], goal, buffer, c);
    ReceivedStream(states[k], buffer, c, states[k].printed[..c]);
  }

  /** The sieve never gets stuck: until it ends the program, some task can run. */
  lemma NeverStuck(s: Sys, goal: int, buffer: nat) returns (t: nat, o: Outcome<nat>)
    requires SieveInv(s, goal, buffer) && !s.done
    ensures Enabled(s, t, o)
  {
    t := 0;
    while t in s.ch.blocked
      invariant t <= |s.stages| && (t in s.ch.blocked ==> Offer(s, t) == Snd(t))
      decreases |s.stages| - t
    {
      assert t < |s.stages| by {
        if t > 0 { assert StageOk(s, t - 1); }
      }
      if t + 1 in s.ch.blocked {
        NoMeeting(s, t, goal, buffer);
      }
      t := t + 1;
    }
    o := Blocks;
    if !Offer(s, t).Nop? {
      if t > 0 { assert StageOk(s, t - 1); }
      o := SomeOutcome(s.ch, [Offer(s, t)], true);
    }
  }

  /** Sender and receiver of a channel do not both wait for it. */
  lemma NoMeeting(s: Sys, c: nat, goal: int, buffer: nat)
    requires SieveInv(s, goal, buffer) && c in s.ch.blocked && c + 1 in s.ch.blocked && Offer(s, c) == Snd(c)
    ensures Offer(s, c + 1) == Snd(c + 1)
  {
    var a, b := s.ch.blocked[c][0], s.ch.blocked[c + 1][0];
    assert Satisfied(s.ch, a) && Satisfied(s.ch, b) && !Rendezvous(s.ch, a, b);
    assert AllKnown(s.ch, s.ch.blocked[c]) && Known(s.ch, a);
  }
}
