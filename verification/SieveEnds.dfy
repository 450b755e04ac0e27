/** The sieve ends under every schedule, after a number of steps bounded by `goal` and the
    buffer size. */
module SieveEnds {
  import opened Alternation
  import opened Primes
  import opened Sieve

  /** The product of the numbers up to `n` */
  ghost function Factorial(n: nat): (f: nat)
    ensures f > 0
  {
    if n == 0 then 1 else n * Factorial(n - 1)
  }

  lemma {:induction false} FactorDivides(n: nat, p: nat)
    requires 0 < p <= n
    ensures Factorial(n) % p == 0
  {
    if p == n {
      MultipleMod(Factorial(n - 1), p);
    } else {
      FactorDivides(n - 1, p);
      var f := Factorial(n - 1);
      assert n * f == (n * (f / p)) * p;
      MultipleMod(n * (f / p), p);
    }
  }

  /** A number one above a multiple of `m` */
  ghost predicate Hit(x: nat, m: nat)
    requires m > 0
  {
    x > 0 && (x - 1) % m == 0
  }

  /** How many of `q` are so */
  ghost function Hits(q: seq<nat>, m: nat): nat
    requires m > 0
  {
    if q == [] then 0 else Hits(q[..|q| - 1], m) + if Hit(q[|q| - 1], m) then 1 else 0
  }

  lemma HitsMore(q: seq<nat>, x: nat, m: nat)
    requires m > 0
    ensures Hits(q + [x], m) == Hits(q, m) + if Hit(x, m) then 1 else 0
  {
    assert (q + [x])[..|q|] == q;
  }

  /** Dividing by a factor of `m` sorts out none of them. */
  lemma HitPasses(x: nat, p: nat, m: nat)
    requires m > 0 && p >= 2 && m % p == 0 && Hit(x, m)
    ensures x % p != 0
  {
    var y := x - 1;
    DividesThrough(y, m, p);
    if x % p == 0 {
      assert x == (x / p) * p && y == (y / p) * p;
      assert (x / p - y / p) * p == 1;
      if x / p > y / p {
        AtLeast(x / p - y / p, p);
      }
    }
  }

  lemma {:induction false} HitsFilter(q: seq<nat>, p: nat, m: nat)
    requires m > 0 && p >= 2 && m % p == 0
    ensures Hits(Filter(q, p), m) == Hits(q, m)
  {
    hide Hit;
    if q != [] {
      var r, x := q[..|q| - 1], q[|q| - 1];
      assert q == r + [x];
      HitsFilter(r, p, m);
      FilterMore(r, x, p);
      HitsMore(r, x, m);
      HitsMore(Filter(r, p), x, m);
      if Hit(x, m) {
        HitPasses(x, p, m);
      }
    }
  }

  lemma {:induction false} HitsJoin(a: seq<nat>, b: seq<nat>, m: nat)
    requires m > 0
    ensures Hits(a + b, m) == Hits(a, m) + Hits(b, m) && Hits(b, m) <= |b|
  {
    if b == [] {
      assert a + b == a;
    } else {
      var r, x := b[..|b| - 1], b[|b| - 1];
      HitsJoin(a, r, m);
      HitsMore(a + r, x, m);
      assert a + b == (a + r) + [x];
    }
  }

  lemma DivStep(n: nat, m: nat)
    requires m > 0
    ensures (n + 1) / m == n / m + if (n + 1) % m == 0 then 1 else 0
  {
    var q, r := n / m, n % m;
    assert n + 1 == q * m + (r + 1);
    if r + 1 == m {
      assert n + 1 == (q + 1) * m;
      DivModUnique(n + 1, m, q + 1, 0);
    } else {
      DivModUnique(n + 1, m, q, r + 1);
    }
  }

  lemma DivModUnique(n: nat, m: nat, q: nat, r: nat)
    requires m > 0 && n == q * m + r && r < m
    ensures n / m == q && n % m == r
  {
    var a, b := n / m, n % m;
    assert (a - q) * m == r - b;
    if a > q {
      AtLeast(a - q, m);
    } else if a < q {
      AtLeast(q - a, m);
    }
  }

  lemma {:induction false} HitsInts(i: nat, m: nat)
    requires m > 0 && i >= 2
    ensures Hits(Ints(i), m) == (i - 2) / m
  {
    if i == 2 {
      DivModUnique(0, m, 0, 0);
    } else {
      HitsInts(i - 1, m);
      IntsStream(i - 1);
      HitsMore(Ints(i - 1), i - 1, m);
      DivStep(i - 3, m);
    }
  }

  // ------------------------------------------------- how far the generator gets

  /** What `goal` bounds: the number of stages, and the numbers that the generator sends
      before the pipeline is full or ends the program. */
  ghost function MaxStages(goal: int): nat { if goal > 0 then goal else 1 }

  ghost function Step(goal: int): (m: nat)
    ensures m > 0
  {
    Factorial(if goal > 0 then goal else 0)
  }

  ghost function MaxSent(goal: int, buffer: nat): nat {
    Step(goal) * (MaxStages(goal) * (buffer + 1) + 1)
  }

  /** At most one hit that a stage has received is still in it; its channel holds `buffer`. */
  lemma StageKeepsHits(s: Sys, k: nat, goal: int, buffer: nat)
    requires Tasks(s, goal) && Channels(s, buffer) && k < |s.stages|
    ensures var next := if k + 1 < |s.stages| then Hits(s.sent[k + 1], Step(goal)) else 0;
            Hits(s.sent[k], Step(goal)) <= next + buffer + 1
  {
    var m, q, b := Step(goal), s.rcvd[k], s.ch.buf[k];
    assert k in s.ch.cap && StageOk(s, k);
    HitsJoin(q, b, m);
    if k + 1 < |s.stages| {
      var p := s.printed[k];
      FirstIsPositive(s, k, goal, buffer);
      FactorDivides(goal, p);
      HitsFilter(q, p, m);
      HitsFilter(q[..|q| - 1], p, m);
      HitsMore(q[..|q| - 1], q[|q| - 1], m);
      assert q == q[..|q| - 1] + [q[|q| - 1]];
    } else {
      HitsJoin([], q, m);
      assert [] + q == q;
    }
  }

  lemma {:induction false} HitsInPipeline(s: Sys, k: nat, goal: int, buffer: nat)
    requires Tasks(s, goal) && Channels(s, buffer) && k < |s.stages|
    ensures Hits(s.sent[k], Step(goal)) <= (|s.stages| - k) * (buffer + 1)
    decreases |s.stages| - k
  {
    hide Tasks, Channels, Step;
    StageKeepsHits(s, k, goal, buffer);
    var left := |s.stages| - k - 1;
    if k + 1 < |s.stages| {
      HitsInPipeline(s, k + 1, goal, buffer);
    }
    OneMoreTimes(left, buffer + 1);
    assert left + 1 == |s.stages| - k;
  }

  lemma OneMoreTimes(a: nat, b: nat)
    ensures (a + 1) * b == a * b + b
  {
  }

  /** An increasing sequence of numbers from 2 up to `goal` is shorter than `goal`. */
  lemma {:induction false} FewUpTo(ps: seq<nat>, goal: int)
    requires Increasing(ps) && (forall k | 0 <= k < |ps| :: 2 <= ps[k] <= goal)
    ensures |ps| < MaxStages(goal)
  {
    if ps != [] {
      var n := |ps| - 1;
      forall k | 0 <= k < n ensures ps[..n][k] <= ps[n] - 1 {
        assert ps[k] < ps[n];
      }
      FewUpTo(ps[..n], ps[n] - 1);
    }
  }

  lemma FewStages(s: Sys, goal: int, buffer: nat)
    requires Tasks(s, goal) && Channels(s, buffer)
    ensures |s.stages| <= MaxStages(goal)
  {
    PrintedPrimes(s, goal, buffer, |s.printed|);
    assert s.printed[..|s.printed|] == s.printed;
    FewUpTo(s.printed, goal);
  }

  lemma GeneratorBound(s: Sys, goal: int, buffer: nat)
    requires Tasks(s, goal) && Channels(s, buffer)
    ensures |s.sent[0]| <= MaxSent(goal, buffer)
  {
    var n := |s.sent[0]|;
    HitsInPipeline(s, 0, goal, buffer);
    HitsInts(s.next, Step(goal));
    FewStages(s, goal, buffer);
    assert n == s.next - 2;
    hide Tasks, Channels, Step, Hits, MaxStages;
    Scaled(|s.stages|, MaxStages(goal), buffer + 1);
    QuotientBound(n, Step(goal), MaxStages(goal) * (buffer + 1));
  }

  lemma QuotientBound(n: nat, m: nat, h: nat)
    requires m > 0 && n / m <= h
    ensures n <= m * (h + 1)
  {
    var q := n / m;
    assert n == m * q + n % m;
    Scaled(q, h, m);
    OneMoreTimes(h, m);
  }

  lemma Scaled(a: nat, b: nat, m: nat)
    requires a <= b
    ensures a * m <= b * m
  {
  }

  // ----------------------------------------------------------- counting the steps

  /** What has happened at channel `k` and in the stage that reads it */
  ghost function Traffic(s: Sys, k: nat): int
    requires k < |s.sent| && k < |s.rcvd|
  {
    4 * |s.sent[k]| + 5 * |s.rcvd[k]| - if Offer(s, k + 1).Nop? then 1 else 0
  }

  ghost function AllTraffic(s: Sys, n: nat): int
    requires n <= |s.sent| && n <= |s.rcvd|
  {
    if n == 0 then 0 else AllTraffic(s, n - 1) + Traffic(s, n - 1)
  }

  /** Every step but the last adds to this. */
  ghost function Progress(s: Sys): int
    requires |s.stages| == |s.sent| == |s.rcvd|
  {
    AllTraffic(s, |s.stages|) + |s.ch.blocked.Keys|
  }

  lemma {:induction false} TrafficElsewhere(s: Sys, s': Sys, n: nat, c: nat)
    requires n <= |s.sent| && n <= |s.rcvd| && n <= |s'.sent| && n <= |s'.rcvd|
    requires forall k | 0 <= k < n && k != c :: Traffic(s', k) == Traffic(s, k)
    ensures AllTraffic(s', n) == AllTraffic(s, n) + if c < n then Traffic(s', c) - Traffic(s, c) else 0
  {
    if n > 0 {
      TrafficElsewhere(s, s', n - 1, c);
    }
  }

  lemma LocalProgress(s: Sys, t: nat, goal: int, buffer: nat)
    requires SieveInv(s, goal, buffer) && 0 < t <= |s.stages| && Offer(s, t).Nop? && !s.done
    ensures var s' := Local(s, t, goal, buffer);
            |s'.stages| == |s'.sent| == |s'.rcvd| && Progress(s') >= Progress(s) + if s'.done then 0 else 1
  {
    if s.stages[t - 1].HaveFirst? && s.stages[t - 1].v <= goal {
      FoundProgress(s, t, goal, buffer);
    } else {
      ExamineProgress(s, t, goal, buffer);
    }
  }

  lemma ExamineProgress(s: Sys, t: nat, goal: int, buffer: nat)
    requires Tasks(s, goal) && 0 < t <= |s.stages| && Offer(s, t).Nop? && !s.done
    requires s.stages[t - 1].HaveFirst? ==> s.stages[t - 1].v > goal
    ensures var s' := Local(s, t, goal, buffer);
            |s'.stages| == |s'.sent| == |s'.rcvd| && Progress(s') >= Progress(s) + if s'.done then 0 else 1
  {
    hide StageOk;
    var s', n := Local(s, t, goal, buffer), |s.stages|;
    TrafficElsewhere(s, s', n, if s'.done then n else t - 1);
  }

  lemma FoundProgress(s: Sys, t: nat, goal: int, buffer: nat)
    requires Tasks(s, goal) && 0 < t <= |s.stages| && s.stages[t - 1].HaveFirst? && s.stages[t - 1].v <= goal
    ensures var s' := Local(s, t, goal, buffer);
            |s'.stages| == |s'.sent| == |s'.rcvd| && Progress(s') == Progress(s) + 1
  {
    var s', n := Local(s, t, goal, buffer), |s.stages|;
    hide StageOk;
    TrafficElsewhere(s, s', n, t - 1);
    assert AllTraffic(s', n + 1) == AllTraffic(s', n) + Traffic(s', n);
  }

  /** A communication counts for at least four, and wakes at most one task. */
  lemma RunProgress(s: Sys, t: nat, o: Outcome<nat>, goal: int, buffer: nat)
    requires SieveInv(s, goal, buffer) && Enabled(s, t, o) && !Offer(s, t).Nop? && o.Runs?
    ensures var s' := Operate(s, t, o);
            |s'.stages| == |s'.sent| == |s'.rcvd| && Progress(s') > Progress(s)
  {
    hide Inv, Operate, Blocked, Apply;
    var a, c, s' := Offer(s, t), Offer(s, t).c, Operate(s, t, o);
    Parties(s, t, o);
    OperateMoves(s, t, o, goal, buffer);
    ApplyWakes(s.ch, t, a, o, if Sends(a, o.partner.Some?) then Value(s, c) else 0);
    hide Tasks, StageOk, Offer, Value, Chosen;
    TrafficElsewhere(s, s', |s.stages|, c);
    WakesOne(s.ch, s'.ch, o);
  }

  lemma ApplyWakes(ch: State<nat, nat, nat>, t: nat, a: Alt<nat>, o: Outcome<nat>, x: nat)
    requires AllKnown(ch, [a]) && Chosen(ch, [a], true, o) && o.Runs?
    ensures var ch' := Apply(ch, t, [a], true, o, x);
            ch'.blocked == if o.partner.Some? then ch.blocked - {o.partner.value.0} else ch.blocked
  {
  }

  lemma WakesOne(ch: State<nat, nat, nat>, ch': State<nat, nat, nat>, o: Outcome<nat>)
    requires o.Runs? && ch'.blocked == if o.partner.Some? then ch.blocked - {o.partner.value.0} else ch.blocked
    ensures |ch'.blocked.Keys| >= |ch.blocked.Keys| - 1
  {
    if o.partner.Some? {
      assert ch'.blocked.Keys == ch.blocked.Keys - {o.partner.value.0};
    }
  }

  lemma BlockProgress(s: Sys, t: nat, goal: int, buffer: nat)
    requires SieveInv(s, goal, buffer) && Enabled(s, t, Blocks) && !Offer(s, t).Nop?
    ensures var s' := Operate(s, t, Blocks);
            |s'.stages| == |s'.sent| == |s'.rcvd| && Progress(s') > Progress(s)
  {
    var s' := Operate(s, t, Blocks);
    assert s' == s.(ch := s'.ch);
    assert s'.ch.blocked.Keys == s.ch.blocked.Keys + {t};
    ChannelsApart(s, s'.ch, goal);
    hide Inv, StageOk, Operate, Offer, Blocked;
    TrafficElsewhere(s, s', |s.stages|, |s.stages|);
  }

  // ------------------------------------------------------------------ the bound

  ghost function MaxSteps(goal: int, buffer: nat): nat {
    MaxStages(goal) * (9 * MaxSent(goal, buffer)) + MaxStages(goal) + 1
  }

  /** No channel has carried more than the first. */
  lemma {:induction false} CarriesLess(s: Sys, k: nat, goal: int, buffer: nat)
    requires Tasks(s, goal) && Channels(s, buffer) && k < |s.stages|
    ensures |s.rcvd[k]| <= |s.sent[k]| <= |s.sent[0]|
  {
    assert k in s.ch.cap;
    if k > 0 {
      CarriesLess(s, k - 1, goal, buffer);
      assert StageOk(s, k - 1);
      var q := s.rcvd[k - 1];
      FilterShorter(q, s.printed[k - 1]);
      FilterShorter(q[..|q| - 1], s.printed[k - 1]);
    }
  }

  lemma {:induction false} FilterShorter(q: seq<nat>, p: nat)
    requires p > 0
    ensures |Filter(q, p)| <= |q|
  {
    if q != [] { FilterShorter(q[..|q| - 1], p); }
  }

  lemma {:induction false} TrafficBound(s: Sys, n: nat, goal: int, buffer: nat)
    requires Tasks(s, goal) && Channels(s, buffer) && n <= |s.stages|
    ensures AllTraffic(s, n) <= n * (9 * |s.sent[0]|)
  {
    if n > 0 {
      TrafficBound(s, n - 1, goal, buffer);
      CarriesLess(s, n - 1, goal, buffer);
      OneMoreTimes(n - 1, 9 * |s.sent[0]|);
    }
  }

  lemma ProgressBound(s: Sys, goal: int, buffer: nat)
    requires SieveInv(s, goal, buffer)
    ensures Progress(s) <= MaxSteps(goal, buffer)
  {
    var n := |s.stages|;
    TrafficBound(s, n, goal, buffer);
    GeneratorBound(s, goal, buffer);
    FewStages(s, goal, buffer);
    FewBlocked(s.ch.blocked.Keys, n);
    hide Tasks, Channels, Blocked, AllTraffic, MaxStages, MaxSent;
    Scaled(n, MaxStages(goal), 9 * |s.sent[0]|);
    Scaled(9 * |s.sent[0]|, 9 * MaxSent(goal, buffer), MaxStages(goal));
  }

  lemma {:induction false} FewBlocked(ts: set<nat>, n: nat)
    requires forall t | t in ts :: t <= n
    ensures |ts| <= n + 1
  {
    if n == 0 {
      assert ts <= {0};
      SmallSet(ts);
    } else {
      FewBlocked(ts - {n}, n - 1);
    }
  }

  lemma SmallSet(ts: set<nat>)
    requires ts <= {0}
    ensures |ts| <= 1
  {
    if ts != {} { assert ts == {0}; }
  }

  lemma StepProgress(s: Sys, t: nat, o: Outcome<nat>, goal: int, buffer: nat)
    requires SieveInv(s, goal, buffer) && Enabled(s, t, o)
    ensures var s' := Do(s, t, o, goal, buffer);
            |s'.stages| == |s'.sent| == |s'.rcvd| && Progress(s') >= Progress(s) + if s'.done then 0 else 1
  {
    if Offer(s, t).Nop? {
      LocalProgress(s, t, goal, buffer);
    } else if o.Blocks? {
      BlockProgress(s, t, goal, buffer);
    } else {
      RunProgress(s, t, o, goal, buffer);
    }
  }

  lemma StartProgress(buffer: nat)
    ensures var s := Start(buffer);
            |s.stages| == |s.sent| == |s.rcvd| && Progress(s) == 0
  {
    var s := Start(buffer);
    assert AllTraffic(s, 1) == AllTraffic(s, 0) + Traffic(s, 0);
  }

  lemma {:induction false} RunProgresses(states: seq<Sys>, turns: seq<Turn>, k: nat, goal: int, buffer: nat)
    requires Schedule(states, turns, goal, buffer) && k <= |turns|
    ensures var s := states[k];
            |s.stages| == |s.sent| == |s.rcvd| && Progress(s) >= k - if s.done then 1 else 0
    decreases k
  {
    hide SieveInv, Do, Progress;
    RunInv(states, turns, k, goal, buffer);
    if k == 0 {
      StartProgress(buffer);
    } else {
      RunInv(states, turns, k - 1, goal, buffer);
      RunProgresses(states, turns, k - 1, goal, buffer);
      StepProgress(states[k - 1], turns[k - 1].t, turns[k - 1].o, goal, buffer);
    }
  }

  /** The sieve is correct and ends, whatever the schedule and the buffer size: no run has
      more than `MaxSteps + 1` steps; and a run that cannot go on has ended the program,
      having printed exactly the primes up to `goal`, in order. */
  lemma EndsWithThePrimes(states: seq<Sys>, turns: seq<Turn>, goal: int, buffer: nat)
    requires Schedule(states, turns, goal, buffer)
    ensures |turns| <= MaxSteps(goal, buffer) + 1
    ensures var s := states[|turns|];
            (forall t, o :: !Enabled(s, t, o)) ==>
              s.done && FirstPrimes(s.printed) && forall p: nat :: p in s.printed <==> Prime(p) && p <= goal
  {
    var s := states[|turns|];
    RunInv(states, turns, |turns|, goal, buffer);
    RunProgresses(states, turns, |turns|, goal, buffer);
    ProgressBound(s, goal, buffer);
    PrintsPrimes(states, turns, |turns|, goal, buffer);
    if !s.done {
      var t, o := NeverStuck(s, goal, buffer);
    }
  }
}
