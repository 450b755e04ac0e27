/** The reader-writer lock of qlock.c: what every sequence of calls keeps, and that no
    waiting task starves. */
module RWLockSpec {
  import opened Options
  import opened Seqs

  /** `held` records who holds the lock for reading, once for each time it was granted. */
  datatype RW<!T> = RW(readers: int, writer: Option<T>, rwaiting: seq<T>, wwaiting: seq<T>, held: multiset<T>)

  ghost function Unlocked<T>(): RW<T> { RW(0, None, [], [], multiset{}) }

  datatype Call<T> =
    | RLock(t: T) | CanRLock(t: T) | RUnlock(t: T)
    | WLock(t: T) | CanWLock(t: T) | WUnlock(t: T)

  ghost predicate Waits<T>(s: RW<T>, t: T) { t in s.rwaiting || t in s.wwaiting }

  /** A waiting task cannot call, and only a holder unlocks. */
  ghost predicate Legal<T>(s: RW<T>, c: Call<T>) {
    && !Waits(s, c.t)
    && (c.RUnlock? ==> c.t in s.held)
    && (c.WUnlock? ==> s.writer == Some(c.t))
  }

  ghost predicate ReadOpen<T>(s: RW<T>) { s.writer == None && s.wwaiting == [] }
  ghost predicate WriteOpen<T>(s: RW<T>) { s.writer == None && s.readers == 0 }

  /** The head of the waiting writers, if any, becomes the owner. */
  ghost function GrantWriter<T>(s: RW<T>): RW<T> {
    if s.wwaiting == [] then s else s.(writer := Some(s.wwaiting[0]), wwaiting := s.wwaiting[1..])
  }

  ghost function Do<T>(s: RW<T>, c: Call<T>): RW<T> {
    match c
    case RLock(t) =>
      if ReadOpen(s) then s.(readers := s.readers + 1, held := s.held + multiset{t})
      else s.(rwaiting := s.rwaiting + [t])
    case CanRLock(t) =>
      if ReadOpen(s) then s.(readers := s.readers + 1, held := s.held + multiset{t}) else s
    case WLock(t) =>
      if WriteOpen(s) then s.(writer := Some(t)) else s.(wwaiting := s.wwaiting + [t])
    case CanWLock(t) =>
      if WriteOpen(s) then s.(writer := Some(t)) else s
    case RUnlock(t) =>
      var s1 := s.(readers := s.readers - 1, held := s.held - multiset{t});
      if s1.readers == 0 then GrantWriter(s1) else s1
    case WUnlock(t) =>
      var s1 := s.(writer := None, rwaiting := [],
                   readers := s.readers + |s.rwaiting|, held := s.held + multiset(s.rwaiting));
      if s1.readers == 0 then GrantWriter(s1) else s1
  }

  /** Never a writer together with readers, `readers` counts the readers, and nobody waits
      for a lock that is free: waiting writers mean that it is held, waiting readers that a
      writer holds it or is queued for it. */
  ghost predicate Inv<T>(s: RW<T>) {
    && (s.writer.Some? ==> s.readers == 0)
    && s.readers == |s.held|
    && (s.wwaiting != [] ==> s.writer.Some? || s.readers > 0)
    && (s.rwaiting != [] ==> s.writer.Some? || s.wwaiting != [])
    && NoDup(s.rwaiting) && NoDup(s.wwaiting)
    && forall t | t in s.rwaiting :: t !in s.wwaiting
  }

  lemma CallKeepsInv<T>(s: RW<T>, c: Call<T>)
    requires Inv(s) && Legal(s, c)
    ensures Inv(Do(s, c))
  {
    if c.RUnlock? {
      assert |s.held - multiset{c.t}| == |s.held| - 1;
    }
    if c.WUnlock? {
      assert |multiset(s.rwaiting)| == |s.rwaiting|;
    }
  }

  ghost predicate Release<T>(c: Call<T>) { c.RUnlock? || c.WUnlock? }

  /** The tasks that a release makes ready: the waiting readers when a writer leaves, else
      the first waiting writer once nobody is inside. */
  ghost function Released<T>(s: RW<T>, c: Call<T>): seq<T>
    requires Release(c)
  {
    if c.WUnlock? && s.rwaiting != [] then s.rwaiting
    else if s.wwaiting == [] || (c.RUnlock? && s.readers != 1) then []
    else [s.wwaiting[0]]
  }

  /** What an arriving reader finds and leaves in the fields of the lock */
  lemma ReaderArrives<T>(s: RW<T>, t: T, block: bool)
    ensures var s' := Do(s, if block then RLock(t) else CanRLock(t));
            && s'.readers == s.readers + (if ReadOpen(s) then 1 else 0)
            && s'.writer == s.writer && s'.wwaiting == s.wwaiting
            && s'.rwaiting == if block && !ReadOpen(s) then s.rwaiting + [t] else s.rwaiting
  {
  }

  /** What an arriving writer finds and leaves in the fields of the lock */
  lemma WriterArrives<T>(s: RW<T>, t: T, block: bool)
    ensures var s' := Do(s, if block then WLock(t) else CanWLock(t));
            && s'.writer == (if WriteOpen(s) then Some(t) else s.writer)
            && s'.readers == s.readers && s'.rwaiting == s.rwaiting
            && s'.wwaiting == if block && !WriteOpen(s) then s.wwaiting + [t] else s.wwaiting
  {
  }

  /** What a leaving reader leaves in the fields of the lock */
  lemma ReaderLeaves<T>(s: RW<T>, t: T)
    requires Inv(s) && t in s.held
    ensures var s' := Do(s, RUnlock(t));
            && s'.readers == s.readers - 1 && s'.rwaiting == s.rwaiting && s.writer == None
            && if s.readers == 1 && s.wwaiting != []
               then s'.writer == Some(s.wwaiting[0]) && s'.wwaiting == s.wwaiting[1..]
               else s'.writer == None && s'.wwaiting == s.wwaiting
  {
  }

  /** What a leaving writer leaves in the fields of the lock */
  lemma WriterLeaves<T>(s: RW<T>, t: T)
    requires Inv(s) && s.writer == Some(t)
    ensures var s' := Do(s, WUnlock(t));
            && s'.rwaiting == [] && s'.readers == |s.rwaiting|
            && if s.rwaiting == [] && s.wwaiting != []
               then s'.writer == Some(s.wwaiting[0]) && s'.wwaiting == s.wwaiting[1..]
               else s'.writer == None && s'.wwaiting == s.wwaiting
  {
  }

  lemma WriterAlone<T>(s: RW<T>)
    requires Inv(s) && s.writer.Some?
    ensures s.readers == 0
  {
  }

  // ------------------------------------------------------------- what a call does

  /** A release makes ready exactly the tasks that it takes off the queues: none that still
      waits, and none that gets the lock is forgotten. */
  lemma ReleasedLeave<T>(s: RW<T>, c: Call<T>)
    requires Inv(s) && Legal(s, c) && Release(c)
    ensures NoDup(Released(s, c))
    ensures forall t :: t in Released(s, c) <==> Waits(s, t) && !Waits(Do(s, c), t)
  {
  }

  /** Whoever finds the lock open holds it at once, beside those who held it before. */
  lemma ArrivalHolds<T>(s: RW<T>, c: Call<T>)
    requires Inv(s) && Legal(s, c) && !Release(c)
    ensures var s' := Do(s, c);
            if c.RLock? || c.CanRLock? then
              && s'.held == s.held + (if s.writer == None && s.wwaiting == [] then multiset{c.t} else multiset{})
              && s'.writer == s.writer
            else
              && s'.writer == (if s.writer == None && s.held == multiset{} then Some(c.t) else s.writer)
              && s'.held == s.held
  {
    if |s.held| == 0 { assert s.held == multiset{}; }
  }

  lemma NobodyJoins<T>(s: RW<T>, c: Call<T>)
    requires Inv(s) && Legal(s, c) && Release(c)
    ensures forall t :: Waits(Do(s, c), t) ==> Waits(s, t)
  {
  }

  /** A holder stays one until it calls itself. */
  lemma HolderStays<T>(s: RW<T>, c: Call<T>, t: T)
    requires Inv(s) && Legal(s, c) && c.t != t && (s.writer == Some(t) || t in s.held)
    ensures s.writer == Some(t) ==> Do(s, c).writer == Some(t)
    ensures t in s.held ==> t in Do(s, c).held
  {
  }

  /** A reader that leaves takes its own hold away and nobody else's. */
  lemma LeavingReader<T>(s: RW<T>, t: T)
    requires Inv(s) && Legal(s, RUnlock(t))
    ensures Do(s, RUnlock(t)).held == s.held - multiset{t}
  {
  }

  /** The invariant holds after every sequence of legal calls. */
  ghost predicate Run<T>(states: seq<RW<T>>, calls: seq<Call<T>>) {
    && |states| == |calls| + 1
    && forall i | 0 <= i < |calls| :: Legal(states[i], calls[i]) && states[i+1] == Do(states[i], calls[i])
  }

  lemma {:induction false} RunKeepsInv<T>(states: seq<RW<T>>, calls: seq<Call<T>>, k: nat)
    requires Run(states, calls) && k <= |calls| && states[0] == Unlocked()
    ensures Inv(states[k])
    decreases k
  {
    if k > 0 {
      RunKeepsInv(states, calls, k - 1);
      CallKeepsInv(states[k-1], calls[k-1]);
    }
  }

  /** A writer is inside until its own `wunlock`, alone, in every state of every run. */
  lemma {:induction false} WritesUntilRelease<T>(states: seq<RW<T>>, calls: seq<Call<T>>, k: nat, t: T)
    requires Run(states, calls) && k <= |calls| && Inv(states[0]) && states[0].writer == Some(t)
    requires forall i | 0 <= i < k :: calls[i] != WUnlock(t)
    ensures Inv(states[k]) && states[k].writer == Some(t) && states[k].held == multiset{}
    decreases k
  {
    if k > 0 {
      WritesUntilRelease(states, calls, k - 1, t);
      CallKeepsInv(states[k-1], calls[k-1]);
    }
  }

  /** A reader is inside until its own `runlock`, and no writer is. */
  lemma {:induction false} ReadsUntilRelease<T>(states: seq<RW<T>>, calls: seq<Call<T>>, k: nat, t: T)
    requires Run(states, calls) && k <= |calls| && Inv(states[0]) && t in states[0].held
    requires forall i | 0 <= i < k :: calls[i] != RUnlock(t)
    ensures Inv(states[k]) && t in states[k].held && states[k].writer == None
    decreases k
  {
    if k > 0 {
      ReadsUntilRelease(states, calls, k - 1, t);
      CallKeepsInv(states[k-1], calls[k-1]);
    }
  }

  // ----------------------------------------------------------------- starvation


  lemma IndexIs<T>(q: seq<T>, t: T, i: nat)
    requires NoDup(q) && i < |q| && q[i] == t
    ensures t in q && IndexOf(q, t) == i
  {
  }

  /** How far a waiting writer is from the lock, to be read lexicographically. */
  datatype Rank = Rank(position: nat, writing: nat, readers: nat)

  ghost predicate Lower(a: Rank, b: Rank) {
    || a.position < b.position
    || (a.position == b.position && a.writing < b.writing)
    || (a.position == b.position && a.writing == b.writing && a.readers < b.readers)
  }

  ghost function RankOf<T>(s: RW<T>, t: T): Rank
    requires Inv(s) && t in s.wwaiting
  {
    Rank(IndexOf(s.wwaiting, t), if s.writer.Some? then 1 else 0, s.readers)
  }

  /** An arrival changes neither who holds the lock nor the rank of a waiting writer: no
      reader overtakes a queued writer on the fast path. */
  lemma ArrivalWaits<T>(s: RW<T>, c: Call<T>, t: T)
    requires Inv(s) && Legal(s, c) && !Release(c) && t in s.wwaiting
    ensures var s' := Do(s, c);
            && s'.writer == s.writer && s'.held == s.held
            && t in s'.wwaiting && Inv(s') && RankOf(s', t) == RankOf(s, t)
  {
    CallKeepsInv(s, c);
    IndexIs(Do(s, c).wwaiting, t, IndexOf(s.wwaiting, t));
  }

  /** A release gives a waiting writer the lock or brings it strictly nearer. */
  lemma ReleaseAdvances<T>(s: RW<T>, c: Call<T>, t: T)
    requires Inv(s) && Legal(s, c) && Release(c) && t in s.wwaiting
    ensures var s' := Do(s, c);
            || (s'.writer == Some(t) && t !in s'.wwaiting)
            || (t in s'.wwaiting && Inv(s') && Lower(RankOf(s', t), RankOf(s, t)))
  {
    CallKeepsInv(s, c);
    var i := IndexOf(s.wwaiting, t);
    var s' := Do(s, c);
    if s'.wwaiting == s.wwaiting {
    } else if i == 0 {
      assert t !in s.wwaiting[1..];
    } else {
      assert s.wwaiting[1..][i - 1] == t;
      IndexIs(s.wwaiting[1..], t, i - 1);
    }
  }

  /** Every reader that waits is admitted by the next `wunlock`. */
  lemma WUnlockAdmitsReaders<T>(s: RW<T>, c: Call<T>)
    requires Inv(s) && Legal(s, c) && c.WUnlock?
    ensures var s' := Do(s, c);
            && s'.rwaiting == [] && s'.held == multiset(s.rwaiting)
            && (s.rwaiting == [] ==> s'.writer == if s.wwaiting == [] then None else Some(s.wwaiting[0]))
            && (s.rwaiting != [] ==> s'.writer == None && s'.wwaiting == s.wwaiting)
  {
    assert s.held == multiset{};
    assert |multiset(s.rwaiting)| == |s.rwaiting|;
  }

  /** A run that never ends, in which the lock is released again and again. */
  ghost predicate Forever<T(!new)>(run: nat -> RW<T>, calls: nat -> Call<T>) {
    && Inv(run(0))
    && (forall i: nat :: Legal(run(i), calls(i)) && run(i + 1) == Do(run(i), calls(i)))
    && (forall i: nat :: ReleasedAfter(calls, i))
  }

  ghost predicate ReleasedAfter<T(!new)>(calls: nat -> Call<T>, i: nat) {
    exists j: nat :: Later(calls, i, j)
  }

  ghost predicate Later<T(!new)>(calls: nat -> Call<T>, i: nat, j: nat) { i <= j && Release(calls(j)) }

  lemma {:induction false} ForeverInv<T(!new)>(run: nat -> RW<T>, calls: nat -> Call<T>, i: nat)
    requires Forever(run, calls)
    ensures Inv(run(i))
  {
    if i > 0 {
      ForeverInv(run, calls, i - 1);
      CallKeepsInv(run(i - 1), calls(i - 1));
    }
  }

  /** Arrivals until the next release leave a waiting writer where it was. */
  lemma {:induction false} NextRelease<T(!new)>(run: nat -> RW<T>, calls: nat -> Call<T>, i: nat, j: nat, t: T)
    returns (k: nat)
    requires Forever(run, calls) && Later(calls, i, j) && Inv(run(i)) && t in run(i).wwaiting
    ensures i <= k && Release(calls(k)) && Inv(run(k)) && t in run(k).wwaiting
    ensures RankOf(run(k), t) == RankOf(run(i), t)
    decreases j - i
  {
    if Release(calls(i)) {
      k := i;
    } else {
      ArrivalWaits(run(i), calls(i), t);
      k := NextRelease(run, calls, i + 1, j, t);
    }
  }

  /** No writer starves: one that waits is given the lock, whatever readers and writers arrive. */
  lemma {:induction false} WriterGranted<T(!new)>(run: nat -> RW<T>, calls: nat -> Call<T>, i: nat, t: T)
    returns (g: nat)
    requires Forever(run, calls) && Inv(run(i)) && t in run(i).wwaiting
    ensures g > i && run(g).writer == Some(t) && t !in run(g).wwaiting
    decreases RankOf(run(i), t).position, RankOf(run(i), t).writing, RankOf(run(i), t).readers
  {
    assert ReleasedAfter(calls, i);
    var j: nat :| Later(calls, i, j);
    var k := NextRelease(run, calls, i, j, t);
    ReleaseAdvances(run(k), calls(k), t);
    if t in run(k + 1).wwaiting {
      g := WriterGranted(run, calls, k + 1, t);
    } else {
      g := k + 1;
    }
  }

  /** A reader that waits leaves the queue only into the lock, by a `wunlock`. */
  lemma ReaderStays<T>(s: RW<T>, c: Call<T>, t: T)
    requires Inv(s) && Legal(s, c) && t in s.rwaiting
    ensures var s' := Do(s, c);
            && (c.WUnlock? ==> t in s'.held && t !in s'.rwaiting)
            && (!c.WUnlock? ==> t in s'.rwaiting)
            && (s.writer.Some? ==> c.WUnlock? || s'.writer == s.writer)
  {
  }

  /** A `wunlock` takes `t` from the queue into the lock and makes state `g`. */
  ghost predicate Admitted<T(!new)>(run: nat -> RW<T>, calls: nat -> Call<T>, g: nat, t: T) {
    && g > 0 && calls(g - 1).WUnlock?
    && t in run(g - 1).rwaiting && t !in run(g).rwaiting && t in run(g).held
  }

  /** Between `i` and `j` the reader `t` is admitted or still waits. */
  lemma {:induction false} ReaderAdmittedBetween<T(!new)>(run: nat -> RW<T>, calls: nat -> Call<T>, i: nat, j: nat,
                                                          t: T)
    returns (g: nat)
    requires Forever(run, calls) && Inv(run(i)) && t in run(i).rwaiting && i <= j
    ensures i < g <= j + 1 && if g <= j then Admitted(run, calls, g, t) else t in run(j).rwaiting
    decreases j - i
  {
    ReaderStays(run(i), calls(i), t);
    if i == j {
      g := j + 1;
    } else if calls(i).WUnlock? {
      g := i + 1;
    } else {
      CallKeepsInv(run(i), calls(i));
      g := ReaderAdmittedBetween(run, calls, i + 1, j, t);
    }
  }

  /** A waiting writer leaves the queue only as the owner ... */
  lemma WriterLeavesAsOwner<T>(s: RW<T>, c: Call<T>, t: T)
    requires Inv(s) && Legal(s, c) && t in s.wwaiting
    ensures t in Do(s, c).wwaiting || Do(s, c).writer == Some(t)
    ensures t !in Do(s, c).rwaiting
  {
    if Release(c) { ReleaseAdvances(s, c, t); } else { ArrivalWaits(s, c, t); }
  }

  /** ... so that every task leaves the queues only into the lock. */
  lemma LeaverHolds<T>(s: RW<T>, c: Call<T>, t: T)
    requires Inv(s) && Legal(s, c) && Waits(s, t) && !Waits(Do(s, c), t)
    ensures Do(s, c).writer == Some(t) || t in Do(s, c).held
  {
    if t in s.rwaiting { ReaderStays(s, c, t); } else { WriterLeavesAsOwner(s, c, t); }
  }

  /** No reader starves either. */
  lemma ReaderGranted<T(!new)>(run: nat -> RW<T>, calls: nat -> Call<T>, i: nat, t: T) returns (g: nat)
    requires Forever(run, calls) && Inv(run(i)) && t in run(i).rwaiting
    ensures g > i && Admitted(run, calls, g, t)
  {
    var h := i;
    if run(i).writer == None {
      h := WriterGranted(run, calls, i, run(i).wwaiting[0]);
      g := ReaderAdmittedBetween(run, calls, i, h, t);
      if g <= h { return; }
    }
    g := WriterReleases(run, calls, h, t);
  }

  lemma OnlyTheWriterReleases<T>(s: RW<T>, c: Call<T>)
    requires Inv(s) && Legal(s, c) && s.writer.Some? && Release(c)
    ensures c.WUnlock?
  {
  }

  /** With a writer inside, the next release is its `wunlock`. */
  lemma WriterReleases<T(!new)>(run: nat -> RW<T>, calls: nat -> Call<T>, h: nat, t: T) returns (g: nat)
    requires Forever(run, calls) && run(h).writer.Some? && t in run(h).rwaiting
    ensures g > h && Admitted(run, calls, g, t)
  {
    hide Do, Legal, Inv;
    assert ReleasedAfter(calls, h);
    var j: nat :| Later(calls, h, j);
    var k := h;
    while !Release(calls(k))
      invariant h <= k <= j && run(k).writer.Some? && t in run(k).rwaiting
      decreases j - k
    {
      ForeverInv(run, calls, k);
      ReaderStays(run(k), calls(k), t);
      k := k + 1;
    }
    ForeverInv(run, calls, k);
    OnlyTheWriterReleases(run(k), calls(k));
    ReaderStays(run(k), calls(k), t);
    g := k + 1;
  }
}
