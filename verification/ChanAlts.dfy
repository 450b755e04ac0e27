/** channel.c: the wait arrays, blocked and woken tasks of all channels, and `chanalt`. */
module ChanAlts {
  import opened Options
  import opened Seqs
  import opened Alternation
  import opened Channels
  import opened TaskLists

  // ---------------------------------------------------------------- arrays

  /** The array holds each registered pointer to alternative `a` once, and no other. */
  ghost predicate Lists(arr: seq<AltPtr>, a: Alt<Channel>, regs: set<AltPtr>) {
    && NoDup(arr)
    && (forall p | p in arr :: p in regs && p.idx < |p.set_.alts| && Deref(p) == a)
    && (forall p | p in regs && p.idx < |p.set_.alts| && Deref(p) == a :: p in arr)
  }

  /** `delarray`: the last entry takes the place of entry `i`. */
  method DelArray(arr: seq<AltPtr>, i: nat) returns (r: seq<AltPtr>)
    requires i < |arr| && NoDup(arr)
    ensures |r| == |arr| - 1 && NoDup(r)
    ensures forall p :: p in r <==> p in arr && p != arr[i]
  {
    r := SwapRemove(arr, i);
    SwapRemoved(arr, i);
  }

  /** The bookkeeping of alternation: the wait arrays of every channel (`asend` of
      channel `c` is the array of `Snd(c)`, `arecv` that of `Rcv(c)`), the fields
      `task` and `xalt` of every Alt entry and, as proof state, the Alt sets of the
      blocked tasks, the entry that was run for every task made ready but not yet
      resumed, and the entries now present in some wait array. */
  datatype Book = Book(
    chans: set<Channel>,
    arrays: map<Alt<Channel>, seq<AltPtr>>,
    task: map<AltPtr, Task>,
    xalt: map<AltPtr, AltPtr>,
    sets: map<Task, AltSet>,
    woken: map<Task, AltPtr>,
    regs: set<AltPtr>)

  ghost predicate Proper(chans: set<Channel>, p: AltPtr) {
    p.idx < |p.set_.alts| && !Deref(p).Nop? && Deref(p).c in chans
  }

  /** Each registered entry is once in the array matching its channel and operation,
      and the arrays hold nothing else. */
  ghost predicate Arrays(chans: set<Channel>, arrays: map<Alt<Channel>, seq<AltPtr>>, regs: set<AltPtr>) {
    && (forall a | a in arrays :: !a.Nop? && a.c in chans && Lists(arrays[a], a, regs))
    && (forall c | c in chans :: Snd(c) in arrays && Rcv(c) in arrays)
    && (forall p | p in regs :: Proper(chans, p))
  }

  /** What a blocked task has registered: every alternative but the CHANNOP ones. */
  ghost function Own(b: AltSet): set<AltPtr> {
    Upto(b, |b.alts|)
  }

  ghost function Upto(b: AltSet, i: nat): set<AltPtr>
    requires i <= |b.alts|
  {
    set j | 0 <= j < i && !b.alts[j].Nop? :: AltPtr(b, j)
  }

  lemma Without<T>(s: set<T>, a: set<T>, x: T)
    ensures (s - a) - {x} == s - (a + {x})
  {
  }

  lemma UptoNone(b: AltSet)
    ensures Upto(b, 0) == {}
  {
  }

  lemma UptoNext(b: AltSet, i: nat)
    requires i < |b.alts|
    ensures Upto(b, i + 1) == Upto(b, i) + if b.alts[i].Nop? then {} else {AltPtr(b, i)}
    ensures !b.alts[i].Nop? ==> AltPtr(b, i) in Own(b) && AltPtr(b, i) !in Upto(b, i)
  {
  }

  ghost function Rings(chans: set<Channel>): set<array<byte>> {
    set c | c in chans :: c.buf
  }

  /** The data pointers of an Alt set stay clear of the rings. */
  ghost predicate Clear(chans: set<Channel>, b: AltSet) {
    && b.WellFormed()
    && (forall j | 0 <= j < |b.alts| && !b.alts[j].Nop? :: b.alts[j].c in chans)
    && (forall j | 0 <= j < |b.alts| :: b.v[j] != null ==> b.v[j] !in Rings(chans))
  }

  /** The entries of an Alt set as `chanalt` leaves them when it blocks. */
  ghost predicate Filled(task: map<AltPtr, Task>, xalt: map<AltPtr, AltPtr>, u: Task, b: AltSet) {
    forall j: nat | j < |b.alts| ::
      var p := AltPtr(b, j);
      p in task && task[p] == u && p in xalt && xalt[p] == AltPtr(b, 0)
  }

  /** The tasks that `blocked` says are blocked have their entries registered, and no
      other entries are. */
  ghost predicate Blocked(k: Book, blocked: map<Task, seq<Alt<Channel>>>) {
    && blocked.Keys == k.sets.Keys
    && (forall u | u in k.sets :: blocked[u] == k.sets[u].alts)
    && (forall u | u in k.sets :: Clear(k.chans, k.sets[u]))
    && (forall u | u in k.sets :: Filled(k.task, k.xalt, u, k.sets[u]))
    && (forall u | u in k.sets :: Own(k.sets[u]) <= k.regs)
    && (forall u, w | u in k.sets && w in k.sets && u != w :: k.sets[u] != k.sets[w])
    && (forall p | p in k.regs :: p in k.task && k.task[p] in k.sets && k.sets[k.task[p]] == p.set_)
  }

  ghost predicate Noted(k: Book, p: AltPtr) {
    p.idx < |p.set_.alts| && AltPtr(p.set_, 0) in k.xalt && k.xalt[AltPtr(p.set_, 0)] == p
  }

  /** A task made ready finds in `xalt` of its first entry the one that was run. */
  ghost predicate Woken(k: Book) {
    && k.woken.Keys !! k.sets.Keys
    && (forall u | u in k.woken :: Noted(k, k.woken[u]))
    && (forall u, w | u in k.woken && w in k.sets :: k.woken[u].set_ != k.sets[w])
    && (forall u, w | u in k.woken && w in k.woken && u != w :: k.woken[u].set_ != k.woken[w].set_)
  }

  ghost predicate Sound(k: Book, blocked: map<Task, seq<Alt<Channel>>>) {
    Arrays(k.chans, k.arrays, k.regs) && Blocked(k, blocked) && Woken(k)
  }

  // --------------------------------------------------- steps of the bookkeeping

  lemma ListsElsewhere(arr: seq<AltPtr>, a: Alt<Channel>, regs: set<AltPtr>, p: AltPtr)
    requires Lists(arr, a, regs) && p.idx < |p.set_.alts| && Deref(p) != a
    ensures Lists(arr, a, regs + {p}) && Lists(arr, a, regs - {p})
  {
  }

  lemma EntryListed(arr: seq<AltPtr>, regs: set<AltPtr>, p: AltPtr)
    requires p.idx < |p.set_.alts| && Lists(arr, Deref(p), regs) && p !in regs
    ensures Lists(arr + [p], Deref(p), regs + {p})
  {
  }

  lemma EntryUnlisted(arr: seq<AltPtr>, regs: set<AltPtr>, p: AltPtr, arr': seq<AltPtr>)
    requires p.idx < |p.set_.alts| && Lists(arr, Deref(p), regs)
    requires NoDup(arr') && forall q :: q in arr' <==> q in arr && q != p
    ensures Lists(arr', Deref(p), regs - {p})
  {
  }

  /** `addarray` on the array of `p`. */
  lemma EntryAdded(chans: set<Channel>, arrays: map<Alt<Channel>, seq<AltPtr>>, regs: set<AltPtr>, p: AltPtr)
    requires Arrays(chans, arrays, regs) && Proper(chans, p) && p !in regs
    ensures Arrays(chans, arrays[Deref(p) := arrays[Deref(p)] + [p]], regs + {p})
  {
    EntryListed(arrays[Deref(p)], regs, p);
    hide Lists;
    forall a | a in arrays && a != Deref(p) ensures Lists(arrays[a], a, regs + {p}) {
      ListsElsewhere(arrays[a], a, regs, p);
    }
  }

  /** `delarray` on the array of `p`. */
  lemma EntryRemoved(chans: set<Channel>, arrays: map<Alt<Channel>, seq<AltPtr>>, regs: set<AltPtr>, p: AltPtr,
                     arr: seq<AltPtr>)
    requires Arrays(chans, arrays, regs) && p in regs
    requires NoDup(arr) && forall q :: q in arr <==> q in arrays[Deref(p)] && q != p
    ensures Arrays(chans, arrays[Deref(p) := arr], regs - {p})
  {
    EntryUnlisted(arrays[Deref(p)], regs, p, arr);
    hide Lists;
    forall a | a in arrays && a != Deref(p) ensures Lists(arrays[a], a, regs - {p}) {
      ListsElsewhere(arrays[a], a, regs, p);
    }
  }

  lemma OwnApart(b: AltSet, d: AltSet)
    requires b != d
    ensures Own(b) !! Own(d)
  {
  }

  lemma BlockedWithout(k: Book, blocked: map<Task, seq<Alt<Channel>>>, q: AltPtr, k': Book)
    requires Blocked(k, blocked) && q in k.regs
    requires forall p | p in k.regs :: Proper(k.chans, p)
    requires k'.chans == k.chans && k'.task == k.task && k'.xalt == k.xalt[AltPtr(q.set_, 0) := q]
    requires k'.regs == k.regs - Own(q.set_) && k'.sets == k.sets - {k.task[q]}
    ensures Blocked(k', blocked - {k.task[q]})
  {
    var u := k.task[q];
    forall p | p in k'.regs ensures k'.task[p] in k'.sets && k'.sets[k'.task[p]] == p.set_ {
      assert k.task[p] != u by { assert p !in Own(q.set_); }
    }
    forall w | w in k'.sets ensures Own(k'.sets[w]) <= k'.regs {
      OwnApart(k.sets[w], q.set_);
    }
    forall w | w in k'.sets ensures Filled(k'.task, k'.xalt, w, k'.sets[w]) {
      assert Filled(k.task, k.xalt, w, k.sets[w]);
    }
  }

  lemma WokenWith(k: Book, q: AltPtr, k': Book)
    requires Woken(k) && q in k.task && k.task[q] in k.sets && k.sets[k.task[q]] == q.set_ && q.idx < |q.set_.alts|
    requires forall u, w | u in k.sets && w in k.sets && u != w :: k.sets[u] != k.sets[w]
    requires k'.xalt == k.xalt[AltPtr(q.set_, 0) := q]
    requires k'.sets == k.sets - {k.task[q]} && k'.woken == k.woken[k.task[q] := q]
    ensures Woken(k')
  {
    forall w | w in k'.woken ensures Noted(k', k'.woken[w]) {
      if w != k.task[q] { assert Noted(k, k.woken[w]); }
    }
  }

  /** The task that registered `q` leaves the blocked tasks, with all its entries, for
      the woken ones. */
  lemma PartnerWoken(k: Book, blocked: map<Task, seq<Alt<Channel>>>, q: AltPtr, arrays: map<Alt<Channel>, seq<AltPtr>>)
    requires Sound(k, blocked) && q in k.regs
    requires Arrays(k.chans, arrays, k.regs - Own(q.set_))
    ensures var u := k.task[q];
            Sound(Book(k.chans, arrays, k.task, k.xalt[AltPtr(q.set_, 0) := q],
                       k.sets - {u}, k.woken[u := q], k.regs - Own(q.set_)), blocked - {u})
  {
    var u := k.task[q];
    var k' := Book(k.chans, arrays, k.task, k.xalt[AltPtr(q.set_, 0) := q], k.sets - {u}, k.woken[u := q],
                   k.regs - Own(q.set_));
    hide Lists, Clear, Filled, Noted, Own;
    BlockedWithout(k, blocked, q, k');
    WokenWith(k, q, k');
  }

  lemma BlockedWith(k: Book, blocked: map<Task, seq<Alt<Channel>>>, u: Task, b: AltSet, k': Book)
    requires Blocked(k, blocked) && Fresh(k.sets, k.woken, u, b) && Clear(k.chans, b) && Filled(k'.task, k'.xalt, u, b)
    requires k'.chans == k.chans && OthersKept(k, b, k')
    requires k'.regs == k.regs + Own(b) && k'.sets == k.sets[u := b]
    ensures Blocked(k', blocked[u := b.alts])
  {
    forall w | w in k'.sets ensures Filled(k'.task, k'.xalt, w, k'.sets[w]) {
      if w != u { assert Filled(k.task, k.xalt, w, k.sets[w]); }
    }
    forall p | p in k'.regs ensures p in k'.task && k'.task[p] in k'.sets && k'.sets[k'.task[p]] == p.set_ {
      if p in Own(b) {
        assert k'.task[p] == u;
      }
    }
  }

  lemma WokenKept(k: Book, u: Task, b: AltSet, k': Book)
    requires Woken(k) && Fresh(k.sets, k.woken, u, b) && OthersKept(k, b, k')
    requires k'.woken == k.woken && (k'.sets == k.sets[u := b] || k'.sets == k.sets)
    ensures Woken(k')
  {
    forall w | w in k.woken ensures Noted(k', k.woken[w]) {
      assert Noted(k, k.woken[w]);
    }
  }

  /** Task `u` has offered `b`, filled its entries and registered them. */
  lemma CallerBlocked(k: Book, blocked: map<Task, seq<Alt<Channel>>>, u: Task, b: AltSet, k': Book)
    requires Sound(k, blocked) && Fresh(k.sets, k.woken, u, b) && Clear(k.chans, b)
    requires Arrays(k'.chans, k'.arrays, k'.regs) && Filled(k'.task, k'.xalt, u, b)
    requires k' == k.(arrays := k'.arrays, task := k'.task, xalt := k'.xalt,
                      regs := k.regs + Own(b), sets := k.sets[u := b])
    requires OthersKept(k, b, k')
    ensures Sound(k', blocked[u := b.alts])
  {
    hide Arrays, Blocked, Woken, OthersKept, Filled, Own, Clear;
    BlockedWith(k, blocked, u, b, k');
    WokenKept(k, u, b, k');
  }

  /** What is known of the task that registered `q`. */
  lemma Registrant(k: Book, blocked: map<Task, seq<Alt<Channel>>>, q: AltPtr)
    requires Arrays(k.chans, k.arrays, k.regs) && Blocked(k, blocked) && q in k.regs
    ensures Proper(k.chans, q) && q in k.task && q in k.xalt && k.xalt[q] == AltPtr(q.set_, 0)
    ensures k.task[q] in k.sets && k.sets[k.task[q]] == q.set_ && Own(q.set_) <= k.regs
  {
    assert Filled(k.task, k.xalt, k.task[q], q.set_);
  }

  lemma RegistrantClear(k: Book, blocked: map<Task, seq<Alt<Channel>>>, q: AltPtr)
    requires Blocked(k, blocked) && q in k.regs
    ensures q in k.task && k.task[q] in k.sets && Clear(k.chans, k.sets[k.task[q]])
  {
  }

  /** The entries of Alt sets other than `b` are as before. */
  ghost predicate OthersKept(k: Book, b: AltSet, k': Book) {
    && (forall p | p in k.task && p.set_ != b :: p in k'.task && k'.task[p] == k.task[p])
    && (forall p | p in k.xalt && p.set_ != b :: p in k'.xalt && k'.xalt[p] == k.xalt[p])
  }

  /** Filling in the entries of a fresh Alt set disturbs nobody. */
  lemma CallerFilled(k: Book, blocked: map<Task, seq<Alt<Channel>>>, u: Task, b: AltSet, k': Book)
    requires Sound(k, blocked) && Fresh(k.sets, k.woken, u, b)
    requires k' == k.(task := k'.task, xalt := k'.xalt) && OthersKept(k, b, k')
    ensures Sound(k', blocked)
  {
    forall w | w in k.sets ensures Filled(k'.task, k'.xalt, w, k.sets[w]) {
      assert Filled(k.task, k.xalt, w, k.sets[w]);
    }
    WokenKept(k, u, b, k');
  }

  /** The first `i` entries are filled in. */
  ghost predicate FilledTo(task: map<AltPtr, Task>, xalt: map<AltPtr, AltPtr>, u: Task, b: AltSet, i: nat) {
    forall j: nat | j < i ::
      var p := AltPtr(b, j);
      p in task && task[p] == u && p in xalt && xalt[p] == AltPtr(b, 0)
  }

  lemma NoneFilled(k: Book, b: AltSet, u: Task)
    ensures OthersKept(k, b, k) && FilledTo(k.task, k.xalt, u, b, 0)
  {
  }

  lemma NextFilled(k0: Book, b: AltSet, u: Task, i: nat, k: Book)
    requires OthersKept(k0, b, k) && FilledTo(k.task, k.xalt, u, b, i)
    ensures var p := AltPtr(b, i);
            var k' := k.(task := k.task[p := u], xalt := k.xalt[p := AltPtr(b, 0)]);
            OthersKept(k0, b, k') && FilledTo(k'.task, k'.xalt, u, b, i + 1)
  {
  }

  lemma AllFilled(task: map<AltPtr, Task>, xalt: map<AltPtr, AltPtr>, u: Task, b: AltSet)
    requires FilledTo(task, xalt, u, b, |b.alts|)
    ensures Filled(task, xalt, u, b)
  {
  }

  /** Task `u` is running and `b` is not in use by another call. */
  ghost predicate Fresh(sets: map<Task, AltSet>, woken: map<Task, AltPtr>, u: Task, b: AltSet) {
    && u !in sets && u !in woken
    && (forall w | w in sets :: sets[w] != b)
    && (forall w | w in woken :: woken[w].set_ != b)
  }

  /** Somebody is in the wait array of `a` exactly if somebody waits for `a`. */
  lemma ArrayMeansWaiting<E>(k: Book, s: State<Task, Channel, E>, a: Alt<Channel>)
    requires Arrays(k.chans, k.arrays, k.regs) && Blocked(k, s.blocked) && !a.Nop? && a.c in k.chans
    ensures k.arrays[a] != [] <==> SomeoneWaits(s, a)
    ensures forall p | p in k.arrays[a] ::
              && p in k.regs && p in k.task && k.task[p] in k.sets && k.sets[k.task[p]] == p.set_
              && Waits(s, k.task[p], p.idx, a)
  {
    var ar := k.arrays[a];
    if ar != [] {
      assert ar[0] in ar;
      assert Waits(s, k.task[ar[0]], ar[0].idx, a);
    }
    forall u, j | Waits(s, u, j, a) ensures k.arrays[a] != [] {
      assert AltPtr(k.sets[u], j) in Own(k.sets[u]);
    }
  }

  lemma ArraysOf(chans: set<Channel>, arrays: map<Alt<Channel>, seq<AltPtr>>, regs: set<AltPtr>, c: Channel)
    requires Arrays(chans, arrays, regs) && c in chans
    ensures Snd(c) in arrays && Rcv(c) in arrays && Lists(arrays[Snd(c)], Snd(c), regs)
    ensures Lists(arrays[Rcv(c)], Rcv(c), regs)
  {
  }

  lemma OwnProper(chans: set<Channel>, arrays: map<Alt<Channel>, seq<AltPtr>>, regs: set<AltPtr>, b: AltSet)
    requires Arrays(chans, arrays, regs) && Own(b) <= regs
    ensures forall j: nat | j < |b.alts| && !b.alts[j].Nop? :: Proper(chans, AltPtr(b, j))
  {
    forall j: nat | j < |b.alts| && !b.alts[j].Nop? ensures Proper(chans, AltPtr(b, j)) { UptoNext(b, j); }
  }

  /** A new channel joins with two empty wait arrays. */
  lemma BookGrown(k: Book, blocked: map<Task, seq<Alt<Channel>>>, c: Channel)
    requires Sound(k, blocked) && c !in k.chans
    requires forall u, j | u in k.sets && 0 <= j < |k.sets[u].v| :: k.sets[u].v[j] != null ==> k.sets[u].v[j] != c.buf
    ensures Sound(k.(chans := k.chans + {c}, arrays := k.arrays[Snd(c) := []][Rcv(c) := []]), blocked)
  {
    ArraysGrown(k.chans, k.arrays, k.regs, c);
    hide Arrays, Own, Filled, Noted;
    forall u | u in k.sets ensures Clear(k.chans + {c}, k.sets[u]) {
      assert Clear(k.chans, k.sets[u]);
    }
  }

  lemma ArraysGrown(chans: set<Channel>, arrays: map<Alt<Channel>, seq<AltPtr>>, regs: set<AltPtr>, c: Channel)
    requires Arrays(chans, arrays, regs) && c !in chans
    ensures Arrays(chans + {c}, arrays[Snd(c) := []][Rcv(c) := []], regs)
  {
    assert forall p | p in regs :: Proper(chans, p);
  }

  lemma RingsGrown(chans: set<Channel>, cap: map<Channel, nat>, buf: map<Channel, seq<seq<byte>>>, c: Channel)
    requires RingsAs(chans, cap, buf) && c !in chans && c.buf !in Rings(chans)
    requires c.RingOk() && c.Contents() == []
    ensures RingsAs(chans + {c}, cap[c := c.bufsize], buf[c := []])
  {
  }

  lemma OwnNew(k: Book, blocked: map<Task, seq<Alt<Channel>>>, u: Task, b: AltSet)
    requires Blocked(k, blocked) && Fresh(k.sets, k.woken, u, b)
    ensures Own(b) !! k.regs && u !in blocked
  {
  }

  lemma NotBlocked(k: Book, blocked: map<Task, seq<Alt<Channel>>>, u: Task, b: AltSet)
    requires Sound(k, blocked) && Fresh(k.sets, k.woken, u, b)
    ensures u !in blocked
  {
  }

  lemma RunsSteps<T, C, E>(s: State<T, C, E>, t: T, alts: seq<Alt<C>>, canblock: bool, i: nat, who: Option<(T, nat)>,
                           x: E, s': State<T, C, E>)
    requires AllKnown(s, alts) && i < |alts| && CanExec(s, alts[i]) && Meets(s, alts[i], who)
    requires Moved(s, alts[i], who, x, s')
    ensures Steps(s, t, alts, canblock, Runs(i, who), x, s')
  {
  }

  lemma IdleSteps<T, C, E>(s: State<T, C, E>, t: T, alts: seq<Alt<C>>, canblock: bool, o: Outcome<T>, x: E,
                           s': State<T, C, E>)
    requires AllKnown(s, alts) && forall j | 0 <= j < |alts| :: !CanExec(s, alts[j])
    requires if canblock then o.Blocks? && s' == s.(blocked := s.blocked[t := alts]) else o.WouldBlock? && s' == s
    ensures Steps(s, t, alts, canblock, o, x, s')
  {
  }

  // ------------------------------------------------------------ the channel system

  /** Every ring is sound and holds the elements that `buf` says. */
  ghost predicate RingsAs(chans: set<Channel>, cap: map<Channel, nat>, buf: map<Channel, seq<seq<byte>>>)
    reads chans, Rings(chans)
  {
    && cap.Keys == buf.Keys == chans
    && (forall c | c in chans :: c.RingOk() && cap[c] == c.bufsize && buf[c] == c.Contents())
    && (forall c, d | c in chans && d in chans && c != d :: c.buf != d.buf)
  }

  /** A call of `chanalt` returns an index or -1, or switches away to wait. */
  datatype Result = Returned(i: int) | Switched

  /** All channels and all tasks inside `chanalt`. */
  class ChanSys {
    ghost var chans: set<Channel>
    var arrays: map<Alt<Channel>, seq<AltPtr>>
    var task: map<AltPtr, Task>
    var xalt: map<AltPtr, AltPtr>
    ghost var sets: map<Task, AltSet>
    ghost var woken: map<Task, AltPtr>
    ghost var regs: set<AltPtr>
    /** The calls of `taskready` made so far; `ChanTasks` passes them on to the scheduler. */
    var readied: seq<Task>
    /** The state of the specification this system is in. */
    ghost var st: State<Task, Channel, seq<byte>>

    ghost function K(): Book
      reads this`chans, this`arrays, this`task, this`xalt, this`sets, this`woken, this`regs
    {
      Book(chans, arrays, task, xalt, sets, woken, regs)
    }

    ghost predicate Valid()
      reads this, chans, Rings(chans)
    {
      RingsAs(chans, st.cap, st.buf) && Sound(K(), st.blocked) && Inv(st)
    }

    constructor ()
      ensures Valid() && chans == {} && st.blocked == map[] && woken == map[]
    {
      chans, arrays, task, xalt, sets, woken, regs := {}, map[], map[], map[], map[], map[], {};
      readied := [];
      st := State(map[], map[], map[]);
    }

    /** Allocating a channel disturbs no ring. */
    method Allocate(elemsize: nat, bufsize: nat) returns (c: Channel)
      requires RingsAs(chans, st.cap, st.buf)
      ensures fresh(c) && fresh(c.buf) && c.elemsize == elemsize
      ensures RingsAs(chans + {c}, st.cap[c := bufsize], st.buf[c := []])
    {
      c := new Channel(elemsize, bufsize);
      RingsGrown(chans, st.cap, st.buf, c);
    }

    /** `chancreate` adds an empty channel that nobody waits on. */
    method NewChannel(elemsize: nat, bufsize: nat) returns (c: Channel)
      requires Valid()
      modifies this`chans, this`arrays, this`st
      ensures Valid() && fresh(c) && fresh(c.buf) && chans == old(chans) + {c}
      ensures c.elemsize == elemsize
      ensures st == old(st).(cap := old(st).cap[c := bufsize], buf := old(st).buf[c := []])
    {
      hide Sound, Inv, Clear, RingsAs;
      c := Allocate(elemsize, bufsize);
      BookGrown(K(), st.blocked, c);
      NewChannelKeepsInv(st, c, bufsize);
      chans := chans + {c};
      Apart();
      arrays := arrays[Snd(c) := []][Rcv(c) := []];
      st := st.(cap := st.cap[c := bufsize], buf := st.buf[c := []]);
    }

    // ------------------------------------------------------- queueing and dequeueing

    /** `altqueue` with `addarray` */
    method AltQueue(p: AltPtr)
      requires Arrays(chans, arrays, regs) && Proper(chans, p) && p !in regs
      modifies this`regs, this`arrays
      ensures Arrays(chans, arrays, regs) && regs == old(regs) + {p}
    {
      hide Arrays;
      ArraysOf(chans, arrays, regs, Deref(p).c);
      EntryAdded(chans, arrays, regs, p);
      arrays := arrays[Deref(p) := arrays[Deref(p)] + [p]];
      regs := regs + {p};
    }

    /** `altdequeue`: the search always finds the entry. */
    method AltDequeue(p: AltPtr)
      requires Arrays(chans, arrays, regs) && p in regs && Proper(chans, p)
      modifies this`regs, this`arrays
      ensures Arrays(chans, arrays, regs) && regs == old(regs) - {p}
    {
      var ar := arrays[Deref(p)];
      assert p in ar;
      var i := 0;
      while i < |ar|
        invariant i <= |ar| && p !in ar[..i]
        invariant arrays == old(arrays) && regs == old(regs)
      {
        if ar[i] == p {
          var r := DelArray(ar, i);
          EntryRemoved(chans, arrays, regs, p, r);
          hide Arrays;
          arrays := arrays[Deref(p) := r];
          regs := regs - {p};
          return;
        }
        i := i + 1;
      }
      assert false;  // abort
    }

    /** `altalldequeue`: takes all entries of an Alt set out of the wait arrays. */
    method AltAllDequeue(q: AltPtr)
      requires q.idx == 0 && Arrays(chans, arrays, regs) && Own(q.set_) <= regs
      modifies this`regs, this`arrays
      ensures Arrays(chans, arrays, regs) && regs == old(regs) - Own(q.set_)
    {
      var b := q.set_;
      var i := 0;
      hide Arrays, Upto;
      OwnProper(chans, arrays, regs, b);
      UptoNone(b);
      while i < |b.alts|
        invariant i <= |b.alts| && Arrays(chans, arrays, regs)
        invariant regs == old(regs) - Upto(b, i)
      {
        UptoNext(b, i);
        if !b.alts[i].Nop? {
          Without(old(regs), Upto(b, i), AltPtr(b, i));
          AltDequeue(AltPtr(b, i));
        }
        i := i + 1;
      }
    }

    // --------------------------------------------------------------------- altexec

    /** The entry of the wait array that a random number selects, if there is any. */
    function Pick(a: Alt<Channel>, rnd: nat): Option<AltPtr>
      reads this`arrays
    {
      if Other(a) in arrays && |arrays[Other(a)]| > 0
      then Some(arrays[Other(a)][rnd % |arrays[Other(a)]|]) else None
    }

    /** Every waiting entry is what some random number selects. */
    lemma PickReaches(a: Alt<Channel>, q: AltPtr)
      requires Other(a) in arrays && q in arrays[Other(a)]
      ensures exists rnd: nat :: Pick(a, rnd) == Some(q)
    {
      var rnd: nat :| rnd < |arrays[Other(a)]| && arrays[Other(a)][rnd] == q;
      assert Pick(a, rnd) == Some(q);
    }

    /** The blocked task, and its alternative, that `altexec` meets. */
    ghost function Who(a: Alt<Channel>, rnd: nat): Option<(Task, nat)>
      reads this`task, this`arrays
    {
      match Pick(a, rnd)
      case None => None
      case Some(q) => if q in task then Some((task[q], q.idx)) else None
    }

    /** A copy disturbs no other ring. */
    method CopyOn(p: AltPtr, other: Option<AltPtr>) returns (ghost x: seq<byte>)
      requires RingsAs(chans, st.cap, st.buf) && Points(p) && !Deref(p).Nop? && Deref(p).c in chans
      requires Deref(p).c.Pair(p, other)
      requires Dest(p, other) != null ==> Dest(p, other) !in Rings(chans)
      requires Receives(Deref(p), other.Some?) && !Sends(Deref(p), other.Some?) ==> Deref(p).c.nbuf > 0
      requires Sends(Deref(p), other.Some?) && !Receives(Deref(p), other.Some?) ==> Deref(p).c.nbuf < Deref(p).c.bufsize
      modifies Deref(p).c`nbuf, Deref(p).c`off, Deref(p).c.buf, Cell(Dest(p, other))
      ensures x == if Sends(Deref(p), other.Some?) then old(Deref(p).c.Committed(p, other)) else []
      ensures Receives(Deref(p), other.Some?) ==>
                Queue(old(Deref(p).c.Contents()), Sends(Deref(p), other.Some?), x) != []
      ensures var a, c := Deref(p), Deref(p).c;
              && c.RingOk()
              && c.Contents() == AfterMove(old(c.Contents()), Sends(a, other.Some?), Receives(a, other.Some?), x)
              && c in st.buf && RingsAs(chans, st.cap, st.buf[c := c.Contents()]) && old(c.Contents()) == st.buf[c]
      ensures Delivered(st, p, other, x)
    {
      hide AfterMove;
      var c := Deref(p).c;
      x := if Sends(Deref(p), other.Some?) then c.Committed(p, other) else [];
      c.AltCopy(p, other);
      forall d | d in chans && d != c ensures d.RingOk() && d.Contents() == old(d.Contents()) {
        assert d.buf != c.buf;
      }
    }

    /** A copy changes one channel and the receiver's memory. */
    method CopyData(p: AltPtr, other: Option<AltPtr>) returns (ghost x: seq<byte>)
      requires RingsAs(chans, st.cap, st.buf) && Points(p) && !Deref(p).Nop? && Deref(p).c in chans
      requires Deref(p).c.Pair(p, other)
      requires Dest(p, other) != null ==> Dest(p, other) !in Rings(chans)
      requires Receives(Deref(p), other.Some?) && !Sends(Deref(p), other.Some?) ==> Deref(p).c.nbuf > 0
      requires Sends(Deref(p), other.Some?) && !Receives(Deref(p), other.Some?) ==> Deref(p).c.nbuf < Deref(p).c.bufsize
      modifies this`st, Deref(p).c`nbuf, Deref(p).c`off, Deref(p).c.buf, Cell(Dest(p, other))
      ensures RingsAs(chans, st.cap, st.buf)
      ensures x == if Sends(Deref(p), other.Some?) then old(Deref(p).c.Committed(p, other)) else []
      ensures Receives(Deref(p), other.Some?) ==> Queue(old(st).buf[Deref(p).c], Sends(Deref(p), other.Some?), x) != []
      ensures var a, c := Deref(p), Deref(p).c;
              var sends, receives := Sends(a, other.Some?), Receives(a, other.Some?);
              st == old(st).(buf := old(st).buf[c := AfterMove(old(st).buf[c], sends, receives, x)])
      ensures Delivered(old(st), p, other, x)
    {
      hide RingsAs, Delivered, AfterMove, Queue;
      var c := Deref(p).c;
      Apart();
      x := CopyOn(p, other);
      st := st.(buf := st.buf[c := c.Contents()]);
    }

    /** The rest of `altexec`: takes the partner's entries out of all wait arrays, notes
        in its first entry which one was run, and makes its task ready. */
    method WakePartner(q: AltPtr)
      requires RingsAs(chans, st.cap, st.buf) && Sound(K(), st.blocked) && q in regs
      modifies this`regs, this`sets, this`woken, this`readied, this`st, this`xalt, this`arrays
      ensures RingsAs(chans, st.cap, st.buf) && Sound(K(), st.blocked)
      ensures var u := old(task)[q];
              && u in old(sets) && old(sets)[u] == q.set_ && sets == old(sets) - {u}
              && woken == old(woken)[u := q] && readied == old(readied) + [u]
              && st == old(st).(blocked := old(st).blocked - {u})
    {
      hide RingsAs, Arrays, Blocked, Woken, Own, Filled, Proper;
      Apart();
      Registrant(K(), st.blocked, q);
      ghost var k, b, u := K(), st.blocked, task[q];
      AltAllDequeue(xalt[q]);
      PartnerWoken(k, b, q, arrays);
      var first := xalt[q];
      xalt := xalt[first := q];
      readied := readied + [task[q]];
      sets, woken := sets - {u}, woken[u := q];
      st := st.(blocked := b - {u});
    }

    /** What `Who` says is what the specification says about waiting tasks. */
    lemma WhoWaits(a: Alt<Channel>, rnd: nat)
      requires Arrays(chans, arrays, regs) && Blocked(K(), st.blocked) && !a.Nop? && a.c in chans
      ensures Who(a, rnd).Some? <==> Pick(a, rnd).Some?
      ensures Meets(st, a, Who(a, rnd))
      ensures Who(a, rnd).Some? ==>
                var w := Who(a, rnd).value;
                && w.0 in sets && Pick(a, rnd).value == AltPtr(sets[w.0], w.1) && Clear(chans, sets[w.0])
                && Pick(a, rnd).value in regs && w.1 < |sets[w.0].alts| && sets[w.0].alts[w.1] == Other(a)
    {
      hide Arrays, Blocked, Clear;
      ArraysOf(chans, arrays, regs, a.c);
      ArrayMeansWaiting(K(), st, Other(a));
      var ar := arrays[Other(a)];
      if |ar| > 0 {
        var q := ar[rnd % |ar|];
        assert q in ar;
        RegistrantClear(K(), st.blocked, q);
      }
    }

    /** Task `t` runs, outside `chanalt`, and offers the fresh Alt set `a`. */
    ghost predicate Calls(t: Task, a: AltSet)
      reads this`chans, this`sets, this`woken
    {
      Fresh(sets, woken, t, a) && Clear(chans, a)
    }

    /** The two entries that meet fit together ... */
    lemma PairFits(p: AltPtr, t: Task, rnd: nat)
      requires Valid() && Calls(t, p.set_) && p.idx < |p.set_.alts| && Known(st, Deref(p)) && CanExec(st, Deref(p))
      ensures var a := Deref(p);
              && a.c in chans && Ready(p, rnd)
              && (Dest(p, Pick(a, rnd)) != null ==> Dest(p, Pick(a, rnd)) !in Rings(chans))
    {
      hide Inv, Arrays, Blocked, Woken, Meets;
      RingOf(Deref(p).c);
      WhoWaits(Deref(p), rnd);
      hide Sound;
    }

    /** ... and the ring can do its part. */
    lemma PairReady(p: AltPtr, t: Task, rnd: nat)
      requires Valid() && Calls(t, p.set_) && p.idx < |p.set_.alts| && Known(st, Deref(p)) && CanExec(st, Deref(p))
      ensures var a := Deref(p);
              && a.c in chans && a.c in st.buf && Ready(p, rnd)
              && var other := Pick(a, rnd);
                 && a.c.Pair(p, other)
                 && (Dest(p, other) != null ==> Dest(p, other) !in Rings(chans))
                 && (Receives(a, other.Some?) && !Sends(a, other.Some?) ==> a.c.nbuf > 0)
                 && (Sends(a, other.Some?) && !Receives(a, other.Some?) ==> a.c.nbuf < a.c.bufsize)
    {
      PairFits(p, t, rnd);
      WhoWaits(Deref(p), rnd);
      hide Sound, Calls;
    }

    /** Alternative `p` can be executed by the task that calls with its Alt set. */
    ghost predicate Ready(p: AltPtr, rnd: nat)
      reads this`st, this`arrays, this`chans, chans, Rings(chans)
    {
      && p.idx < |p.set_.alts| && Known(st, Deref(p)) && CanExec(st, Deref(p))
      && Deref(p).c in chans && Deref(p).c.RingOk() && Deref(p).c.Pair(p, Pick(Deref(p), rnd))
    }

    /** The entry that alternative `p` meets */
    ghost function Met(p: AltPtr, rnd: nat): Option<AltPtr>
      reads this`arrays
    {
      if p.idx < |p.set_.alts| then Pick(Deref(p), rnd) else None
    }

    /** The element that `altexec` commits, if it has a sender. */
    ghost function Elem(p: AltPtr, rnd: nat): seq<byte>
      requires Ready(p, rnd)
      reads this`st, this`arrays, this`chans, chans, Rings(chans), Cell(Source(p, Pick(Deref(p), rnd)))
    {
      var other := Pick(Deref(p), rnd);
      if Sends(Deref(p), other.Some?) then Deref(p).c.Committed(p, other) else []
    }

    /** `altexec` up to the copy; `who` is the task that it meets. */
    method MeetAndCopy(p: AltPtr, ghost t: Task, rnd: nat) returns (ghost who: Option<(Task, nat)>, ghost x: seq<byte>)
      requires Valid() && Calls(t, p.set_) && Ready(p, rnd)
      modifies this`st
      modifies Deref(p).c`nbuf, Deref(p).c`off, Deref(p).c.buf, Cell(Dest(p, Pick(Deref(p), rnd)))
      ensures RingsAs(chans, st.cap, st.buf) && st.blocked == old(st).blocked
      ensures who == Who(Deref(p), rnd) && (who.Some? <==> Pick(Deref(p), rnd).Some?) && Meets(old(st), Deref(p), who)
      ensures Names(sets, Pick(Deref(p), rnd), who) && (who.Some? ==> Pick(Deref(p), rnd).value in regs)
      ensures x == old(Elem(p, rnd)) && Delivered(old(st), p, Pick(Deref(p), rnd), x)
      ensures var a, c := Deref(p), Deref(p).c;
              && c in old(st).buf
              && (Receives(a, who.Some?) ==> Queue(old(st).buf[c], Sends(a, who.Some?), x) != [])
              && var sends, receives := Sends(a, who.Some?), Receives(a, who.Some?);
                 st == old(st).(buf := old(st).buf[c := AfterMove(old(st).buf[c], sends, receives, x)])
    {
      hide Arrays, Blocked, Woken, RingsAs, Inv, Calls, CanExec, Waits, SomeoneWaits, Known, Meets, AfterMove,
           Delivered;
      PairReady(p, t, rnd);
      WhoWaits(Deref(p), rnd);
      who := Who(Deref(p), rnd);
      x := CopyData(p, Pick(Deref(p), rnd));
    }

    /** `altexec`: runs one executable alternative, together with the waiting entry that
        the random number selects, whose task becomes ready. */
    method AltExec(p: AltPtr, ghost t: Task, rnd: nat) returns (ghost who: Option<(Task, nat)>, ghost x: seq<byte>)
      requires Valid() && Calls(t, p.set_) && Ready(p, rnd)
      modifies this`regs, this`sets, this`woken, this`readied, this`st, this`xalt, this`arrays
      modifies Deref(p).c`nbuf, Deref(p).c`off, Deref(p).c.buf, Cell(Dest(p, Pick(Deref(p), rnd)))
      ensures RingsAs(chans, st.cap, st.buf) && Sound(K(), st.blocked)
      ensures Names(old(sets), old(Pick(Deref(p), rnd)), who) && x == old(Elem(p, rnd))
      ensures Meets(old(st), Deref(p), who)
      ensures Moved(old(st), Deref(p), who, x, st)
      ensures Woke(who, old(sets), old(woken), old(readied))
      ensures Delivered(old(st), p, old(Pick(Deref(p), rnd)), x)
    {
      hide Sound, RingsAs, Inv, Calls, CanExec, Known, Meets, AfterMove, Queue, Delivered;
      var other := Pick(Deref(p), rnd);
      who, x := MeetAndCopy(p, t, rnd);
      if other.Some? {
        WakePartner(other.value);
      }
    }

    // --------------------------------------------------------------------- chanalt

    /** `altcanexec` */
    method AltCanExec(a: Alt<Channel>) returns (can: bool)
      requires RingsAs(chans, st.cap, st.buf) && Sound(K(), st.blocked) && Known(st, a)
      ensures can == CanExec(st, a)
    {
      if a.Nop? {
        return false;
      }
      var c := a.c;
      ArrayMeansWaiting(K(), st, Other(a));
      if c.bufsize == 0 {
        var ar := arrays[Other(a)];
        return |ar| > 0;
      } else {
        match a
        case Snd(_) => return c.nbuf < c.bufsize;
        case Rcv(_) => return c.nbuf > 0;
      }
    }

    /** Sets `task` and `xalt` of every entry. */
    method Fill(a: AltSet, t: Task)
      requires Sound(K(), st.blocked) && Fresh(sets, woken, t, a)
      modifies this`task, this`xalt
      ensures Sound(K(), st.blocked) && Filled(task, xalt, t, a)
    {
      hide Sound, Fresh, OthersKept, FilledTo;
      var n := |a.alts|;
      var i := 0;
      NoneFilled(K(), a, t);
      while i < n
        invariant i <= n && OthersKept(old(K()), a, K()) && FilledTo(task, xalt, t, a, i)
      {
        NextFilled(old(K()), a, t, i, K());
        task := task[AltPtr(a, i) := t];
        xalt := xalt[AltPtr(a, i) := AltPtr(a, 0)];
        i := i + 1;
      }
      AllFilled(task, xalt, t, a);
      CallerFilled(old(K()), st.blocked, t, a, K());
    }

    /** Counts the alternatives that can be executed. */
    method CountReady(a: AltSet) returns (ncan: nat)
      requires RingsAs(chans, st.cap, st.buf) && Sound(K(), st.blocked) && AllKnown(st, a.alts)
      ensures ncan == |set i: nat | i < |a.alts| && CanExec(st, a.alts[i])|
    {
      hide CanExec, Sound;
      ncan := 0;
      var i := 0;
      while i < |a.alts|
        invariant i <= |a.alts| && ncan == Executable(st, a.alts, i)
      {
        NextExecutable(st, a.alts, i);
        var can := AltCanExec(a.alts[i]);
        if can {
          ncan := ncan + 1;
        }
        i := i + 1;
      }
    }

    /** Puts every alternative but the CHANNOP ones into its wait array. */
    method QueueAll(a: AltSet)
      requires Arrays(chans, arrays, regs) && Clear(chans, a) && Own(a) !! regs
      modifies this`regs, this`arrays
      ensures Arrays(chans, arrays, regs) && regs == old(regs) + Own(a)
    {
      hide Arrays, Upto;
      UptoNone(a);
      var i := 0;
      while i < |a.alts|
        invariant i <= |a.alts| && Arrays(chans, arrays, regs)
        invariant regs == old(regs) + Upto(a, i)
      {
        UptoNext(a, i);
        if !a.alts[i].Nop? {
          AltQueue(AltPtr(a, i));
        }
        i := i + 1;
      }
    }

    /** Memory that some alternative of `a`, or its partner, may receive into. */
    ghost function Dests(a: AltSet, rnd: nat): set<array<byte>>
      reads this`arrays
    {
      set i: nat | i < |a.alts| && Dest(AltPtr(a, i), Pick(a.alts[i], rnd)) != null ::
        Dest(AltPtr(a, i), Pick(a.alts[i], rnd)) as array<byte>
    }

    /** Finds alternative number `j` among those that can be executed. */
    method Select(a: AltSet, j: nat) returns (i: nat)
      requires RingsAs(chans, st.cap, st.buf) && Sound(K(), st.blocked) && AllKnown(st, a.alts)
      requires j < |set i: nat | i < |a.alts| && CanExec(st, a.alts[i])|
      ensures i < |a.alts| && CanExec(st, a.alts[i]) && |set k: nat | k < i && CanExec(st, a.alts[k])| == j
    {
      hide CanExec, Sound;
      var left := j;
      i := 0;
      while i < |a.alts|
        invariant i <= |a.alts|
        invariant Executable(st, a.alts, i) + left == j
      {
        NextExecutable(st, a.alts, i);
        var can := AltCanExec(a.alts[i]);
        if can {
          if left == 0 {
            return;
          }
          left := left - 1;
        }
        i := i + 1;
      }
      assert false;
    }

    /** The last part of `chanalt`: the task registers its alternatives and blocks. */
    method Block(a: AltSet, ghost t: Task)
      requires Sound(K(), st.blocked) && Fresh(sets, woken, t, a) && Clear(chans, a) && Filled(task, xalt, t, a)
      modifies this`regs, this`sets, this`st, this`arrays
      ensures Sound(K(), st.blocked)
      ensures sets == old(sets)[t := a] && st == old(st).(blocked := old(st).blocked[t := a.alts])
    {
      hide Arrays, Blocked, Woken, Filled, Clear;
      OwnNew(K(), st.blocked, t, a);
      QueueAll(a);
      sets := sets[t := a];
      CallerBlocked(old(K()), st.blocked, t, a, K());
      st := st.(blocked := st.blocked[t := a.alts]);
    }

    /** `chanalt` when `ncan` alternatives can be executed: the random number selects one. */
    method RunOne(a: AltSet, ghost t: Task, ncan: nat, rnd1: nat, rnd2: nat)
      returns (i: nat, ghost who: Option<(Task, nat)>, ghost x: seq<byte>)
      requires Valid() && Calls(t, a) && AllKnown(st, a.alts) && ncan == Executable(st, a.alts, |a.alts|) && ncan > 0
      modifies this`regs, this`sets, this`woken, this`readied, this`st, this`xalt, this`arrays
      modifies chans`nbuf, chans`off, Rings(chans), Dests(a, rnd2)
      ensures RingsAs(chans, st.cap, st.buf) && Sound(K(), st.blocked)
      ensures i < |a.alts| && Turn(old(st), a.alts, rnd1, i)
      ensures Woke(who, old(sets), old(woken), old(readied))
      ensures var p, alt := AltPtr(a, i), a.alts[i];
              && Names(old(sets), old(Pick(alt, rnd2)), who)
              && old(Ready(p, rnd2)) && x == old(Elem(p, rnd2))
              && Delivered(old(st), p, old(Pick(alt, rnd2)), x)
      ensures Steps(old(st), t, a.alts, a.canblock, Runs(i, who), x, st)
    {
      hide RingsAs, Sound, Inv, Clear, Fresh, CanExec, Chosen, Known, Delivered, Names, Woke, Meets, Moved;
      i := Select(a, rnd1 % ncan);
      PairReady(AltPtr(a, i), t, rnd2);
      who, x := AltExec(AltPtr(a, i), t, rnd2);
      RunsSteps(old(st), t, a.alts, a.canblock, i, who, x, st);
    }

    /** `chanalt` when no alternative can be executed */
    method BlockOrFail(a: AltSet, ghost t: Task) returns (r: Result, ghost o: Outcome<Task>)
      requires RingsAs(chans, st.cap, st.buf) && Sound(K(), st.blocked) && Calls(t, a) && Filled(task, xalt, t, a)
      requires AllKnown(st, a.alts) && Executable(st, a.alts, |a.alts|) == 0
      modifies this`regs, this`sets, this`st, this`arrays
      ensures RingsAs(chans, st.cap, st.buf) && Sound(K(), st.blocked)
      ensures !o.Runs? && r == if o.Blocks? then Switched else Returned(-1)
      ensures sets == if o.Blocks? then old(sets)[t := a] else old(sets)
      ensures Steps(old(st), t, a.alts, a.canblock, o, [], st)
    {
      hide RingsAs, Sound, Clear, Fresh, CanExec, Filled, Known, Executable;
      Apart();
      NoneExecutable(st, a.alts, |a.alts|);
      if !a.canblock {
        r, o := Returned(-1), WouldBlock;
      } else {
        Block(a, t);
        r, o := Switched, Blocks;
      }
      IdleSteps(old(st), t, a.alts, a.canblock, o, [], st);
    }

    /** `chanalt` once the entries are filled in, up to its `taskswitch`. */
    method RunOrBlock(a: AltSet, ghost t: Task, rnd1: nat, rnd2: nat)
      returns (r: Result, ghost o: Outcome<Task>, ghost x: seq<byte>)
      requires Valid() && Calls(t, a) && AllKnown(st, a.alts) && Filled(task, xalt, t, a)
      modifies this`regs, this`sets, this`woken, this`readied, this`st, this`xalt, this`arrays
      modifies chans`nbuf, chans`off, Rings(chans), Dests(a, rnd2)
      ensures Valid()
      ensures o.Runs? ==> o.i < |a.alts|
      ensures r == match o case Runs(i, _) => Returned(i) case WouldBlock => Returned(-1) case Blocks => Switched
      ensures match o
              case WouldBlock => sets == old(sets) && woken == old(woken) && readied == old(readied)
              case Blocks => sets == old(sets)[t := a] && woken == old(woken) && readied == old(readied)
              case Runs(_, who) => Woke(who, old(sets), old(woken), old(readied))
      ensures o.Runs? ==>
                var p := AltPtr(a, o.i);
                && Names(old(sets), old(Met(p, rnd2)), o.partner)
                && old(Ready(p, rnd2)) && x == old(Elem(p, rnd2))
                && Delivered(old(st), p, old(Met(p, rnd2)), x)
      ensures o.Runs? ==> Turn(old(st), a.alts, rnd1, o.i)
      ensures Steps(old(st), t, a.alts, a.canblock, o, x, st)
    {
      hide RingsAs, Sound, Inv, Clear, Fresh, CanExec, Chosen, Filled, Known, Delivered, Names, Woke, Turn, Apply;
      Apart();
      NotBlocked(K(), st.blocked, t, a);
      var ncan := CountReady(a);
      if ncan > 0 {
        var i;
        ghost var who;
        i, who, x := RunOne(a, t, ncan, rnd1, rnd2);
        r, o := Returned(i), Runs(i, who);
      } else {
        x := [];
        r, o := BlockOrFail(a, t);
      }
      StepKeepsInv(old(st), t, a.alts, a.canblock, o, x, st);
    }

    /** `chanalt` up to its `taskswitch`.  The random numbers select what to run. */
    method ChanAlt(a: AltSet, t: Task, rnd1: nat, rnd2: nat)
      returns (r: Result, ghost o: Outcome<Task>, ghost x: seq<byte>)
      requires Valid() && Calls(t, a) && AllKnown(st, a.alts)
      modifies this`task, this`regs, this`sets, this`woken, this`readied, this`st, this`xalt, this`arrays
      modifies chans`nbuf, chans`off, Rings(chans), Dests(a, rnd2)
      ensures Valid()
      ensures o.Runs? ==> o.i < |a.alts|
      ensures r == match o case Runs(i, _) => Returned(i) case WouldBlock => Returned(-1) case Blocks => Switched
      ensures match o
              case WouldBlock => sets == old(sets) && woken == old(woken) && readied == old(readied)
              case Blocks => sets == old(sets)[t := a] && woken == old(woken) && readied == old(readied)
              case Runs(_, who) => Woke(who, old(sets), old(woken), old(readied))
      ensures o.Runs? ==>
                var p := AltPtr(a, o.i);
                && Names(old(sets), old(Met(p, rnd2)), o.partner)
                && old(Ready(p, rnd2)) && x == old(Elem(p, rnd2))
                && Delivered(old(st), p, old(Met(p, rnd2)), x)
      ensures o.Runs? ==> Turn(old(st), a.alts, rnd1, o.i)
      ensures Steps(old(st), t, a.alts, a.canblock, o, x, st)
    {
      hide RingsAs, Sound, Inv, Clear, Fresh, Steps, Turn, Delivered, Names, Woke, AllKnown, ChanSys.Ready;
      Apart();
      Fill(a, t);
      r, o, x := RunOrBlock(a, t, rnd1, rnd2);
    }

    /** `chanalt` after its `taskswitch`: `a[0].xalt - a`, the index of the alternative
        that the waking task has run. */
    method Resume(a: AltSet, ghost t: Task) returns (r: int)
      requires Valid() && t in woken && woken[t].set_ == a
      modifies this`woken
      ensures Valid()
      ensures r == old(woken)[t].idx && 0 <= r < |a.alts|
      ensures woken == old(woken) - {t} && Fresh(sets, woken, t, a)
    {
      hide RingsAs, Arrays, Inv, Clear, Filled, Own;
      assert Noted(K(), woken[t]);
      assert t !in sets;
      r := xalt[AltPtr(a, 0)].idx;
      woken := woken - {t};
      Apart();
    }

    // ----------------------------------------------- what the wait arrays tell

    /** A blocked task has each of its alternatives exactly once in the array matching that
        alternative's channel and operation. */
    lemma RegisteredOnce(u: Task, j: nat)
      requires Valid() && u in sets && j < |sets[u].alts| && !sets[u].alts[j].Nop?
      ensures var a := sets[u].alts[j];
              a in arrays && multiset(arrays[a])[AltPtr(sets[u], j)] == 1
    {
      var a, p := sets[u].alts[j], AltPtr(sets[u], j);
      assert p in Own(sets[u]) && Deref(p) == a;
      assert Proper(chans, p);
      OnceInMultiset(arrays[a], p);
    }

    /** Every entry of an array is an alternative, on that channel and with that operation,
        of a task that is blocked now; none survives its task being made ready. */
    lemma EntriesAreBlocked(a: Alt<Channel>, p: AltPtr)
      requires Valid() && a in arrays && p in arrays[a]
      ensures p in task && task[p] in sets && task[p] !in woken
      ensures sets[task[p]] == p.set_ && p.idx < |p.set_.alts| && p.set_.alts[p.idx] == a
    {
      ArrayMeansWaiting(K(), st, a);
    }

    /** No missed communication, as the arrays and the rings show it. */
    lemma NoneMissed(c: Channel)
      requires Valid() && c in chans
      ensures Snd(c) in arrays && Rcv(c) in arrays
      ensures c.bufsize > 0 && arrays[Rcv(c)] != [] ==> c.nbuf == 0
      ensures c.bufsize > 0 && arrays[Snd(c)] != [] ==> c.nbuf == c.bufsize
      ensures c.bufsize == 0 ==> forall p, q | p in arrays[Snd(c)] && q in arrays[Rcv(c)] :: p.set_ == q.set_
    {
      hide Arrays, Blocked, Woken, Inv, RingsAs;
      RingOf(c);
      ArraysOf(chans, arrays, regs, c);
      ArrayMeansWaiting(K(), st, Snd(c));
      ArrayMeansWaiting(K(), st, Rcv(c));
      if arrays[Rcv(c)] != [] {
        var p := arrays[Rcv(c)][0];
        assert p in arrays[Rcv(c)];
        WaiterSatisfied(st, task[p], p.idx);
      }
      if arrays[Snd(c)] != [] {
        var p := arrays[Snd(c)][0];
        assert p in arrays[Snd(c)];
        WaiterSatisfied(st, task[p], p.idx);
      }
      forall p, q | c.bufsize == 0 && p in arrays[Snd(c)] && q in arrays[Rcv(c)] ensures p.set_ == q.set_ {
        if task[p] != task[q] { WaitersApart(st, task[p], p.idx, task[q], q.idx); }
      }
    }

    lemma RingOf(c: Channel)
      requires Valid() && c in chans
      ensures st.cap.Keys == st.buf.Keys == chans && c.RingOk() && st.cap[c] == c.bufsize && st.buf[c] == c.Contents()
    {
    }

    /** The bookkeeping is kept apart from channels and rings. */
    lemma Apart()
      ensures (this as object) !in (set c | c in chans :: c as object)
      ensures (this as object) !in (set b | b in Rings(chans) :: b as object)
    {
    }

    /** Exactly the task that was met, if any, has left the blocked tasks for the ready
        ones, and will find which of its alternatives was run. */
    ghost predicate Woke(who: Option<(Task, nat)>, sets0: map<Task, AltSet>, woken0: map<Task, AltPtr>,
                         readied0: seq<Task>)
      reads this`sets, this`woken, this`readied
    {
      match who
      case None => sets == sets0 && woken == woken0 && readied == readied0
      case Some(w) =>
        && w.0 in sets0 && sets == sets0 - {w.0}
        && woken == woken0[w.0 := AltPtr(sets0[w.0], w.1)] && readied == readied0 + [w.0]
    }
  }

  lemma {:induction false} OnceInMultiset<T>(q: seq<T>, x: T)
    requires NoDup(q) && x in q
    ensures multiset(q)[x] == 1
  {
    var n := |q| - 1;
    assert q == q[..n] + [q[n]];
    if q[n] == x {
      assert x !in q[..n];
    } else {
      OnceInMultiset(q[..n], x);
    }
  }

  /** `who` is the task and alternative that entry `q` belongs to. */
  ghost predicate Names(sets: map<Task, AltSet>, q: Option<AltPtr>, who: Option<(Task, nat)>) {
    match who
    case None => q.None?
    case Some(w) => w.0 in sets && q == Some(AltPtr(sets[w.0], w.1))
  }

  /** `who` waits for `a`, or nobody does. */
  ghost predicate Meets<T, C, E>(s: State<T, C, E>, a: Alt<C>, who: Option<(T, nat)>) {
    match who
    case None => !SomeoneWaits(s, Other(a))
    case Some(w) => Waits(s, w.0, w.1, Other(a))
  }

  /** Those among the first `i` alternatives that can be executed */
  ghost function Executables<T, C, E>(s: State<T, C, E>, alts: seq<Alt<C>>, i: nat): set<nat>
    requires i <= |alts| && AllKnown(s, alts)
  {
    set j: nat | j < i && CanExec(s, alts[j])
  }

  ghost function Executable<T, C, E>(s: State<T, C, E>, alts: seq<Alt<C>>, i: nat): nat
    requires i <= |alts| && AllKnown(s, alts)
  {
    |Executables(s, alts, i)|
  }

  lemma NextExecutable<T, C, E>(s: State<T, C, E>, alts: seq<Alt<C>>, i: nat)
    requires i < |alts| && AllKnown(s, alts)
    ensures Executable(s, alts, i + 1) == Executable(s, alts, i) + if CanExec(s, alts[i]) then 1 else 0
  {
    hide CanExec, Known;
    var before := Executables(s, alts, i);
    assert Executables(s, alts, i + 1) == before + if CanExec(s, alts[i]) then {i} else {};
  }

  lemma NoneExecutable<T, C, E>(s: State<T, C, E>, alts: seq<Alt<C>>, i: nat)
    requires i <= |alts| && AllKnown(s, alts) && Executable(s, alts, i) == 0
    ensures forall j | 0 <= j < i :: !CanExec(s, alts[j])
  {
    hide CanExec, Known;
    assert forall j: nat | j < i && CanExec(s, alts[j]) :: j in Executables(s, alts, i);
  }

  lemma MoreExecutable<T, C, E>(s: State<T, C, E>, alts: seq<Alt<C>>, i: nat, k: nat)
    requires i <= k <= |alts| && AllKnown(s, alts)
    ensures Executable(s, alts, i) <= Executable(s, alts, k)
  {
    hide CanExec, Known;
    Smaller(Executables(s, alts, i), Executables(s, alts, k));
  }

  /** Alternative `i` is the one that the random number selects among the executable. */
  ghost predicate Turn<T, C, E>(s: State<T, C, E>, alts: seq<Alt<C>>, rnd: nat, i: nat) {
    && AllKnown(s, alts) && i < |alts| && CanExec(s, alts[i])
    && var ncan := Executable(s, alts, |alts|);
       ncan > 0 && Executable(s, alts, i) == rnd % ncan
  }

  /** Whatever can be executed is what some random number selects ... */
  lemma TurnReaches<T, C, E>(s: State<T, C, E>, alts: seq<Alt<C>>, i: nat)
    requires AllKnown(s, alts) && i < |alts| && CanExec(s, alts[i])
    ensures exists rnd: nat :: Turn(s, alts, rnd, i)
  {
    hide CanExec, Known;
    var rnd := Executable(s, alts, i);
    NextExecutable(s, alts, i);
    MoreExecutable(s, alts, i + 1, |alts|);
    assert Turn(s, alts, rnd, i);
  }

  /** ... and each selects one alternative, if there is any. */
  lemma OneTurn<T, C, E>(s: State<T, C, E>, alts: seq<Alt<C>>, rnd: nat, i: nat, k: nat)
    requires Turn(s, alts, rnd, i) && Turn(s, alts, rnd, k)
    ensures i == k
  {
    hide CanExec, Known;
    var lo, hi := if i < k then i else k, if i < k then k else i;
    if lo < hi {
      NextExecutable(s, alts, lo);
      MoreExecutable(s, alts, lo + 1, hi);
    }
  }

  /** The specification state after alternative `a` has run. */
  ghost predicate Moved<T, C, E>(s: State<T, C, E>, a: Alt<C>, who: Option<(T, nat)>, x: E, s': State<T, C, E>)
  {
    && !a.Nop? && a.c in s.buf
    && (Receives(a, who.Some?) ==> Queue(s.buf[a.c], Sends(a, who.Some?), x) != [])
    && s' == s.(
         buf := s.buf[a.c := AfterMove(s.buf[a.c], Sends(a, who.Some?), Receives(a, who.Some?), x)],
         blocked := if who.Some? then s.blocked - {who.value.0} else s.blocked)
  }

  /** The receiver, unless its pointer is nil, holds the oldest element. */
  ghost predicate Delivered(s: State<Task, Channel, seq<byte>>, p: AltPtr, other: Option<AltPtr>, x: seq<byte>)
    reads Cell(Dest(p, other))
  {
    var dst := Dest(p, other);
    dst != null ==>
      var a := Deref(p);
      && !a.Nop? && a.c in s.buf && a.c.elemsize <= dst.Length
      && Queue(s.buf[a.c], Sends(a, other.Some?), x) != []
      && dst[..a.c.elemsize] == Queue(s.buf[a.c], Sends(a, other.Some?), x)[0]
  }
}
