/** channel.c: channels with their byte rings, Alt sets, and the moving of data. */
module Channels {
  import opened Options
  import opened Alternation
  import opened Ring

  newtype byte = x: int | 0 <= x < 256

  /** A pointer to entry `idx` of an Alt set, `Alt*` in the source. */
  datatype AltPtr = AltPtr(set_: AltSet, idx: nat)

  /** The array `Alt a[]` given to one `chanalt`, without its terminator: `canblock`
      says that the terminator is CHANEND.  The object holds what the caller fills in,
      which `chanalt` only reads; the `task` and `xalt` fields of the entries, which it
      writes, are kept by `ChanSys`, addressed by pointer. */
  class AltSet {
    const alts: seq<Alt<Channel>>
    const v: seq<array?<byte>>
    const canblock: bool

    constructor (alts: seq<Alt<Channel>>, v: seq<array?<byte>>, canblock: bool)
      ensures this.alts == alts && this.v == v && this.canblock == canblock
    {
      this.alts, this.v, this.canblock := alts, v, canblock;
    }

    predicate WellFormed() {
      && |v| == |alts|
      && forall i | 0 <= i < |alts| :: !alts[i].Nop? ==> Fits(v[i], alts[i].c)
    }
  }

  /** A data pointer is nil or has room for an element, and is not the ring itself. */
  predicate Fits(v: array?<byte>, c: Channel) {
    v != null ==> v.Length >= c.elemsize && v != c.buf
  }

  /** The alternative a pointer points to. */
  function Deref(p: AltPtr): Alt<Channel>
    requires p.idx < |p.set_.alts|
  {
    p.set_.alts[p.idx]
  }

  predicate Points(p: AltPtr) {
    p.set_.WellFormed() && p.idx < |p.set_.alts|
  }

  function V(p: AltPtr): (v: array?<byte>)
    requires Points(p)
    ensures !Deref(p).Nop? ==> Fits(v, Deref(p).c)
  {
    p.set_.v[p.idx]
  }

  /** Where a copy reads from and writes to; nil when that side is absent. */
  function Source(a: AltPtr, other: Option<AltPtr>): array?<byte> {
    if !Points(a) || (other.Some? && !Points(other.value)) then null
    else if Deref(a).Snd? then V(a) else if other.Some? then V(other.value) else null
  }

  function Dest(a: AltPtr, other: Option<AltPtr>): array?<byte> {
    if !Points(a) || (other.Some? && !Points(other.value)) then null
    else if Deref(a).Rcv? then V(a) else if other.Some? then V(other.value) else null
  }

  /** Of two alternatives that meet, the sender's pointer is read and the receiver's written;
      one that meets nobody has only its own side. */
  lemma Parties(a: AltPtr, other: Option<AltPtr>)
    requires Points(a) && !Deref(a).Nop?
    requires other.Some? ==> Points(other.value) && Deref(other.value) == Other(Deref(a))
    ensures Deref(a).Snd? ==> Source(a, other) == a.set_.v[a.idx]
    ensures Deref(a).Rcv? ==> Dest(a, other) == a.set_.v[a.idx]
    ensures Deref(a).Snd? ==>
              Dest(a, other) == if other.Some? then other.value.set_.v[other.value.idx] else null
    ensures Deref(a).Rcv? ==>
              Source(a, other) == if other.Some? then other.value.set_.v[other.value.idx] else null
  {
  }

  function Cell(v: array?<byte>): set<object> {
    if v == null then {} else {v}
  }

  /** What the bytes behind a source pointer mean: nil stands for zeros. */
  function Payload(v: array?<byte>, n: nat): seq<byte>
    requires v != null ==> v.Length >= n
    reads if v == null then {} else {v}
  {
    if v == null then seq(n, _ => 0) else v[..n]
  }

  lemma NilMeansZeros(n: nat)
    ensures |Payload(null, n)| == n && forall k | 0 <= k < n :: Payload(null, n)[k] == 0
  {
  }

  /** Moves `n` bytes; a nil source means zeros and a nil destination discards. */
  method Amove(dst: array?<byte>, doff: nat, src: array?<byte>, soff: nat, n: nat)
    requires dst != null ==> doff + n <= dst.Length
    requires src != null ==> soff + n <= src.Length
    modifies if dst == null then {} else {dst}
    ensures dst != null ==>
              && dst[doff..doff + n] == (if src == null then seq(n, _ => 0) else old(src[soff..soff + n]))
              && dst[..doff] == old(dst[..doff]) && dst[doff + n..] == old(dst[doff + n..])
  {
    if dst != null {
      if src == null {
        forall k | doff <= k < doff + n { dst[k] := 0; }
      } else {
        forall k | doff <= k < doff + n { dst[k] := src[soff + (k - doff)]; }
      }
    }
  }

  ghost function SlotOf(bytes: seq<byte>, k: nat, n: nat, e: nat): seq<byte>
    requires |bytes| == n * e && k < n
  {
    SlotInside(k, n, e);
    bytes[k * e..k * e + e]
  }

  ghost function Elements(bytes: seq<byte>, off: nat, count: nat, n: nat, e: nat): seq<seq<byte>>
    requires |bytes| == n * e && (count > 0 ==> n > 0)
  {
    seq(count, i requires 0 <= i < count => SlotOf(bytes, At(off, i, n), n, e))
  }

  /** What is equal outside of `klo..khi` is equal on any stretch that does not meet it. */
  lemma SameOutside(b: seq<byte>, before: seq<byte>, klo: nat, khi: nat, lo: nat, hi: nat)
    requires |b| == |before| && klo <= khi <= |b| && lo <= hi <= |b|
    requires b[..klo] == before[..klo] && b[khi..] == before[khi..] && (hi <= klo || khi <= lo)
    ensures b[lo..hi] == before[lo..hi]
  {
    forall i | lo <= i < hi ensures b[i] == before[i] {
      if i < klo {
        assert b[i] == b[..klo][i] && before[i] == before[..klo][i];
      } else {
        assert b[i] == b[khi..][i - khi] && before[i] == before[khi..][i - khi];
      }
    }
  }

  class Channel {
    const bufsize: nat
    const elemsize: nat
    const buf: array<byte>
    var nbuf: nat
    var off: nat

    /** `chancreate` */
    constructor (elemsize: nat, bufsize: nat)
      ensures this.elemsize == elemsize && this.bufsize == bufsize
      ensures RingOk() && fresh(buf) && Contents() == []
    {
      this.elemsize, this.bufsize := elemsize, bufsize;
      buf := new byte[bufsize * elemsize];
      nbuf, off := 0, 0;
    }

    // ------------------------------------------------------------------ ring

    ghost predicate RingOk()
      reads this`nbuf, this`off
    {
      && buf.Length == bufsize * elemsize
      && nbuf <= bufsize
      && (bufsize == 0 ==> off == 0)
      && (bufsize > 0 ==> off < bufsize)
    }

    ghost function Slot(k: nat): seq<byte>
      requires buf.Length == bufsize * elemsize && k < bufsize
      reads buf
    {
      SlotOf(buf[..], k, bufsize, elemsize)
    }

    /** The elements in the ring, oldest first, read from `off`. */
    ghost function Contents(): (q: seq<seq<byte>>)
      requires RingOk()
      reads this`nbuf, this`off, buf
      ensures |q| == nbuf
      ensures forall i | 0 <= i < nbuf :: q[i] == Slot(At(off, i, bufsize))
    {
      Elements(buf[..], off, nbuf, bufsize, elemsize)
    }

    /** The receive half of `altcopy`: the oldest element goes to `dst`. */
    method TakeOldest(dst: array?<byte>)
      requires RingOk() && nbuf > 0 && Fits(dst, this)
      modifies this`nbuf, this`off, if dst == null then {} else {dst}
      ensures RingOk()
      ensures Contents() == old(Contents())[1..]
      ensures dst != null ==> dst[..elemsize] == old(Contents())[0] && dst[elemsize..] == old(dst[elemsize..])
    {
      ghost var was := Contents();
      ghost var off0 := off;
      SlotInside(off, bufsize, elemsize);
      assert was[0] == Slot(off) by { AtNext(off, 0, bufsize); }
      Amove(dst, 0, buf, off * elemsize, elemsize);
      assert dst != null ==> dst[..elemsize] == was[0];
      assert Contents() == was;
      nbuf := nbuf - 1;
      off := off + 1;
      if off == bufsize {
        off := 0;
      }
      forall i | 0 <= i < nbuf ensures Contents()[i] == was[i + 1] {
        AtNext(off0, i, bufsize);
      }
    }

    /** The send half of `altcopy`: the element at `src` becomes the newest. */
    method PutNewest(src: array?<byte>)
      requires RingOk() && nbuf < bufsize && Fits(src, this)
      modifies this`nbuf, buf
      ensures RingOk()
      ensures Contents() == old(Contents()) + [old(Payload(src, elemsize))]
    {
      ghost var was := Contents();
      var k := (off + nbuf) % bufsize;
      assert k == At(off, nbuf, bufsize);
      SlotInside(k, bufsize, elemsize);
      ghost var before := buf[..];
      Amove(buf, k * elemsize, src, 0, elemsize);
      forall i | 0 <= i < nbuf ensures Slot(At(off, i, bufsize)) == was[i] {
        AtApart(off, i, nbuf, bufsize);
        OtherSlotKept(before, k, At(off, i, bufsize));
      }
      assert Slot(k) == old(Payload(src, elemsize));
      nbuf := nbuf + 1;
    }

    lemma OtherSlotKept(before: seq<byte>, k: nat, l: nat)
      requires buf.Length == bufsize * elemsize == |before| && k < bufsize && l < bufsize && k != l
      requires k * elemsize + elemsize <= |before|
      requires buf[..k * elemsize] == before[..k * elemsize]
      requires buf[k * elemsize + elemsize..] == before[k * elemsize + elemsize..]
      ensures 0 <= l * elemsize <= l * elemsize + elemsize <= |before|
      ensures Slot(l) == before[l * elemsize..l * elemsize + elemsize]
    {
      SlotInside(l, bufsize, elemsize);
      SlotsApart(k, l, elemsize);
      SameOutside(buf[..], before, k * elemsize, k * elemsize + elemsize, l * elemsize, l * elemsize + elemsize);
    }

    // ------------------------------------------------------------- `altcopy`

    /** `a` is an alternative on this channel and `other`, if given, completes it. */
    ghost predicate Pair(a: AltPtr, other: Option<AltPtr>) {
      && Points(a) && (Deref(a) == Snd(this) || Deref(a) == Rcv(this))
      && (other.Some? ==> Points(other.value) && Deref(other.value) == Other(Deref(a)))
    }

    /** The element a copy commits: what the sender's pointer refers to when it is read.
        When the buffer is used the receiver is served first, so a sender that shares
        its memory with the receiver sends on what was just received. */
    ghost function Committed(a: AltPtr, other: Option<AltPtr>): seq<byte>
      requires RingOk() && Pair(a, other) && Sends(Deref(a), other.Some?)
      reads this`nbuf, this`off, buf, Cell(Source(a, other))
    {
      var src := Source(a, other);
      if src != null && src == Dest(a, other) && nbuf > 0 then Contents()[0] else Payload(src, elemsize)
    }

    /** Moves the data between sender, ring and receiver. */
    method AltCopy(a: AltPtr, other: Option<AltPtr>)
      requires RingOk() && Pair(a, other)
      requires Receives(Deref(a), other.Some?) && !Sends(Deref(a), other.Some?) ==> nbuf > 0
      requires Sends(Deref(a), other.Some?) && !Receives(Deref(a), other.Some?) ==> nbuf < bufsize
      modifies this`nbuf, this`off, buf, Cell(Dest(a, other))
      ensures RingOk()
      ensures var sends, receives := Sends(Deref(a), other.Some?), Receives(Deref(a), other.Some?);
              var x := if sends then old(Committed(a, other)) else [];
              && Contents() == AfterMove(old(Contents()), sends, receives, x)
              && var dst := Dest(a, other);
                 dst != null ==>
                   && dst[..elemsize] == Queue(old(Contents()), sends, x)[0]
                   && dst[elemsize..] == old(dst[elemsize..])
    {
      // work out who is sender and who is receiver
      var s, r := Some(a), other;
      if Deref(a).Rcv? {
        s, r := r, s;
      }
      var src := if s.Some? then V(s.value) else null;
      var dst := if r.Some? then V(r.value) else null;
      ghost var was := Contents();

      if s.Some? && r.Some? && nbuf == 0 {
        Amove(dst, 0, src, 0, elemsize);
        assert Contents() == [];
        return;
      }
      if r.Some? {
        TakeOldest(dst);
        assert dst != null ==> dst[..elemsize] == was[0];
      }
      if s.Some? {
        PutNewest(src);
      }
    }
  }
}
