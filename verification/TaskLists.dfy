/** The doubly linked task lists of task.c.  One pair of link fields in each task serves
    every list of the library, and leaving a list does not clear it. */
module TaskLists {
  import opened Seqs
  import opened RuntimeSpec

  class Task {
    var next: Task?
    var prev: Task?
    var alarmtime: nat
    var system: bool
    var ready: bool
    var exiting: bool
    var alltaskslot: nat
    /** The list the task is linked into now, if any. */
    ghost var list: Tasklist?

    /** `taskalloc` zeroes the structure. */
    constructor ()
      ensures !system && !ready && !exiting && list == null
    {
      next, prev, list := null, null, null;
      alarmtime, alltaskslot := 0, 0;
      system, ready, exiting := false, false, false;
    }
  }

  ghost function Nth(q: seq<Task>, i: int): Task? {
    if 0 <= i < |q| then q[i] else null
  }

  /** Entry `k` of a list is nowhere else in it. */
  lemma OnlyAt(q: seq<Task>, k: int)
    requires NoDup(q)
    ensures forall i | 0 <= i < |q| && i != k :: q[i] != Nth(q, k)
  {
  }

  class Tasklist {
    var head: Task?
    var tail: Task?
    ghost var contents: seq<Task>

    constructor ()
      ensures Ok() && contents == []
    {
      head, tail, contents := null, null, [];
    }

    /** Head, tail, next and prev all describe `contents`, whose tasks are in no other list. */
    ghost predicate Ok()
      reads this, contents`next, contents`prev, contents`list
    {
      && (forall x | x in contents :: x.list == this)
      && NoDup(contents)
      && head == Nth(contents, 0) && tail == Nth(contents, |contents| - 1)
      && (forall i {:trigger contents[i].next} | 0 <= i < |contents| :: contents[i].next == Nth(contents, i + 1))
      && (forall i {:trigger contents[i].prev} | 0 <= i < |contents| :: contents[i].prev == Nth(contents, i - 1))
    }
  }

  /** `addtask`: at the tail, whatever the links of `t` were. */
  method AddTask(l: Tasklist, t: Task)
    requires l.Ok() && t.list == null
    modifies l, t`next, t`prev, t`list, l.contents`next
    ensures l.Ok() && t.list == l && l.contents == old(l.contents) + [t]
  {
    hide NoDup;
    ghost var q := l.contents;
    OnlyAt(q, |q| - 1);
    MoreAt(q, |q|, t);
    assert More(q, |q|, t) == q + [t];
    if l.tail != null {
      l.tail.next := t;
      t.prev := l.tail;
    } else {
      l.head := t;
      t.prev := null;
    }
    l.tail := t;
    t.next := null;
    t.list := l;
    l.contents := q + [t];
  }

  /** `deltask`: unlinks entry `k`, whose own links are left as they were. */
  method DelTask(l: Tasklist, t: Task, ghost k: nat)
    requires l.Ok() && k < |l.contents| && l.contents[k] == t
    modifies l, t`list, l.contents`next, l.contents`prev
    ensures l.Ok() && t.list == null && l.contents == Less(old(l.contents), k)
    ensures t.next == old(t.next) && t.prev == old(t.prev)
  {
    hide NoDup;
    ghost var q := l.contents;
    OnlyAt(q, k - 1);
    OnlyAt(q, k);
    OnlyAt(q, k + 1);
    LessAt(q, k);
    hide Less;
    if t.prev != null {
      t.prev.next := t.next;
    } else {
      l.head := t.next;
    }
    if t.next != null {
      t.next.prev := t.prev;
    } else {
      l.tail := t.prev;
    }
    t.list := null;
    l.contents := Less(q, k);
  }

  /** `taskdelay`: finds the place for the running task `r` among the sleepers and links
      it in there by hand. */
  method InsertSleeper(sleeping: Tasklist, r: Task, when: nat, ghost alarm: map<Task, nat>)
    requires sleeping.Ok() && r.list == null
    requires forall x | x in sleeping.contents :: x in alarm && x.alarmtime == alarm[x]
    modifies sleeping, r`next, r`prev, r`list, r`alarmtime, sleeping.contents`next, sleeping.contents`prev
    ensures sleeping.Ok() && r.list == sleeping && r.alarmtime == when
    ensures var q := old(sleeping.contents);
            var i := Position(q, alarm, when);
            sleeping.contents == More(q, i, r)
  {
    ghost var q := sleeping.contents;
    ghost var i := 0;
    var t := sleeping.head;
    while t != null && t.alarmtime < when
      invariant i <= |q| && t == Nth(q, i)
      invariant Position(q, alarm, when) == i + Position(q[i..], alarm, when)
      decreases |q| - i
    {
      assert q[i..][1..] == q[i + 1..];
      t := t.next;
      i := i + 1;
    }
    assert i == Position(q, alarm, when);
    if t != null {
      r.prev := t.prev;
      r.next := t;
    } else {
      r.prev := sleeping.tail;
      r.next := null;
    }
    r.alarmtime := when;
    LinkIn(sleeping, r, i);
  }

  /** The second half of the insertion: the neighbours of `r` are made to point to it. */
  method LinkIn(sleeping: Tasklist, r: Task, ghost i: nat)
    requires sleeping.Ok() && r.list == null && i <= |sleeping.contents|
    requires r.prev == Nth(sleeping.contents, i - 1) && r.next == Nth(sleeping.contents, i)
    modifies sleeping, r`list, sleeping.contents`next, sleeping.contents`prev
    ensures sleeping.Ok() && r.list == sleeping && sleeping.contents == More(old(sleeping.contents), i, r)
  {
    hide NoDup;
    ghost var q := sleeping.contents;
    OnlyAt(q, i - 1);
    OnlyAt(q, i);
    MoreAt(q, i, r);
    hide More;
    if r.prev != null {
      r.prev.next := r;
    } else {
      sleeping.head := r;
    }
    if r.next != null {
      r.next.prev := r;
    } else {
      sleeping.tail := r;
    }
    r.list := sleeping;
    sleeping.contents := More(q, i, r);
  }
}
