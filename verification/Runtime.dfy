/** task.c and fd.c: the scheduler, its slot table, timers and fd waits on linked lists. */
module Runtime {
  import opened Options
  import opened Seqs
  import opened RuntimeSpec
  import opened RuntimeInv
  import opened RuntimeRuns
  import opened TaskLists

  /** `ready` marks the tasks in the run queue. */
  ghost predicate ReadyMarks(tasks: seq<Task>, runq: seq<Task>)
    reads tasks`ready
  {
    forall t | t in tasks :: t.ready <==> t in runq
  }

  ghost predicate SystemMarks(tasks: seq<Task>, system: set<Task>)
    reads tasks`system
  {
    forall t | t in tasks :: t.system <==> t in system
  }

  /** No task but one that has just called `taskexit` is marked as exiting. */
  ghost predicate Alive(tasks: seq<Task>)
    reads tasks`exiting
  {
    forall t | t in tasks :: !t.exiting
  }

  ghost predicate AlarmTimes(asleep: seq<Task>, alarm: map<Task, nat>)
    reads asleep`alarmtime
  {
    forall t | t in asleep :: t in alarm && t.alarmtime == alarm[t]
  }

  /** A task that is linked into a list is one of its entries. */
  ghost predicate Homes(lists: set<Tasklist>, tasks: seq<Task>)
    reads lists`contents, tasks`list
  {
    forall t | t in tasks && t.list != null :: t.list in lists && t in t.list.contents
  }

  /** `addtask` leaves every other list alone. */
  method Enlist(ghost lists: set<Tasklist>, ghost tasks: seq<Task>, l: Tasklist, t: Task)
    requires (forall m | m in lists :: m.Ok()) && Homes(lists, tasks) && l in lists && t.list == null
    modifies l, t`next, t`prev, t`list, l.contents`next
    ensures (forall m | m in lists :: m.Ok()) && Homes(lists, tasks)
    ensures t.list == l && l.contents == old(l.contents) + [t]
  {
    hide NoDup;
    assert forall m | m in lists :: t !in m.contents;
    AddTask(l, t);
    Untouched(lists, l, t);
  }

  /** Lists keep their shape when only the links of tasks outside them change. */
  twostate lemma Untouched(lists: set<Tasklist>, new l: Tasklist, new t: Task)
    requires (forall m | m in lists :: old(m.Ok())) && l in lists && old(allocated(t))
    requires forall m | m in lists && m != l :: unchanged(m) && t !in m.contents
    requires forall m, x | m in lists && m != l && x in m.contents && x != t && x !in old(l.contents) ::
               x.next == old(x.next) && x.prev == old(x.prev) && x.list == old(x.list)
    ensures forall m | m in lists && m != l :: m.Ok()
  {
    forall m | m in lists && m != l ensures m.Ok() {
      forall x | x in m.contents
        ensures x.next == old(x.next) && x.prev == old(x.prev) && x.list == old(x.list)
      {
        assert old(x.list) == m;
      }
    }
  }

  /** `deltask` leaves every other list alone. */
  method Delist(ghost lists: set<Tasklist>, ghost tasks: seq<Task>, l: Tasklist, t: Task, ghost k: nat)
    requires (forall m | m in lists :: m.Ok()) && Homes(lists, tasks)
    requires l in lists && k < |l.contents| && l.contents[k] == t
    modifies l, t`list, l.contents`next, l.contents`prev
    ensures (forall m | m in lists :: m.Ok()) && Homes(lists, tasks)
    ensures t.list == null && l.contents == Less(old(l.contents), k)
  {
    hide NoDup, Homes;
    assert forall m | m in lists && m != l :: t !in m.contents;
    DelTask(l, t, k);
    Untouched(lists, l, t);
    OneLess(lists, tasks, l, t, k);
  }

  twostate lemma OneLess(lists: set<Tasklist>, new tasks: seq<Task>, new l: Tasklist, new t: Task, new k: nat)
    requires l in lists && old(allocated(tasks)) && old(allocated(t))
    requires old(l.Ok()) && old(Homes(lists, tasks)) && k < |old(l.contents)| && old(l.contents)[k] == t
    requires l.contents == Less(old(l.contents), k) && t.list == null
    requires forall m | m in lists && m != l :: m.contents == old(m.contents)
    requires forall x | x in tasks && x != t :: x.list == old(x.list)
    ensures Homes(lists, tasks)
  {
    LessAt(old(l.contents), k);
  }

  class Sched {
    const taskrunqueue: Tasklist
    const sleeping: Tasklist
    var taskcount: int
    var tasknswitch: nat
    var taskexitval: int
    var taskrunning: Task?
    var alltask: array<Task?>
    var nalltask: nat
    var sleepingcounted: int
    var epoll: map<nat, Task>
    var fdtask: Task?
    /** What `fdtask` has on its stack inside `taskyield`: the switch count it noted. */
    var fdyield: Option<nat>
    var clock: nat
    /** The status the process has ended with. */
    var ended: Option<int>
    /** All task lists of the program. */
    ghost var lists: set<Tasklist>
    /** The state of the specification this scheduler is in. */
    ghost var st: Sys<Task>

    ghost predicate Scalars()
      reads this
    {
      && taskcount == st.taskcount && tasknswitch == st.nswitch && taskexitval == st.exitval
      && taskrunning == (if st.running.Some? then st.running.value else null)
      && sleepingcounted == st.sleepingcounted && epoll == st.epoll && clock == st.clock && ended == st.exit
      && (match st.fd
          case NotStarted => fdtask == null
          case Fresh(f) => fdtask == f && fdyield == None
          case Yielded(f, n) => fdtask == f && fdyield == Some(n))
    }

    /** The slot table holds the live tasks, each knows its slot, and the table has room
        up to the next multiple of 64. */
    ghost predicate Table(slots: seq<Task>)
      reads this`alltask, this`nalltask, alltask, slots`alltaskslot
    {
      && nalltask == |slots| && Capacity(nalltask) <= alltask.Length
      && (forall i {:trigger alltask[i]} | 0 <= i < nalltask :: alltask[i] == slots[i])
      && (forall i {:trigger slots[i].alltaskslot} | 0 <= i < nalltask :: slots[i].alltaskslot == i)
    }

    /** The two lists of the scheduler hold what the specification says, and every other
        list holds waiting tasks. */
    ghost predicate Lists(runq: seq<Task>, asleep: seq<Task>, waiting: set<Task>)
      reads this`lists, lists`contents
    {
      && taskrunqueue in lists && sleeping in lists && taskrunqueue != sleeping
      && taskrunqueue.contents == runq && sleeping.contents == asleep
      && (forall l, t | l in lists && l != taskrunqueue && l != sleeping && t in l.contents :: t in waiting)
    }

    /** The heap represents `st`, but for the marks of exiting tasks. */
    ghost predicate Core()
      reads *
    {
      && Scalars() && Table(st.slots) && Lists(st.runq, st.sleeping, st.waiting)
      && (forall l | l in lists :: l.Ok()) && Homes(lists, st.slots)
      && ReadyMarks(st.slots, st.runq) && SystemMarks(st.slots, st.system) && AlarmTimes(st.sleeping, st.alarm)
    }

    ghost predicate Rep()
      reads *
    {
      Core() && Alive(st.slots)
    }

    ghost predicate Valid()
      reads *
    {
      Rep() && Inv(st)
    }

    constructor ()
      ensures Valid() && st == Idle() && fresh(taskrunqueue) && fresh(sleeping) && lists == {taskrunqueue, sleeping}
    {
      taskrunqueue := new Tasklist();
      sleeping := new Tasklist();
      taskcount, tasknswitch, taskexitval, sleepingcounted, nalltask, clock := 0, 0, 0, 0, 0, 0;
      taskrunning, fdtask, fdyield, ended := null, null, None, None;
      epoll := map[];
      alltask := new Task?[0];
      st := Idle();
      hide Inv, Rep, Tasklist.Ok;
      new;
      lists := {taskrunqueue, sleeping};
      IdleInv<Task>();
      NoTasks(this);
    }

    // ------------------------------------------------------ steps on the heap alone

    /** `taskready` */
    method TaskReady(t: Task)
      requires Rep() && t in st.slots && t.list == null && forall x | x in st.runq :: x in st.slots
      modifies this`st, taskrunqueue, t`next, t`prev, t`list, t`ready, Elems(st.runq)`next
      ensures Rep() && st == Ready(old(st), t)
    {
      hide NoDup, Alive, Table, Tasklist.Ok, Homes, SystemMarks, AlarmTimes;
      t.ready := true;
      Enlist(lists, st.slots, taskrunqueue, t);
      st := Ready(st, t);
      assert Scalars();
      assert Table(st.slots);
      assert Lists(st.runq, st.sleeping, st.waiting);
      assert ReadyMarks(st.slots, st.runq);
    }

    /** The slot table part of `taskcreate` */
    method EnterTable(t: Task)
      requires Table(st.slots) && t !in st.slots
      modifies this`alltask, this`nalltask, alltask, t`alltaskslot
      ensures Table(st.slots + [t]) && (alltask == old(alltask) || fresh(alltask))
    {
      if nalltask % 64 == 0 {
        var bigger := new Task?[nalltask + 64];
        forall i | 0 <= i < nalltask { bigger[i] := alltask[i]; }
        alltask := bigger;
      }
      t.alltaskslot := nalltask;
      alltask[nalltask] := t;
      nalltask := nalltask + 1;
    }

    /** `taskalloc` and the bookkeeping of `taskcreate` */
    method AddTask() returns (t: Task)
      requires Rep()
      requires forall x | x in st.system || x in st.runq || x in st.sleeping || x in st.waiting :: x in st.slots
      modifies this`alltask, this`nalltask, this`taskcount, this`st, alltask
      ensures Rep() && fresh(t) && t.list == null && (alltask == old(alltask) || fresh(alltask))
      ensures st == old(st).(slots := old(st).slots + [t], taskcount := old(st).taskcount + 1)
    {
      hide Rep, NoDup, Alive, Table, Homes, Lists, ReadyMarks, SystemMarks, AlarmTimes;
      t := new Task();
      Enrol(t);
    }

    /** `taskcreate` enters the new task everywhere but in the run queue. */
    method Enrol(t: Task)
      requires Rep() && t !in st.slots && t !in st.system && t !in st.runq && t.list == null && !t.ready && !t.system
      requires !t.exiting
      modifies this`alltask, this`nalltask, this`taskcount, this`st, alltask, t`alltaskslot
      ensures Rep() && (alltask == old(alltask) || fresh(alltask))
      ensures st == old(st).(slots := old(st).slots + [t], taskcount := old(st).taskcount + 1)
    {
      hide Rep, NoDup;
      CountTask();
      EnterLive(t);
    }

    /** `taskcreate` counts the new task ... */
    method CountTask()
      requires Rep()
      modifies this`taskcount, this`st
      ensures Rep() && st == old(st).(taskcount := old(st).taskcount + 1)
    {
      hide NoDup, Alive, Table, Tasklist.Ok, Homes, Lists, ReadyMarks, SystemMarks, AlarmTimes;
      taskcount := taskcount + 1;
      st := st.(taskcount := st.taskcount + 1);
    }

    /** ... and gives it a slot. */
    method EnterLive(t: Task)
      requires Rep() && t !in st.slots && t !in st.system && t !in st.runq && t.list == null && !t.ready && !t.system
      requires !t.exiting
      modifies this`alltask, this`nalltask, this`st, alltask, t`alltaskslot
      ensures Rep() && (alltask == old(alltask) || fresh(alltask))
      ensures st == old(st).(slots := old(st).slots + [t])
    {
      hide NoDup, Alive, Table, Tasklist.Ok, Homes, Lists, ReadyMarks, SystemMarks, AlarmTimes;
      EnterTable(t);
      MoreHomes(lists, st.slots, t);
      MarksWith(st.slots, t, st.runq, st.system);
      hide Scalars, Rep;
      NoteSlots(st.slots + [t], st.system);
    }

    ghost method NoteSlots(slots: seq<Task>, system: set<Task>)
      requires Scalars() && Table(slots) && Lists(st.runq, st.sleeping, st.waiting)
      requires (forall m | m in lists :: m.Ok()) && Homes(lists, slots)
      requires ReadyMarks(slots, st.runq) && SystemMarks(slots, system) && AlarmTimes(st.sleeping, st.alarm)
      requires Alive(slots)
      modifies this`st
      ensures Rep() && st == old(st).(slots := slots, system := system)
    {
      hide NoDup, Alive, Table, Tasklist.Ok, Homes, Lists, ReadyMarks, SystemMarks, AlarmTimes;
      st := st.(slots := slots, system := system);
    }

    /** `deltask` of the first task of a list */
    method DelHead(l: Tasklist) returns (t: Task)
      requires (forall m | m in lists :: m.Ok()) && Homes(lists, st.slots) && l in lists && l.contents != []
      modifies l, Elems(l.contents)`next, Elems(l.contents)`prev, Elems(l.contents)`list
      ensures (forall m | m in lists :: m.Ok()) && Homes(lists, st.slots)
      ensures t == old(l.contents)[0] && t.list == null && l.contents == old(l.contents)[1..]
    {
      hide NoDup, Less, Tasklist.Ok, Homes;
      HeadIsFirst(l);
      t := l.head;
      Delist(lists, st.slots, l, t, 0);
      Tail(old(l.contents));
    }

    /** The heap represents `st`, but for the two lists, which hold `ready` and `asleep`. */
    ghost predicate Listing(ready: seq<Task>, asleep: seq<Task>)
      reads *
    {
      && Scalars() && Table(st.slots) && Lists(ready, asleep, st.waiting)
      && (forall l | l in lists :: l.Ok()) && Homes(lists, st.slots)
      && ReadyMarks(st.slots, st.runq) && SystemMarks(st.slots, st.system) && AlarmTimes(st.sleeping, st.alarm)
      && Alive(st.slots)
    }

    /** The scheduler takes the head off the run queue. */
    method TakeHead() returns (t: Task)
      requires Rep() && st.runq != [] && NoDup(st.runq) && forall x | x in st.runq :: x in st.slots
      modifies this`st, taskrunqueue, Elems(st.runq)
      ensures Rep() && t == old(st).runq[0] && st == old(st).(runq := old(st).runq[1..])
    {
      hide NoDup, Alive, Table, Tasklist.Ok, Homes, ReadyMarks, SystemMarks, AlarmTimes;
      t := DelHead(taskrunqueue);
      assert Listing(st.runq[1..], st.sleeping);
      hide Listing, Rep;
      Unready(t);
    }

    /** The scheduler's `t->ready = 0` */
    method Unready(t: Task)
      requires st.runq != [] && t == st.runq[0] && NoDup(st.runq) && Listing(st.runq[1..], st.sleeping)
      modifies this`st, t`ready
      ensures Rep() && st == old(st).(runq := old(st).runq[1..])
    {
      hide NoDup, Alive, Table, Tasklist.Ok, Homes, Lists, SystemMarks, AlarmTimes;
      t.ready := false;
      InTail(st.runq);
      st := st.(runq := st.runq[1..]);
      assert ReadyMarks(st.slots, st.runq);
      hide ReadyMarks;
    }

    /** The scheduler's part of a switch to the head of the run queue */
    method StartHead()
      requires Rep() && st.runq != [] && st.running == None && NoDup(st.runq)
      requires forall x | x in st.runq :: x in st.slots
      modifies this`st, this`taskrunning, this`tasknswitch, taskrunqueue, Elems(st.runq)
      ensures Rep() && st == Pick(old(st))
    {
      hide Rep, NoDup;
      var t := TakeHead();
      SwitchTo(t);
    }

    /** The scheduler's last steps before a switch to `t` */
    method SwitchTo(t: Task)
      requires Rep()
      modifies this`st, this`taskrunning, this`tasknswitch
      ensures Rep() && st == old(st).(running := Some(t), nswitch := old(st).nswitch + 1)
    {
      hide NoDup, Alive, Table, Tasklist.Ok, Homes, ReadyMarks, SystemMarks, AlarmTimes, Lists;
      taskrunning := t;
      tasknswitch := tasknswitch + 1;
      st := st.(running := Some(t), nswitch := st.nswitch + 1);
    }

    /** `taskswitch` and the scheduler's first statement after it */
    method Leave()
      requires Rep()
      modifies this`st, this`taskrunning
      ensures Rep() && st == old(st).(running := None)
    {
      hide NoDup, Alive, Table, Tasklist.Ok, Homes, ReadyMarks, SystemMarks, AlarmTimes, Lists;
      taskrunning := null;
      st := st.(running := None);
    }

    /** The slot table part of the scheduler's work after `taskexit` */
    method LeaveTable(t: Task)
      requires Table(st.slots) && t in st.slots && NoDup(st.slots)
      modifies this`nalltask, alltask, Elems(st.slots)`alltaskslot
      ensures Table(SwapRemove(st.slots, IndexOf(st.slots, t)))
    {
      var i := t.alltaskslot;
      nalltask := nalltask - 1;
      alltask[i] := alltask[nalltask];
      alltask[i].alltaskslot := i;
    }

    /** The scheduler counts an exited task out ... */
    method Uncount(t: Task)
      requires Core() && t in st.slots
      modifies this`st, this`taskcount
      ensures Core() && st == old(st).(taskcount := old(st).taskcount - if t in old(st).system then 0 else 1)
    {
      hide NoDup, Table, Tasklist.Ok, Homes, Lists, ReadyMarks, AlarmTimes;
      if !t.system {
        taskcount := taskcount - 1;
      }
      st := st.(taskcount := taskcount);
    }

    /** What the scheduler does with a task that has exited */
    method Bury(t: Task)
      requires Core() && t in st.slots && NoDup(st.slots) && t !in st.runq && t !in st.sleeping
      requires forall x | x in st.slots && x != t :: !x.exiting
      modifies this`st, this`taskcount, this`nalltask, alltask, Elems(st.slots)`alltaskslot
      ensures Rep()
      ensures var s := old(st);
              st == s.(slots := SwapRemove(s.slots, IndexOf(s.slots, t)), system := s.system - {t},
                       taskcount := s.taskcount - if t in s.system then 0 else 1)
    {
      hide Core, NoDup, Alive, SwapRemove, IndexOf;
      Uncount(t);
      Vacate(t);
    }

    /** ... and takes it out of the slot table. */
    method Vacate(t: Task)
      requires Core() && t in st.slots && NoDup(st.slots) && t !in st.runq && t !in st.sleeping
      requires forall x | x in st.slots && x != t :: !x.exiting
      modifies this`st, this`nalltask, alltask, Elems(st.slots)`alltaskslot
      ensures Rep()
      ensures var s := old(st);
              st == s.(slots := SwapRemove(s.slots, IndexOf(s.slots, t)), system := s.system - {t})
    {
      hide NoDup, Alive, Table, Tasklist.Ok, Homes, SwapRemove, IndexOf, Lists, ReadyMarks, SystemMarks, AlarmTimes;
      LeaveTable(t);
      ghost var slots := Removed(st.slots, t);
      FewerHomes(lists, st.slots, slots);
      MarksWithout(st.slots, slots, t, st.runq, st.system);
      hide Scalars, Rep;
      NoteSlots(slots, st.system - {t});
    }

    /** `taskexit`, and the scheduler's work when it finds `exiting` set */
    method Die(val: int)
      requires Rep() && st.running.Some? && st.running.value in st.slots && NoDup(st.slots)
      requires st.running.value !in st.runq && st.running.value !in st.sleeping
      modifies this`st, this`taskexitval, this`taskrunning, this`taskcount, this`nalltask, alltask
      modifies taskrunning`exiting, Elems(st.slots)`alltaskslot
      ensures Rep() && st == Exit(old(st), old(st).running.value, val)
    {
      hide NoDup, Table, Tasklist.Ok, Homes, SwapRemove, IndexOf, Lists, ReadyMarks, SystemMarks, AlarmTimes;
      taskexitval := val;
      taskrunning.exiting := true;
      var t := taskrunning;
      taskrunning := null;
      st := st.(exitval := val, running := None);
      if t.exiting {
        Bury(t);
      }
    }

    /** `taskdelay` links the running task in among the sleepers. */
    method EnterSleeping(when: nat)
      requires Rep() && st.running.Some? && st.running.value in st.slots && taskrunning.list == null
      requires taskrunning !in st.sleeping && NoDup(st.sleeping) && forall x | x in st.sleeping :: x in st.slots
      modifies this`st, sleeping, taskrunning`next, taskrunning`prev, taskrunning`list, taskrunning`alarmtime
      modifies Elems(st.sleeping)`next, Elems(st.sleeping)`prev
      ensures Rep()
      ensures var s, t := old(st), old(st).running.value;
              var i := Position(s.sleeping, s.alarm, when);
              st == s.(sleeping := More(s.sleeping, i, t), alarm := s.alarm[t := when])
    {
      hide NoDup, Alive, Table, Tasklist.Ok, Homes, Position, More, ReadyMarks, SystemMarks;
      ghost var i := Position(st.sleeping, st.alarm, when);
      EnlistSleeper(lists, st.slots, sleeping, taskrunning, when, st.alarm);
      hide AlarmTimes;
      assert Listing(st.runq, More(st.sleeping, i, st.running.value));
      hide Listing, Rep;
      NoteSleeper(i, when);
    }

    ghost method NoteSleeper(i: nat, when: nat)
      requires st.running.Some? && NoDup(st.sleeping) && st.running.value !in st.sleeping && i <= |st.sleeping|
      requires Listing(st.runq, More(st.sleeping, i, st.running.value)) && st.running.value.alarmtime == when
      modifies this`st
      ensures Rep()
      ensures var s, t := old(st), old(st).running.value;
              st == s.(sleeping := More(s.sleeping, i, t), alarm := s.alarm[t := when])
    {
      hide NoDup, Alive, Table, Tasklist.Ok, Homes, More, Lists, ReadyMarks, SystemMarks, AlarmTimes;
      ghost var t := st.running.value;
      AlarmsWith(st.sleeping, st.alarm, i, t, when);
      st := st.(sleeping := More(st.sleeping, i, t), alarm := st.alarm[t := when]);
    }

    /** `taskdelay` from the scan of the list to the switch */
    method Sleep(ms: nat, now: nat)
      requires Rep() && st.running.Some? && st.running.value in st.slots && taskrunning.list == null
      requires taskrunning !in st.sleeping && NoDup(st.sleeping) && forall x | x in st.sleeping :: x in st.slots
      modifies this`st, this`taskrunning, this`taskcount, this`sleepingcounted, this`clock
      modifies sleeping, taskrunning`next, taskrunning`prev, taskrunning`list, taskrunning`alarmtime
      modifies Elems(st.sleeping)`next, Elems(st.sleeping)`prev
      ensures Rep() && st == Delay(old(st), old(st).running.value, ms, now)
    {
      hide Rep, Delay, More, NoDup, Position;
      DelayIs(st, st.running.value, ms, now);
      Members();
      ReadClock(now);
      EnterSleeping(now + ms * NS_PER_MS);
      CountSleeper();
      Leave();
    }

    /** `taskdelay` counts the sleeper in. */
    method CountSleeper()
      requires Rep() && st.running.Some? && st.running.value in st.slots
      modifies this`st, this`taskcount, this`sleepingcounted
      ensures Rep()
      ensures var s := old(st);
              var counts := s.running.value !in s.system;
              st == s.(sleepingcounted := s.sleepingcounted + if counts then 1 else 0,
                       taskcount := s.taskcount + if counts && s.sleepingcounted == 0 then 1 else 0)
    {
      hide NoDup, Alive, Table, Tasklist.Ok, Homes, ReadyMarks, AlarmTimes, Lists;
      if !taskrunning.system {
        if sleepingcounted == 0 {
          taskcount := taskcount + 1;
        }
        sleepingcounted := sleepingcounted + 1;
      }
      st := st.(sleepingcounted := sleepingcounted, taskcount := taskcount);
    }

    /** The timer loop of `fdtask` takes the first sleeper off its list. */
    method TakeSleeper() returns (t: Task)
      requires Rep() && st.sleeping != [] && NoDup(st.sleeping) && forall x | x in st.sleeping :: x in st.slots
      modifies this`st, sleeping, Elems(st.sleeping)`next, Elems(st.sleeping)`prev, Elems(st.sleeping)`list
      ensures Rep() && t == old(st).sleeping[0] && t.list == null && st == old(st).(sleeping := old(st).sleeping[1..])
    {
      hide NoDup, Alive, Table, Tasklist.Ok, Homes, ReadyMarks, SystemMarks, AlarmTimes;
      t := DelHead(sleeping);
      assert Listing(st.runq, st.sleeping[1..]);
      hide Listing, Rep;
      NoteAwake();
    }

    ghost method NoteAwake()
      requires st.sleeping != [] && NoDup(st.sleeping) && Listing(st.runq, st.sleeping[1..])
      modifies this`st
      ensures Rep() && st == old(st).(sleeping := old(st).sleeping[1..])
    {
      hide NoDup, Alive, Table, Tasklist.Ok, Homes, Lists, ReadyMarks, SystemMarks;
      InTail(st.sleeping);
      assert AlarmTimes(st.sleeping[1..], st.alarm);
      hide AlarmTimes;
      st := st.(sleeping := st.sleeping[1..]);
    }

    /** The timer loop counts a woken sleeper out. */
    method UncountSleeper(t: Task)
      requires Rep() && t in st.slots
      modifies this`st, this`taskcount, this`sleepingcounted
      ensures Rep()
      ensures var s := old(st);
              var counts := t !in s.system;
              var left := s.sleepingcounted - if counts then 1 else 0;
              st == s.(sleepingcounted := left, taskcount := s.taskcount - if counts && left == 0 then 1 else 0)
    {
      hide NoDup, Alive, Table, Tasklist.Ok, Homes, ReadyMarks, AlarmTimes, Lists;
      if !t.system {
        sleepingcounted := sleepingcounted - 1;
        if sleepingcounted == 0 {
          taskcount := taskcount - 1;
        }
      }
      st := st.(sleepingcounted := sleepingcounted, taskcount := taskcount);
    }

    /** One turn of the timer loop */
    method WakeSleeper()
      requires Rep() && st.sleeping != [] && NoDup(st.sleeping)
      requires forall x | x in st.sleeping || x in st.runq :: x in st.slots
      modifies Repr()
      ensures Rep() && st == WakeFirst(old(st)) && Repr() == old(Repr()) && lists == old(lists)
      ensures forall m | m in old(lists) && m != taskrunqueue && m != sleeping :: m.contents == old(m.contents)
    {
      hide Rep, NoDup;
      Members();
      var t := TakeSleeper();
      UncountSleeper(t);
      TaskReady(t);
    }

    lemma Members()
      requires Rep()
      ensures taskrunqueue in lists && sleeping in lists && taskrunqueue != sleeping
      ensures taskrunqueue.contents == st.runq && sleeping.contents == st.sleeping
      ensures Scalars()
    {
    }

    /** One turn of the I/O loop: `data.ptr` of the event leads to the task. */
    method WakeParked(fd: nat)
      requires Rep() && fd in st.epoll && st.epoll[fd] in st.slots && st.epoll[fd].list == null
      requires forall x | x in st.runq :: x in st.slots
      modifies Repr()
      ensures Rep() && st == WakeFd(old(st), fd) && Repr() == old(Repr()) && lists == old(lists)
      ensures forall m | m in old(lists) && m != taskrunqueue && m != sleeping :: m.contents == old(m.contents)
    {
      hide Rep;
      Members();
      var t := epoll[fd];
      TaskReady(t);
      MoveParked(t);
    }

    ghost method MoveParked(t: Task)
      requires Rep()
      modifies this`st
      ensures Rep() && st == old(st).(parked := old(st).parked - {t}, woken := old(st).woken + {t})
    {
      hide NoDup, Alive, Table, Tasklist.Ok, Homes, ReadyMarks, SystemMarks, AlarmTimes, Lists;
      st := st.(parked := st.parked - {t}, woken := st.woken + {t});
    }

    /** `addtask` of the running task to the list of a lock or rendez */
    method WaitIn(l: Tasklist)
      requires Rep() && st.running.Some? && st.running.value in st.slots && taskrunning.list == null && WaitList(l)
      modifies this`st, l, taskrunning`next, taskrunning`prev, taskrunning`list, Elems(l.contents)
      ensures Rep() && st == old(st).(waiting := old(st).waiting + {old(st).running.value})
      ensures l.contents == old(l.contents) + [old(st).running.value]
    {
      hide NoDup, Alive, Table, Tasklist.Ok, Homes, ReadyMarks, SystemMarks, AlarmTimes;
      Enlist(lists, st.slots, l, taskrunning);
      assert Lists(st.runq, st.sleeping, st.waiting + {st.running.value});
      hide Lists, Rep;
      NoteWaiting(st.waiting + {st.running.value});
    }

    ghost method NoteWaiting(w: set<Task>)
      requires Scalars() && Table(st.slots) && Lists(st.runq, st.sleeping, w)
      requires (forall m | m in lists :: m.Ok()) && Homes(lists, st.slots)
      requires ReadyMarks(st.slots, st.runq) && SystemMarks(st.slots, st.system) && AlarmTimes(st.sleeping, st.alarm)
      requires Alive(st.slots)
      modifies this`st
      ensures Rep() && st == old(st).(waiting := w)
    {
      hide NoDup, Alive, Table, Tasklist.Ok, Homes, Lists, ReadyMarks, SystemMarks, AlarmTimes;
      st := st.(waiting := w);
    }

    /** A list that belongs to a lock or rendez */
    ghost predicate WaitList(l: Tasklist)
      reads this`lists
    {
      l in lists && l != taskrunqueue && l != sleeping
    }

    /** The first task leaves a list it waits in. */
    method TakeWaiter(l: Tasklist) returns (t: Task)
      requires Rep() && l in lists && l != taskrunqueue && l != sleeping && l.contents != []
      modifies l, Elems(l.contents)`next, Elems(l.contents)`prev, Elems(l.contents)`list
      ensures Rep() && t == old(l.contents)[0] && t.list == null && l.contents == old(l.contents)[1..]
    {
      hide NoDup, Alive, Table, Tasklist.Ok, Homes, ReadyMarks, SystemMarks, AlarmTimes;
      t := DelHead(l);
    }

    /** `deltask` and `taskready` of the first task of a list */
    method WakeHead(l: Tasklist) returns (t: Task)
      requires Rep() && WaitList(l) && l.contents != [] && forall x | x in l.contents || x in st.runq :: x in st.slots
      modifies Repr()
      ensures Rep() && t == old(l.contents)[0] && st == Wake(old(st), t) && l.contents == old(l.contents)[1..]
      ensures taskrunning == old(taskrunning) && alltask == old(alltask) && lists == old(lists)
      ensures forall m | m in lists && m != l && m != taskrunqueue :: m.contents == old(m.contents)
    {
      hide Rep;
      Members();
      t := TakeWaiter(l);
      EndWait(t);
      TaskReady(t);
    }

    /** A task that no list holds any more stops waiting. */
    ghost method EndWait(t: Task)
      requires Rep() && t.list == null
      modifies this`st
      ensures Rep() && st == old(st).(waiting := old(st).waiting - {t})
    {
      assert forall l | l in lists :: t !in l.contents;
      NoteWaiting(st.waiting - {t});
    }

    // ------------------------------------------------------------- the operations

    /** Everything the runtime may change */
    ghost function Repr(): set<object>
      reads this
    {
      {this, alltask} + lists + Elems(st.slots)
    }

    /** A task that is in no queue is in no list. */
    lemma Loose(t: Task)
      requires Rep() && t in st.slots && t !in st.runq && t !in st.sleeping && t !in st.waiting
      ensures t.list == null
    {
    }

    lemma RunningIsLoose()
      requires Valid() && st.running.Some?
      ensures taskrunning == st.running.value && taskrunning.list == null
      ensures taskrunning in st.slots && taskrunning !in st.runq && taskrunning !in st.sleeping
    {
      Loose(st.running.value);
    }

    /** `taskcreate` */
    method TaskCreate() returns (t: Task)
      requires Valid() && (st.fd != NotStarted ==> st.running.Some? && st.running.value != st.fd.task)
      modifies Repr()
      ensures Valid() && fresh(t) && st == Create(old(st), t)
      ensures fresh(Repr() - old(Repr())) && lists == old(lists)
      ensures taskrunqueue.contents == old(taskrunqueue.contents) + [t] && taskcount == old(taskcount) + 1
      ensures forall m | m in old(lists) && m != taskrunqueue && m != sleeping :: m.contents == old(m.contents)
    {
      hide Rep, Inv;
      Live(st);
      Members();
      t := AddTask();
      TaskReady(t);
      CreateKeeps(old(st), t);
      Members();
    }

    /** `tasksystem` */
    method TaskSystem()
      requires Valid() && st.running.Some?
      modifies Repr()
      ensures Valid() && st == MakeSystem(old(st), old(st).running.value) && Repr() == old(Repr())
      ensures lists == old(lists)
      ensures forall m | m in old(lists) && m != taskrunqueue && m != sleeping :: m.contents == old(m.contents)
    {
      hide Rep, Inv;
      RunningIsLoose();
      MarkSystem();
      MakeSystemKeeps(old(st));
    }

    /** `tasksystem` on the fields */
    method MarkSystem()
      requires Rep() && st.running.Some? && st.running.value in st.slots
      modifies this`st, this`taskcount, taskrunning`system
      ensures Rep() && st == MakeSystem(old(st), old(st).running.value)
    {
      hide NoDup, Alive, Table, Tasklist.Ok, Homes, ReadyMarks, AlarmTimes, Lists;
      if !taskrunning.system {
        taskrunning.system := true;
        taskcount := taskcount - 1;
      }
      st := MakeSystem(st, st.running.value);
    }

    /** `taskyield` up to its switch; `n` is the switch count it notes. */
    method TaskYield() returns (n: nat)
      requires Valid() && UserRuns(st)
      modifies Repr()
      ensures Valid() && st == Yield(old(st), old(st).running.value) && n == old(st).nswitch
      ensures Repr() == old(Repr()) && lists == old(lists)
      ensures taskrunqueue.contents == old(taskrunqueue.contents) + [old(taskrunning)] && taskrunning == null
      ensures forall m | m in old(lists) && m != taskrunqueue && m != sleeping :: m.contents == old(m.contents)
    {
      hide Rep, Inv;
      Live(st);
      Members();
      RunningIsLoose();
      n := tasknswitch;
      TaskReady(taskrunning);
      Leave();
      YieldKeeps(old(st));
      Members();
    }

    /** `taskyield` after its switch: it returns how many other tasks have run meanwhile. */
    method YieldResult(n: nat, ghost states: seq<Sys<Task>>, ghost acts: seq<Action<Task>>, ghost k: nat)
      returns (ran: int)
      requires Valid() && Run(states, acts) && Inv(states[0]) && |acts| > 0 && acts[0].DoYield?
      requires 0 < k < |acts| && acts[k].DoPick? && states[k+1].running == states[0].running
      requires forall i | 0 < i <= k :: states[i].running != states[0].running
      requires n == states[0].nswitch && st == states[k+1]
      ensures ran == |Elems(Started(states, acts, 1, k)) - {states[0].running.value}|
    {
      hide Rep, Inv, Do, Enabled;
      Members();
      YieldCounts(states, acts, k);
      ran := tasknswitch - n - 1;
    }

    /** Once round the loop of `taskscheduler` */
    method Schedule()
      requires Valid() && st.running == None && st.exit == None
      modifies Repr()
      ensures Valid() && Repr() == old(Repr()) && lists == old(lists)
      ensures st == if old(st).taskcount == 0 || old(st).runq == [] then Halt(old(st)) else Pick(old(st))
      ensures var q := old(taskrunqueue.contents);
              if old(taskcount) == 0 then ended == Some(old(taskexitval))
              else if q == [] then ended == Some(1)
              else ended == None && taskrunning == q[0] && tasknswitch == old(tasknswitch) + 1
      ensures forall m | m in old(lists) && m != taskrunqueue && m != sleeping :: m.contents == old(m.contents)
    {
      hide Rep, Inv;
      Live(st);
      Members();
      Heads();
      if taskcount == 0 {
        Stop(taskexitval);
      } else if taskrunqueue.head == null {
        Stop(1);
      } else {
        StartHead();
        PickKeeps(old(st));
      }
      Members();
    }

    /** `exit` */
    method Stop(val: int)
      requires Valid()
      modifies this`st, this`ended
      ensures Valid() && st == old(st).(exit := Some(val))
    {
      hide Inv, NoDup, Alive, Table, Tasklist.Ok, Homes, ReadyMarks, SystemMarks, AlarmTimes, Lists;
      EndKeeps(st, val);
      ended := Some(val);
      st := st.(exit := Some(val));
    }

    lemma Heads()
      requires Rep()
      ensures taskrunqueue.head == null <==> st.runq == []
      ensures sleeping.head == Nth(st.sleeping, 0)
    {
      HeadIsFirst(taskrunqueue);
      HeadIsFirst(sleeping);
    }

    /** `taskexit`, up to where the scheduler is about to pick the next task */
    method TaskExit(val: int)
      requires Valid() && UserRuns(st)
      modifies Repr()
      ensures Valid() && st == Exit(old(st), old(st).running.value, val)
      ensures alltask == old(alltask) && lists == old(lists) && Repr() <= old(Repr())
      ensures taskexitval == val && taskrunning == null
      ensures forall m | m in old(lists) && m != taskrunqueue && m != sleeping :: m.contents == old(m.contents)
    {
      hide Rep, Inv;
      Live(st);
      ghost var slots := Removed(st.slots, st.running.value);
      Members();
      RunningIsLoose();
      Die(val);
      ExitKeeps(old(st), val);
      Members();
    }

    /** `prepare_fdtask` */
    method PrepareFdTask()
      requires Valid() && st.fd == NotStarted && st.running.Some?
      modifies Repr()
      ensures Valid() && fdtask != null && fresh(fdtask) && st == StartFd(old(st), fdtask)
      ensures fresh(Repr() - old(Repr())) && lists == old(lists)
      ensures forall m | m in old(lists) && m != taskrunqueue && m != sleeping :: m.contents == old(m.contents)
    {
      hide Rep, Inv;
      var t := TaskCreate();
      SetFdTask(t);
      StartFdKeeps(old(st), t);
    }

    method SetFdTask(t: Task)
      requires Rep()
      modifies this`fdtask, this`fdyield, this`st
      ensures Rep() && fdtask == t && st == old(st).(fd := Fresh(t))
    {
      hide NoDup, Alive, Table, Tasklist.Ok, Homes, ReadyMarks, SystemMarks, AlarmTimes, Lists;
      fdtask, fdyield := t, None;
      st := st.(fd := Fresh(t));
    }

    /** `taskdelay` up to its switch */
    method TaskDelay(ms: nat, now: nat)
      requires Valid() && UserRuns(st) && st.clock <= now
      modifies Repr()
      ensures Valid() && fresh(Repr() - old(Repr())) && lists == old(lists) && st.fd != NotStarted
      ensures var s := if old(st).fd == NotStarted then StartFd(old(st), st.fd.task) else old(st);
              st == Delay(s, s.running.value, ms, now)
      ensures forall m | m in old(lists) && m != taskrunqueue && m != sleeping :: m.contents == old(m.contents)
    {
      hide Rep, Inv;
      Members();
      if fdtask == null {
        PrepareFdTask();
      }
      Live(st);
      Members();
      RunningIsLoose();
      DelayKeeps(st, ms, now);
      Sleep(ms, now);
    }

    /** `ms` whole milliseconds fit into `ns` nanoseconds, and no more. */
    static ghost predicate Elapsed(ns: nat, ms: nat) {
      ms * 1000000 <= ns < (ms + 1) * 1000000
    }

    /** What `taskdelay(want)` returns when it runs again at `later`: the milliseconds that
        have passed, in 32 bits. */
    method DelayResult(now: nat, later: nat, ghost want: nat) returns (ms: nat)
      requires now + want * 1000000 <= later
      ensures later - now < 0x1_0000_0000 * 1000000 ==>
                want <= ms && now + ms * 1000000 <= later < now + (ms + 1) * 1000000
      ensures ms < 0x1_0000_0000
      ensures exists wraps: nat :: Elapsed(later - now, wraps * 0x1_0000_0000 + ms)
    {
      var all := (later - now) / NS_PER_MS;
      ms := all % 0x1_0000_0000;
      assert Elapsed(later - now, all / 0x1_0000_0000 * 0x1_0000_0000 + ms);
    }

    /** `fdwait` up to its switch: 'r' and 'w' register the fd, anything else registers
        nothing, so that the task never runs again. */
    method FdWait(fd: nat, rw: char)
      requires Valid() && UserRuns(st)
      modifies Repr()
      ensures Valid() && fresh(Repr() - old(Repr())) && lists == old(lists) && st.fd != NotStarted
      ensures var s := if old(st).fd == NotStarted then StartFd(old(st), st.fd.task) else old(st);
              st == if rw == 'r' || rw == 'w' then Park(s, s.running.value, fd)
                    else ParkUnregistered(s, s.running.value)
      ensures st.exit == None ==> (Forgotten(st, old(st).running.value) <==> rw != 'r' && rw != 'w')
      ensures rw == 'r' || rw == 'w' ==>
                if fd in old(epoll) then ended == Some(17)
                else fd in epoll && epoll[fd] == old(st).running.value && ended == old(ended)
      ensures forall m | m in old(lists) && m != taskrunqueue && m != sleeping :: m.contents == old(m.contents)
    {
      hide Rep, Inv;
      Members();
      if fdtask == null {
        PrepareFdTask();
      }
      Members();
      if rw == 'r' || rw == 'w' {
        ParkKeeps(st, fd);
        Register(fd);
        assert st.exit == None ==> fd in st.epoll;
      } else {
        ParkUnregisteredKeeps(st);
        Unregistered(st);
        WaitForNothing();
      }
      Members();
    }

    /** `epoll_ctl` with `EPOLL_CTL_ADD` */
    method Register(fd: nat)
      requires Rep() && st.running.Some?
      modifies this`st, this`epoll, this`ended, this`taskrunning
      ensures Rep() && st == Park(old(st), old(st).running.value, fd)
    {
      hide NoDup, Alive, Table, Tasklist.Ok, Homes, ReadyMarks, SystemMarks, AlarmTimes, Lists;
      if fd in epoll {
        ended := Some(EEXIST);
      } else {
        epoll := epoll[fd := taskrunning];
        taskrunning := null;
      }
      st := Park(st, st.running.value, fd);
    }

    /** `taskswitch` of a task that is in no list */
    method WaitForNothing()
      requires Rep() && st.running.Some?
      modifies this`st, this`taskrunning
      ensures Rep() && st == ParkUnregistered(old(st), old(st).running.value)
    {
      hide NoDup, Alive, Table, Tasklist.Ok, Homes, ReadyMarks, SystemMarks, AlarmTimes;
      taskrunning := null;
      st := ParkUnregistered(st, st.running.value);
    }

    /** `fdwait` after its switch */
    method FdWaitDone(fd: nat)
      requires Valid() && st.running.Some? && st.running.value in st.woken
      requires fd in st.epoll && st.epoll[fd] == st.running.value
      modifies Repr()
      ensures Valid() && st == Unpark(old(st), old(st).running.value, fd) && Repr() == old(Repr())
      ensures lists == old(lists)
      ensures epoll == old(epoll) - {fd}
      ensures forall m | m in old(lists) && m != taskrunqueue && m != sleeping :: m.contents == old(m.contents)
    {
      UnparkKeeps(st, fd);
      hide Rep, Inv;
      Unregister(fd);
      Members();
    }

    /** `epoll_ctl` with `EPOLL_CTL_DEL` */
    method Unregister(fd: nat)
      requires Rep() && st.running.Some?
      modifies this`st, this`epoll
      ensures Rep() && st == Unpark(old(st), old(st).running.value, fd)
    {
      hide NoDup, Alive, Table, Tasklist.Ok, Homes, ReadyMarks, SystemMarks, AlarmTimes, Lists;
      epoll := epoll - {fd};
      st := Unpark(st, st.running.value, fd);
    }

    /** The timeout for the poll */
    method Timeout(now: nat) returns (ms: int)
      requires Valid()
      ensures ms == PollMs(st.sleeping, st.alarm, now)
    {
      assert Places(st) && Sorted(st.sleeping, st.alarm);
      hide Rep, Places, Sorted, Inv;
      FirstSleeper();
      var t := sleeping.head;
      if t == null {
        ms := -1;
      } else if now >= t.alarmtime {
        ms := 0;
      } else if now + 5 * 1000 * 1000 * 1000 >= t.alarmtime {
        ms := (t.alarmtime - now) / 1000000;
      } else {
        ms := 5000;
      }
    }

    /** The I/O loop of `fdtask` */
    method WakeReported(events: seq<nat>)
      requires Valid() && st.fd.Yielded? && st.running == Some(st.fd.task) && st.nswitch - st.fd.n - 1 <= 0
      requires NoDup(events) && forall f | f in events :: f in st.epoll
      modifies Repr()
      ensures Rep() && st == WakeFds(old(st), events) && Repr() == old(Repr()) && lists == old(lists)
      ensures forall m | m in old(lists) && m != taskrunqueue && m != sleeping :: m.contents == old(m.contents)
    {
      hide Rep, Inv, WakeFds, WakeFd, NoDup;
      ghost var s := st;
      NoEvents(s);
      var i := 0;
      while i < |events|
        invariant i <= |events| && Rep() && st == WakeFds(s, events[..i]) && Repr() == old(Repr())
        invariant lists == old(lists)
        invariant forall m | m in old(lists) && m != taskrunqueue && m != sleeping :: m.contents == old(m.contents)
      {
        WakeFdsTurn(s, events, i);
        ParkedIsLoose(st.epoll[events[i]]);
        WakeParked(events[i]);
        i := i + 1;
      }
      assert events[..i] == events;
    }

    lemma ParkedIsLoose(t: Task)
      requires Rep() && Places(st) && t in st.parked
      ensures t in st.slots && t.list == null && forall x | x in st.runq :: x in st.slots
    {
      Loose(t);
    }

    /** The timer loop of `fdtask` */
    method WakeDue(now: nat)
      requires Rep() && Places(st) && Counts(st) && Sorted(st.sleeping, st.alarm) && st.clock <= now
      modifies Repr()
      ensures Rep() && st == Drain(old(st), now) && Repr() == old(Repr()) && lists == old(lists)
      ensures forall m | m in old(lists) && m != taskrunqueue && m != sleeping :: m.contents == old(m.contents)
    {
      hide Rep, Places, Counts, Sorted, Drain, WakeFirst, NoDup;
      ClockReadKeeps(st, now);
      ReadClock(now);
      ghost var goal := Drain(st, now);
      var t := sleeping.head;
      while t != null && now >= t.alarmtime
        invariant Rep() && Places(st) && Counts(st) && Sorted(st.sleeping, st.alarm) && st.clock == now
        invariant Drain(st, now) == goal && Repr() == old(Repr()) && lists == old(lists) && t == sleeping.head
        invariant forall m | m in old(lists) && m != taskrunqueue && m != sleeping :: m.contents == old(m.contents)
        decreases |st.sleeping|
      {
        FirstSleeper();
        DrainTurn(st, now);
        WakeSleeper();
        t := sleeping.head;
      }
      FirstSleeper();
      DrainDone(st, now);
    }

    /** `fdtask` from where it gets control to where it yields it again.  If it polls, then
        between its two readings of the clock the poll returns `retval`, the number of the
        `events` it reports; a negative number ends the process.  `EINTR` is positive, so
        that the test for it after a failed poll never succeeds.  `ms` is the timeout. */
    method FdTask(retval: int, events: seq<nat>, now1: nat, now: nat) returns (ms: int)
      requires Valid() && st.fd != NotStarted && st.running == Some(st.fd.task) && st.clock <= now1 <= now
      requires retval == |events| || (retval < 0 && events == [])
      requires NoDup(events) && forall f | f in events :: f in st.epoll
      modifies Repr()
      ensures Valid() && Repr() == old(Repr()) && lists == old(lists)
      ensures var s := old(st);
              var polls := s.fd.Yielded? && s.nswitch - s.fd.n - 1 <= 0;
              && st == (if polls && retval < 0 then s.(exit := Some(0)) else FdRound(s, events, now))
              && (polls ==> ms == PollMs(s.sleeping, s.alarm, now1))
      ensures forall m | m in old(lists) && m != taskrunqueue && m != sleeping :: m.contents == old(m.contents)
    {
      hide Rep, Inv, FdRound;
      Members();
      if retval < 0 && fdyield != None && tasknswitch - fdyield.value - 1 <= 0 {
        ms := Timeout(now1);
        Stop(0);
      } else {
        ms := FdTurn(events, now1, now);
      }
    }

    /** `fdtask` unless its poll fails */
    method FdTurn(events: seq<nat>, now1: nat, now: nat) returns (ms: int)
      requires Valid() && st.fd != NotStarted && st.running == Some(st.fd.task) && st.clock <= now1 <= now
      requires NoDup(events) && forall f | f in events :: f in st.epoll
      modifies Repr()
      ensures Valid() && st == FdRound(old(st), events, now) && Repr() == old(Repr()) && lists == old(lists)
      ensures var s := old(st);
              s.fd.Yielded? && s.nswitch - s.fd.n - 1 <= 0 ==> ms == PollMs(s.sleeping, s.alarm, now1)
      ensures forall m | m in old(lists) && m != taskrunqueue && m != sleeping :: m.contents == old(m.contents)
    {
      hide Rep, Inv, Drain, WakeFds, MakeSystem, Places, NoDup;
      FdRoundKeeps(st, events, now);
      ms := FdWork(events, now1, now);
      YieldAgain();
    }

    /** `taskyield` of `fdtask` */
    method YieldAgain()
      requires Rep() && Places(st) && st.running.Some? && st.fd != NotStarted
      modifies Repr()
      ensures Rep() && Repr() == old(Repr()) && lists == old(lists)
      ensures var s := old(st);
              st == Yield(s, s.running.value).(fd := Yielded(s.fd.task, s.nswitch))
      ensures forall m | m in old(lists) && m != taskrunqueue && m != sleeping :: m.contents == old(m.contents)
    {
      hide Rep, Places;
      PlacedIsLoose();
      TaskReady(taskrunning);
      NoteSwitches();
      Leave();
    }

    /** What `fdtask` does before it yields: first it makes itself a system task; later, unless
        `taskyield` said that others were ready, it polls. */
    method FdWork(events: seq<nat>, now1: nat, now: nat) returns (ms: int)
      requires Valid() && st.fd != NotStarted && st.running == Some(st.fd.task) && st.clock <= now1 <= now
      requires NoDup(events) && forall f | f in events :: f in st.epoll
      modifies Repr()
      ensures Rep() && Places(st) && Repr() == old(Repr()) && lists == old(lists)
      ensures var s := old(st);
              && st.running == s.running && st.fd == s.fd && st.nswitch == s.nswitch
              && st == (if s.fd.Fresh? then MakeSystem(s, s.fd.task)
                        else if s.nswitch - s.fd.n - 1 > 0 then s
                        else Drain(WakeFds(s, events), now))
              && (s.fd.Yielded? && s.nswitch - s.fd.n - 1 <= 0 ==> ms == PollMs(s.sleeping, s.alarm, now1))
      ensures forall m | m in old(lists) && m != taskrunqueue && m != sleeping :: m.contents == old(m.contents)
    {
      hide Rep, Inv, Places, Drain, WakeFds, NoDup;
      ms := 0;
      Members();
      FdMiddle(st, events, now);
      if fdyield == None {
        RunningIsLoose();
        MarkSystem();
      } else if tasknswitch - fdyield.value - 1 <= 0 {
        ms := Poll(events, now1, now);
      }
    }

    /** `taskyield` notes the switch count. */
    method NoteSwitches()
      requires Rep() && st.fd != NotStarted
      modifies this`fdyield, this`st
      ensures Rep() && st == old(st).(fd := Yielded(old(st).fd.task, old(st).nswitch))
    {
      hide NoDup, Alive, Table, Tasklist.Ok, Homes, ReadyMarks, SystemMarks, AlarmTimes, Lists;
      fdyield := Some(tasknswitch);
      st := st.(fd := Yielded(st.fd.task, st.nswitch));
    }

    /** `fdtask` when it is alone */
    method Poll(events: seq<nat>, now1: nat, now: nat) returns (ms: int)
      requires Valid() && st.fd.Yielded? && st.running == Some(st.fd.task) && st.nswitch - st.fd.n - 1 <= 0
      requires NoDup(events) && (forall f | f in events :: f in st.epoll) && st.clock <= now
      modifies Repr()
      ensures Rep() && st == Drain(WakeFds(old(st), events), now) && Repr() == old(Repr()) && lists == old(lists)
      ensures ms == PollMs(old(st).sleeping, old(st).alarm, now1)
      ensures forall m | m in old(lists) && m != taskrunqueue && m != sleeping :: m.contents == old(m.contents)
    {
      hide Rep, Inv, Places, Counts, Sorted, Drain, WakeFds, NoDup;
      FdMiddle(st, events, now);
      ms := Timeout(now1);
      WakeReported(events);
      WakeDue(now);
    }

    lemma PlacedIsLoose()
      requires Rep() && Places(st) && st.running.Some?
      ensures taskrunning == st.running.value && taskrunning.list == null && taskrunning in st.slots
      ensures taskrunqueue in lists && forall x | x in st.runq :: x in st.slots
    {
      Loose(st.running.value);
    }

    /** `nsec` */
    method ReadClock(now: nat)
      requires Rep()
      modifies this`st, this`clock
      ensures Rep() && st == old(st).(clock := now)
    {
      hide NoDup, Alive, Table, Tasklist.Ok, Homes, ReadyMarks, SystemMarks, AlarmTimes, Lists;
      clock := now;
      st := st.(clock := now);
    }

    lemma FirstSleeper()
      requires Rep() && Places(st) && Sorted(st.sleeping, st.alarm)
      ensures sleeping.head == Nth(st.sleeping, 0)
      ensures st.sleeping != [] ==> st.sleeping[0] in st.alarm && sleeping.head.alarmtime == st.alarm[st.sleeping[0]]
      ensures NoDup(st.sleeping) && forall x | x in st.sleeping || x in st.runq :: x in st.slots
    {
      Heads();
      hide Table, Lists, Homes;
      assert st.sleeping != [] ==> st.sleeping[0] in st.sleeping;
    }

    /** A list for a new lock or rendez */
    method NewList() returns (l: Tasklist)
      requires Valid()
      modifies this`lists
      ensures Valid() && fresh(l) && l.contents == [] && WaitList(l) && lists == old(lists) + {l} && st == old(st)
    {
      hide Inv, NoDup, Table, Tasklist.Ok;
      l := new Tasklist();
      lists := lists + {l};
    }

    lemma Waiters(l: Tasklist)
      requires Rep() && WaitList(l)
      ensures l.head == Nth(l.contents, 0) && forall t | t in l.contents :: t in st.waiting
    {
      HeadIsFirst(l);
    }

    /** A lock makes the running task wait: `addtask` and `taskswitch`. */
    method BlockOn(l: Tasklist)
      requires Valid() && UserRuns(st) && WaitList(l)
      modifies Repr()
      ensures Valid() && st == Block(old(st), old(st).running.value) && Repr() == old(Repr()) && lists == old(lists)
      ensures l.contents == old(l.contents) + [old(st).running.value]
      ensures forall m | m in lists && m != l :: m.contents == old(m.contents)
    {
      hide Rep, Inv;
      Live(st);
      Waiters(l);
      RunningIsLoose();
      BlockKeeps(st);
      WaitIn(l);
      Leave();
    }

    /** `taskswitch` in `chanalt`: the running task waits, and no list holds it. */
    method BlockOnChannel()
      requires Valid() && UserRuns(st)
      modifies Repr()
      ensures Valid() && st == BlockChan(old(st), old(st).running.value) && Repr() == old(Repr()) && lists == old(lists)
      ensures forall m | m in old(lists) && m != taskrunqueue && m != sleeping :: m.contents == old(m.contents)
    {
      hide Rep, Inv;
      BlockChanKeeps(st);
      Leave();
      NoteChannelWait(st.chanwait + {old(st).running.value});
    }

    /** `taskready` in `altexec` */
    method WakeFromChannel(t: Task)
      requires Valid() && UserRuns(st) && t in st.chanwait
      modifies Repr()
      ensures Valid() && st == WakeChan(old(st), t) && Repr() == old(Repr()) && lists == old(lists)
      ensures taskrunqueue.contents == old(taskrunqueue.contents) + [t]
      ensures forall m | m in old(lists) && m != taskrunqueue && m != sleeping :: m.contents == old(m.contents)
    {
      hide Rep, Inv;
      Live(st);
      Members();
      ChannelWaiterIsLoose(t);
      WakeChanKeeps(st, t);
      NoteChannelWait(st.chanwait - {t});
      TaskReady(t);
      Members();
    }

    lemma ChannelWaiterIsLoose(t: Task)
      requires Valid() && t in st.chanwait
      ensures t.list == null
    {
      Loose(t);
    }

    ghost method NoteChannelWait(w: set<Task>)
      requires Rep()
      modifies this`st
      ensures Rep() && st == old(st).(chanwait := w)
    {
      hide NoDup, Alive, Table, Tasklist.Ok, Homes, ReadyMarks, SystemMarks, AlarmTimes, Lists;
      st := st.(chanwait := w);
    }

    /** A lock makes the first task of a list ready. */
    method WakeFrom(l: Tasklist) returns (t: Task)
      requires Valid() && UserRuns(st) && WaitList(l) && l.contents != []
      modifies Repr()
      ensures Valid() && st == Wake(old(st), t) && Repr() == old(Repr()) && lists == old(lists)
      ensures t == old(l.contents)[0] && l.contents == old(l.contents)[1..]
      ensures forall m | m in lists && m != l && m != taskrunqueue :: m.contents == old(m.contents)
    {
      hide Rep, Inv;
      Live(st);
      Waiters(l);
      WakeKeeps(st, l.contents[0]);
      t := WakeHead(l);
    }
  }

  /** What holds at the points of `fdtask` between its loops */
  lemma FdMiddle(s: Sys<Task>, events: seq<nat>, now: nat)
    requires Inv(s) && s.fd != NotStarted && s.running == Some(s.fd.task)
    requires NoDup(events) && forall f | f in events :: f in s.epoll
    ensures Places(s) && Places(MakeSystem(s, s.fd.task))
    ensures s.fd.Yielded? && s.nswitch - s.fd.n - 1 <= 0 ==>
              var w := WakeFds(s, events);
              && Places(w) && Counts(w) && Sorted(w.sleeping, w.alarm) && w.clock == s.clock
              && Places(Drain(w, now)) && Drain(w, now).running == s.running && Drain(w, now).fd == s.fd
              && Drain(w, now).nswitch == s.nswitch
  {
    if s.fd.Yielded? && s.nswitch - s.fd.n - 1 <= 0 {
      WakeFdsKeeps(s, events);
      DrainKeepsPlaces(WakeFds(s, events), now);
    }
  }

  /** No fd is registered for a task that runs, unless it has not left `fdwait` yet. */
  lemma Unregistered(s: Sys<Task>)
    requires Inv(s) && UserRuns(s)
    ensures Forgotten(ParkUnregistered(s, s.running.value), s.running.value)
  {
  }

  /** Changes outside the runtime do not concern it. */
  twostate lemma Unaffected(s: Sched)
    requires old(s.Valid()) && unchanged(s) && unchanged(old(s.Repr()))
    ensures s.Valid()
  {
    hide NoDup, Counts, Sorted, Registrations, FdOk;
    forall l | l in s.lists ensures l.Ok() {
      assert forall t | t in l.contents :: t in s.st.slots;
    }
  }

  twostate lemma RepUnaffected(s: Sched)
    requires old(s.Rep()) && unchanged(s) && unchanged(old(s.Repr()))
    requires forall t | t in s.st.runq || t in s.st.sleeping || t in s.st.waiting :: t in s.st.slots
    ensures s.Rep()
  {
    hide NoDup;
    forall l | l in s.lists ensures l.Ok() {
      assert forall t | t in l.contents :: t in s.st.slots;
    }
  }

  /** What the invariant says about the places of tasks */
  lemma Live(s: Sys<Task>)
    requires Inv(s)
    ensures NoDup(s.slots) && NoDup(s.runq) && NoDup(s.sleeping)
    ensures forall x | x in s.system || x in s.runq || x in s.sleeping || x in s.waiting :: x in s.slots
    ensures forall x | x in s.parked || x in s.chanwait :: x in s.slots
    ensures s.running.Some? ==> s.running.value in s.slots
  {
  }

  method EnlistSleeper(ghost lists: set<Tasklist>, ghost tasks: seq<Task>, sleeping: Tasklist, r: Task, when: nat,
                       ghost alarm: map<Task, nat>)
    requires (forall m | m in lists :: m.Ok()) && Homes(lists, tasks) && sleeping in lists && r.list == null
    requires forall x | x in sleeping.contents :: x in alarm && x.alarmtime == alarm[x]
    modifies sleeping, r`next, r`prev, r`list, r`alarmtime, sleeping.contents`next, sleeping.contents`prev
    ensures (forall m | m in lists :: m.Ok()) && Homes(lists, tasks) && r.alarmtime == when && r.list == sleeping
    ensures var q := old(sleeping.contents);
            sleeping.contents == More(q, Position(q, alarm, when), r)
  {
    hide NoDup, Homes, Position;
    assert forall m | m in lists :: r !in m.contents;
    InsertSleeper(sleeping, r, when, alarm);
    Untouched(lists, sleeping, r);
    OneMore(lists, tasks, sleeping, r, Position(old(sleeping.contents), alarm, when));
  }

  twostate lemma OneMore(lists: set<Tasklist>, new tasks: seq<Task>, new l: Tasklist, new t: Task, new k: nat)
    requires l in lists && old(allocated(tasks)) && old(allocated(t))
    requires old(l.Ok()) && old(Homes(lists, tasks)) && k <= |old(l.contents)| && old(t.list) == null
    requires l in lists && l.contents == More(old(l.contents), k, t) && t.list == l
    requires forall m | m in lists && m != l :: m.contents == old(m.contents)
    requires forall x | x in tasks && x != t :: x.list == old(x.list)
    ensures Homes(lists, tasks)
  {
    MoreAt(old(l.contents), k, t);
  }

  lemma Tail(q: seq<Task>)
    requires q != []
    ensures Less(q, 0) == q[1..]
  {
  }

  lemma InTail(q: seq<Task>)
    requires NoDup(q) && q != []
    ensures forall x :: x in q[1..] <==> x in q && x != q[0]
  {
    LessAt(q, 0);
    Tail(q);
  }

  lemma DelayIs(s: Sys<Task>, t: Task, ms: nat, now: nat)
    ensures var when := now + ms * NS_PER_MS;
            var counts := t !in s.system;
            Delay(s, t, ms, now) ==
              s.(sleeping := More(s.sleeping, Position(s.sleeping, s.alarm, when), t), alarm := s.alarm[t := when],
                 sleepingcounted := s.sleepingcounted + if counts then 1 else 0,
                 taskcount := s.taskcount + if counts && s.sleepingcounted == 0 then 1 else 0,
                 running := None, clock := now)
  {
  }

  lemma NoTasks(s: Sched)
    requires s.st == Idle() && s.Scalars() && s.nalltask == 0 && s.lists == {s.taskrunqueue, s.sleeping}
    requires s.taskrunqueue != s.sleeping && s.taskrunqueue.contents == [] == s.sleeping.contents
    requires s.taskrunqueue.Ok() && s.sleeping.Ok()
    ensures s.Rep()
  {
    hide Tasklist.Ok;
  }

  lemma MarksWithout(tasks: seq<Task>, fewer: seq<Task>, t: Task, runq: seq<Task>, system: set<Task>)
    requires ReadyMarks(tasks, runq) && SystemMarks(tasks, system)
    requires (forall x :: x in fewer <==> x in tasks && x != t) && forall x | x in tasks && x != t :: !x.exiting
    ensures ReadyMarks(fewer, runq) && SystemMarks(fewer, system - {t}) && Alive(fewer)
  {
  }

  lemma MarksWith(tasks: seq<Task>, t: Task, runq: seq<Task>, system: set<Task>)
    requires ReadyMarks(tasks, runq) && SystemMarks(tasks, system) && Alive(tasks)
    requires !t.ready && !t.system && !t.exiting && t !in runq && t !in system
    ensures ReadyMarks(tasks + [t], runq) && SystemMarks(tasks + [t], system) && Alive(tasks + [t])
  {
  }

  lemma AlarmsWith(asleep: seq<Task>, alarm: map<Task, nat>, i: nat, t: Task, when: nat)
    requires AlarmTimes(asleep, alarm) && NoDup(asleep) && t !in asleep && i <= |asleep| && t.alarmtime == when
    ensures AlarmTimes(More(asleep, i, t), alarm[t := when])
  {
    MoreAt(asleep, i, t);
  }

  lemma MoreHomes(lists: set<Tasklist>, tasks: seq<Task>, t: Task)
    requires Homes(lists, tasks) && t.list == null
    ensures Homes(lists, tasks + [t])
  {
  }

  lemma Removed(q: seq<Task>, t: Task) returns (r: seq<Task>)
    requires NoDup(q) && t in q
    ensures r == SwapRemove(q, IndexOf(q, t)) && forall x :: x in r <==> x in q && x != t
  {
    r := SwapRemove(q, IndexOf(q, t));
    SwapRemoved(q, IndexOf(q, t));
  }

  lemma FewerHomes(lists: set<Tasklist>, tasks: seq<Task>, fewer: seq<Task>)
    requires Homes(lists, tasks) && forall t | t in fewer :: t in tasks
    ensures Homes(lists, fewer)
  {
  }

  lemma HeadIsFirst(l: Tasklist)
    requires l.Ok()
    ensures l.head == Nth(l.contents, 0)
  {
  }

  /** The size `taskcreate` gives the table as it grows: the next multiple of 64. */
  ghost function Capacity(n: nat): nat {
    (n + 63) / 64 * 64
  }
}
