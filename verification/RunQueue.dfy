/** The run queue as a value: what the scheduler's linked ring means
    (kernel/core/multitask/scheduler.c, kernel/arch/i586/sw/task.c).

    `ring` lists the runnable threads in the order they will run, the active
    thread first.  The operations below are the specification that the class in
    Scheduler.dfy is proved against. */
module RunQueue {
  import opened Ports

  const TIMESLICE := 5

  datatype RunState = New | Active | Sending | Waiting | Old

  /** The registers pushed by an interrupt; `eax` doubles as the system call result. */
  datatype Frame = Frame(eip: nat, esp: nat, eax: int, rest: seq<nat>)

  datatype Task = Task(entry: nat, stack: nat, frame: Frame)

  const ZERO_FRAME := Frame(0, 0, 0, [])

  datatype Sched = Sched(
    ring: seq<Uid>,
    slice: nat,               // remaining time slice of the active thread
    run: map<Uid, RunState>,  // state of every live thread
    tasks: map<Uid, Task>,
    frame: Frame,             // registers of the thread the kernel will return to
    loaded: nat               // process whose address space is loaded
  )

  // ----- Sequences without some members -----

  function Keep(ring: seq<Uid>, gone: set<Uid>): (r: seq<Uid>) {
    if ring == [] then []
    else if ring[0] in gone then Keep(ring[1..], gone)
    else [ring[0]] + Keep(ring[1..], gone)
  }

  ghost predicate Distinct(ring: seq<Uid>) {
    forall i, j :: 0 <= i < j < |ring| ==> ring[i] != ring[j]
  }

  lemma {:induction false} KeepMembers(ring: seq<Uid>, gone: set<Uid>)
    ensures forall u :: u in Keep(ring, gone) <==> u in ring && u !in gone
    ensures Distinct(ring) ==> Distinct(Keep(ring, gone))
  {
    if ring != [] {
      KeepMembers(ring[1..], gone);
      assert ring == [ring[0]] + ring[1..];
    }
  }

  lemma {:induction false} KeepConcat(a: seq<Uid>, b: seq<Uid>, gone: set<Uid>)
    ensures Keep(a + b, gone) == Keep(a, gone) + Keep(b, gone)
  {
    if a == [] {
      assert a + b == b;
    } else {
      KeepConcat(a[1..], b, gone);
      Behind(a, b);
      Regroup(a[0], Keep(a[1..], gone), Keep(b, gone));
    }
  }

  lemma Behind(a: seq<Uid>, b: seq<Uid>)
    requires a != []
    ensures a + b != [] && (a + b)[0] == a[0] && (a + b)[1..] == a[1..] + b
  {}

  lemma Regroup(u: Uid, a: seq<Uid>, b: seq<Uid>)
    ensures [u] + (a + b) == ([u] + a) + b
  {}

  lemma {:induction false} KeepAll(ring: seq<Uid>, gone: set<Uid>)
    requires forall u :: u in ring ==> u !in gone
    ensures Keep(ring, gone) == ring
  {
    if ring != [] {
      KeepAll(ring[1..], gone);
    }
  }

  /** Removing one member of a duplicate-free ring cuts it out and keeps the order. */
  lemma KeepCutsOne(ring: seq<Uid>, k: nat)
    requires k < |ring| && Distinct(ring)
    ensures Keep(ring, {ring[k]}) == ring[..k] + ring[k + 1..]
  {
    hide Keep, Distinct;
    var a, u, b := ring[..k], ring[k], ring[k + 1..];
    OnlyOnce(ring, k);
    SplitAt(ring, k);
    KeepAround(a, u, b);
  }

  lemma SplitAt(ring: seq<Uid>, k: nat)
    requires k < |ring|
    ensures ring == ring[..k] + ([ring[k]] + ring[k + 1..])
  {}

  lemma OnlyOnce(ring: seq<Uid>, k: nat)
    requires k < |ring| && Distinct(ring)
    ensures ring[k] !in ring[..k] && ring[k] !in ring[k + 1..]
  {}

  lemma KeepAround(a: seq<Uid>, u: Uid, b: seq<Uid>)
    requires u !in a && u !in b
    ensures Keep(a + ([u] + b), {u}) == a + b
  {
    hide Keep;
    KeepConcat(a, [u] + b, {u});
    KeepConcat([u], b, {u});
    KeepNone(u);
    KeepAll(a, {u});
    KeepAll(b, {u});
    assert [] + b == b;
  }

  lemma KeepNone(u: Uid)
    ensures Keep([u], {u}) == []
  {}

  lemma {:induction false} KeepTwice(ring: seq<Uid>, a: set<Uid>, b: set<Uid>)
    ensures Keep(Keep(ring, a), b) == Keep(ring, a + b)
  {
    if ring != [] {
      KeepTwice(ring[1..], a, b);
      if ring[0] !in a {
        assert Keep(ring, a) == [ring[0]] + Keep(ring[1..], a);
      }
    }
  }

  // ----- Scheduler operations -----

  function Add(s: Sched, u: Uid): Sched {
    s.(ring := s.ring + [u],
       slice := if s.ring == [] then TIMESLICE else s.slice,
       run := s.run[u := Active])
  }

  /** Take the threads of `gone` out of the queue; they become Old. */
  function RemoveAll(s: Sched, gone: set<Uid>): Sched {
    s.(ring := Keep(s.ring, gone),
       slice := if s.ring != [] && s.ring[0] in gone then TIMESLICE else s.slice,
       run := map u | u in s.run :: if u in gone && u in s.ring then Old else s.run[u])
  }

  function Remove(s: Sched, u: Uid): Sched {
    RemoveAll(s, {u})
  }

  /** The registers a task continues with: its saved frame, or its entry point the first time. */
  function Resume(t: Task, current: Frame): Frame {
    if t.frame.eip == 0 then current.(eip := t.entry, esp := t.stack) else t.frame
  }

  function TaskOf(s: Sched, u: Uid): Task {
    if u in s.tasks then s.tasks[u] else Task(0, 0, ZERO_FRAME)
  }

  function Save(s: Sched, u: Uid): Sched {
    if u in s.tasks then s.(tasks := s.tasks[u := s.tasks[u].(frame := s.frame)]) else s
  }

  /** Rotate the queue; with one thread in it there is nothing to switch to. */
  function Next(s: Sched): Sched {
    if |s.ring| <= 1 then
      s.(slice := TIMESLICE)
    else
      var curr, next := s.ring[0], s.ring[1];
      var saved := Save(s, curr);
      saved.(ring := s.ring[1..] + [curr],
             slice := TIMESLICE,
             frame := Resume(TaskOf(saved, next), s.frame),
             loaded := if curr.pid != next.pid then next.pid else s.loaded)
  }

  function Tick(s: Sched): Sched {
    if s.slice <= 1 then Next(s) else s.(slice := s.slice - 1)
  }

  function Lock(s: Sched): Sched {
    if s.ring == [] then s else Save(s, s.ring[0])
  }

  function Unlock(s: Sched): Sched {
    if s.ring == [] then s
    else s.(frame := Resume(TaskOf(s, s.ring[0]), s.frame), loaded := s.ring[0].pid)
  }

  function Block(s: Sched, u: Uid, why: RunState): Sched {
    s.(run := s.run[u := why])
  }

  function Enter(s: Sched, u: Uid, entry: nat, stack: nat): Sched {
    s.(run := s.run[u := New], tasks := s.tasks[u := Task(entry, stack, ZERO_FRAME)])
  }

  function Leave(s: Sched, gone: set<Uid>): Sched {
    s.(run := s.run - gone, tasks := s.tasks - gone)
  }

  function Return(s: Sched, code: int): Sched {
    s.(frame := s.frame.(eax := code))
  }

  // ----- What every operation keeps -----

  /** The queue holds exactly the Active threads, once each. */
  ghost predicate QueueOk(s: Sched) {
    && Distinct(s.ring)
    && s.run.Keys == s.tasks.Keys
    && (forall u :: u in s.ring ==> u in s.run)
    && (forall u :: u in s.run ==> (s.run[u] == Active <==> u in s.ring))
    && 1 <= s.slice <= TIMESLICE
  }

  lemma AddKeepsQueue(s: Sched, u: Uid)
    requires QueueOk(s) && u in s.run && s.run[u] != Active
    ensures QueueOk(Add(s, u))
  {}

  lemma RemoveKeepsQueue(s: Sched, gone: set<Uid>)
    requires QueueOk(s)
    ensures QueueOk(RemoveAll(s, gone))
    ensures forall u :: u in s.run && !(u in gone && u in s.ring) ==> RemoveAll(s, gone).run[u] == s.run[u]
  {
    KeepMembers(s.ring, gone);
  }

  lemma NextKeepsQueue(s: Sched)
    requires QueueOk(s) && s.ring != []
    ensures QueueOk(Next(s)) && Next(s).run == s.run
    ensures Next(s).ring == s.ring[1..] + [s.ring[0]]
  {
    assert s.ring == [s.ring[0]] + s.ring[1..];
  }

  /** Suspending the active thread passes the turn on and changes nobody else's state. */
  lemma SuspendKeepsQueue(s: Sched, why: RunState)
    requires QueueOk(s) && s.ring != [] && why != Active
    ensures
      var u := s.ring[0];
      var t := Block(Remove(Lock(s), u), u, why);
      && QueueOk(t) && t.ring == s.ring[1..]
      && t.run == s.run[u := why]
  {
    hide Remove, Lock, QueueOk;
    LockKeepsQueue(s);
    RemoveHead(Lock(s));
    HeadLeaves(Lock(s), why);
  }

  lemma LockKeepsQueue(s: Sched)
    requires QueueOk(s)
    ensures QueueOk(Lock(s)) && Lock(s).ring == s.ring && Lock(s).run == s.run
  {}

  lemma HeadLeaves(s: Sched, why: RunState)
    requires QueueOk(s) && s.ring != [] && why != Active
    ensures QueueOk(s.(ring := s.ring[1..], slice := TIMESLICE, run := s.run[s.ring[0] := Old][s.ring[0] := why]))
  {
    OnlyOnce(s.ring, 0);
    assert s.ring == [s.ring[0]] + s.ring[1..];
  }

  lemma RemoveHead(s: Sched)
    requires QueueOk(s) && s.ring != []
    ensures
      var t := Remove(s, s.ring[0]);
      t == s.(ring := s.ring[1..], slice := TIMESLICE, run := s.run[s.ring[0] := Old])
  {
    KeepCutsOne(s.ring, 0);
    hide Keep;
    assert Remove(s, s.ring[0]).run == s.run[s.ring[0] := Old];
  }

  /** Removing threads one after the other is removing them all at once. */
  lemma RemoveOneMore(s: Sched, gone: set<Uid>, u: Uid)
    requires QueueOk(s) && u in RemoveAll(s, gone).ring
    ensures Remove(RemoveAll(s, gone), u) == RemoveAll(s, gone + {u})
  {
    KeepMembers(s.ring, gone);
    KeepTwice(s.ring, gone, {u});
    var r, t := Remove(RemoveAll(s, gone), u), RemoveAll(s, gone + {u});
    assert r.run == t.run by {
      forall v | v in s.run ensures r.run[v] == t.run[v] {}
    }
    assert s.ring[0] !in gone ==> Keep(s.ring, gone)[0] == s.ring[0];
    assert r.slice == t.slice;
  }

  /** A thread that is not queued makes no difference to a removal. */
  lemma RemoveIdle(s: Sched, gone: set<Uid>, u: Uid)
    requires QueueOk(s) && u !in RemoveAll(s, gone).ring
    ensures RemoveAll(s, gone) == RemoveAll(s, gone + {u})
  {
    KeepMembers(s.ring, gone);
    KeepTwice(s.ring, gone, {u});
    KeepAll(Keep(s.ring, gone), {u});
    assert RemoveAll(s, gone).run == RemoveAll(s, gone + {u}).run;
  }

  // ----- Bounded waiting -----

  function IndexOf(ring: seq<Uid>, u: Uid): (i: nat)
    requires u in ring
    ensures i < |ring| && ring[i] == u
    ensures forall j :: 0 <= j < i ==> ring[j] != u
  {
    if ring[0] == u then 0 else 1 + IndexOf(ring[1..], u)
  }

  /** How many ticks or yields thread `u` can still be kept from running. */
  function Delay(s: Sched, u: Uid): (d: int)
    requires u in s.ring
  {
    var i := IndexOf(s.ring, u);
    if i == 0 then 0 else s.slice + TIMESLICE * (i - 1)
  }

  lemma IndexIs(ring: seq<Uid>, u: Uid, i: nat)
    requires i < |ring| && ring[i] == u && Distinct(ring)
    ensures IndexOf(ring, u) == i
  {}

  lemma {:induction false} KeepMovesForward(ring: seq<Uid>, gone: set<Uid>, u: Uid)
    requires u in ring && u !in gone
    ensures u in Keep(ring, gone)
    ensures IndexOf(Keep(ring, gone), u) <= IndexOf(ring, u)
    ensures ring[0] in gone ==> IndexOf(Keep(ring, gone), u) < IndexOf(ring, u)
  {
    KeepMembers(ring, gone);
    if ring[0] != u {
      KeepMovesForward(ring[1..], gone, u);
    }
    if ring[0] !in gone {
      assert Keep(ring, gone)[1..] == Keep(ring[1..], gone);
    }
  }

  /** An arrival never delays a thread that is already queued. */
  lemma ArrivalKeepsDelay(s: Sched, v: Uid, u: Uid)
    requires QueueOk(s) && u in s.ring && v !in s.ring
    ensures Delay(Add(s, v), u) == Delay(s, u)
  {
    IndexIs(s.ring + [v], u, IndexOf(s.ring, u));
  }

  /** A departure never delays the others. */
  lemma DepartureKeepsDelay(s: Sched, gone: set<Uid>, u: Uid)
    requires QueueOk(s) && u in s.ring && u !in gone
    ensures u in RemoveAll(s, gone).ring
    ensures Delay(RemoveAll(s, gone), u) <= Delay(s, u)
  {
    KeepMovesForward(s.ring, gone, u);
  }

  /** A yield, and a tick, brings every waiting thread at least one unit closer. */
  lemma TurnShortensDelay(s: Sched, u: Uid)
    requires QueueOk(s) && u in s.ring && u != s.ring[0]
    ensures u in Next(s).ring && u in Tick(s).ring
    ensures Delay(Next(s), u) <= Delay(s, u) - 1
    ensures Delay(Tick(s), u) <= Delay(s, u) - 1
  {
    var i := IndexOf(s.ring, u);
    NextKeepsQueue(s);
    IndexIs(Next(s).ring, u, i - 1);
  }
}
