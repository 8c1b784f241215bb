/** The scheduler (kernel/core/multitask/scheduler.c): a circular doubly linked
    list threaded through the thread records, updated in place. */
module Schedulers {
  import opened Ports
  import opened RunQueue

  /** The scheduling part of a thread record. */
  datatype Info = Info(state: RunState, slice: nat, next: Uid, prev: Uid, task: Task)

  /** The links of the i-th member lead to its neighbours in the cycle. */
  ghost predicate LinkAt(info: map<Uid, Info>, ring: seq<Uid>, i: nat)
    requires i < |ring| && ring[i] in info
  {
    && info[ring[i]].next == (if i + 1 < |ring| then ring[i + 1] else ring[0])
    && info[ring[i]].prev == (if 0 < i then ring[i - 1] else ring[|ring| - 1])
  }

  /** `next` and `prev` are inverse to each other and form one cycle through `ring`. */
  ghost predicate Linked(info: map<Uid, Info>, ring: seq<Uid>) {
    && (forall u :: u in ring ==> u in info)
    && (forall i: nat :: i < |ring| ==> LinkAt(info, ring, i))
  }

  /** Linking a thread in just before the active one appends it to the cycle. */
  lemma LinkedAppend(info: map<Uid, Info>, ring: seq<Uid>, u: Uid, info': map<Uid, Info>)
    requires Linked(info, ring) && Distinct(ring) && ring != [] && u in info && u !in ring
    requires
      var head, last := ring[0], ring[|ring| - 1];
      var a := info[u := info[u].(next := head, prev := last)];
      var b := a[head := a[head].(prev := u)];
      info' == b[last := b[last].(next := u)]
    ensures Linked(info', ring + [u])
  {
    var r := ring + [u];
    forall i: nat | i < |r|
      ensures LinkAt(info', r, i)
    {
      if i < |ring| {
        assert LinkAt(info, ring, i);
      }
    }
  }

  /** Joining the neighbours of the k-th member cuts it out of the cycle. */
  lemma LinkedCut(info: map<Uid, Info>, ring: seq<Uid>, k: nat, info': map<Uid, Info>)
    requires Linked(info, ring) && Distinct(ring) && k < |ring| && |ring| > 1
    requires
      var n, p := info[ring[k]].next, info[ring[k]].prev;
      && n in info && p in info
      && info' == (var a := info[n := info[n].(prev := p)]; a[p := a[p].(next := n)])
    ensures Linked(info', ring[..k] + ring[k + 1..])
  {
    var r := ring[..k] + ring[k + 1..];
    assert LinkAt(info, ring, k);
    forall i: nat | i < |r|
      ensures LinkAt(info', r, i)
    {
      var j := if i < k then i else i + 1;
      assert r[i] == ring[j];
      assert LinkAt(info, ring, j);
    }
  }

  /** The links, the states and the time slices agree with `ring`. */
  ghost predicate Threaded(info: map<Uid, Info>, ring: seq<Uid>) {
    && Linked(info, ring)
    && Distinct(ring)
    && (forall u :: u in info ==> u.pid != 0)
    && (forall u :: u in info ==> (info[u].state == Active <==> u in ring))
    && (forall i :: 1 <= i < |ring| ==> info[ring[i]].slice == TIMESLICE)
    && (ring != [] ==> info[ring[0]].slice <= TIMESLICE)
  }

  ghost function Slice(info: map<Uid, Info>, ring: seq<Uid>): nat
    requires Threaded(info, ring)
  {
    if ring == [] then TIMESLICE else info[ring[0]].slice
  }

  ghost function States(info: map<Uid, Info>): map<Uid, RunState> {
    map u | u in info :: info[u].state
  }

  ghost function Tasks(info: map<Uid, Info>): map<Uid, Task> {
    map u | u in info :: info[u].task
  }

  ghost function ViewOf(info: map<Uid, Info>, ring: seq<Uid>, frame: Frame, loaded: nat): Sched
    requires Threaded(info, ring)
  {
    Sched(ring, Slice(info, ring), States(info), Tasks(info), frame, loaded)
  }

  /** Only the links of `info` changed on the way to `info'`. */
  ghost predicate OnlyLinks(info: map<Uid, Info>, info': map<Uid, Info>) {
    && info'.Keys == info.Keys
    && forall u :: u in info ==>
         info'[u].state == info[u].state && info'[u].slice == info[u].slice && info'[u].task == info[u].task
  }

  lemma LinkedFrame(info: map<Uid, Info>, info': map<Uid, Info>, ring: seq<Uid>)
    requires Linked(info, ring)
    requires forall u :: u in ring ==> u in info' && info'[u].next == info[u].next && info'[u].prev == info[u].prev
    ensures Linked(info', ring)
  {
    forall i: nat | i < |ring| ensures LinkAt(info', ring, i) { assert LinkAt(info, ring, i); }
  }

  lemma AddMeaning(info: map<Uid, Info>, ring: seq<Uid>, u: Uid, info': map<Uid, Info>)
    requires Threaded(info, ring) && u in info && u !in ring
    requires Linked(info', ring + [u])
    requires OnlyLinks(info[u := info[u].(state := Active, slice := TIMESLICE)], info')
    ensures Threaded(info', ring + [u])
    ensures Slice(info', ring + [u]) == if ring == [] then TIMESLICE else Slice(info, ring)
    ensures States(info') == States(info)[u := Active]
    ensures Tasks(info') == Tasks(info)
  {}

  lemma CutMembers(ring: seq<Uid>, k: nat)
    requires k < |ring| && Distinct(ring)
    ensures
      var r := ring[..k] + ring[k + 1..];
      Distinct(r) && (forall v :: v in r <==> v in ring && v != ring[k])
  {
    KeepCutsOne(ring, k);
    KeepMembers(ring, {ring[k]});
  }

  lemma RemoveMeaning(info: map<Uid, Info>, ring: seq<Uid>, k: nat, info': map<Uid, Info>)
    requires Threaded(info, ring) && k < |ring|
    requires Linked(info', ring[..k] + ring[k + 1..])
    requires OnlyLinks(info[ring[k] := info[ring[k]].(state := Old)], info')
    ensures Threaded(info', ring[..k] + ring[k + 1..])
    ensures Slice(info', ring[..k] + ring[k + 1..]) == if k == 0 then TIMESLICE else Slice(info, ring)
  {
    CutMembers(ring, k);
    var r := ring[..k] + ring[k + 1..];
    forall i | 1 <= i < |r|
      ensures info'[r[i]].slice == TIMESLICE
    {
      assert r[i] == ring[if i < k then i else i + 1];
    }
    if r != [] {
      assert r[0] == ring[if k == 0 then 1 else 0];
    }
  }

  lemma RemoveViews(info: map<Uid, Info>, ring: seq<Uid>, k: nat, info': map<Uid, Info>, f: Frame, l: nat)
    requires Threaded(info, ring) && k < |ring| && Threaded(info', ring[..k] + ring[k + 1..])
    requires OnlyLinks(info[ring[k] := info[ring[k]].(state := Old)], info')
    requires Slice(info', ring[..k] + ring[k + 1..]) == if k == 0 then TIMESLICE else Slice(info, ring)
    ensures ViewOf(info', ring[..k] + ring[k + 1..], f, l) == RunQueue.Remove(ViewOf(info, ring, f, l), ring[k])
  {
    KeepCutsOne(ring, k);
    var s, s' := ViewOf(info, ring, f, l), RunQueue.Remove(ViewOf(info, ring, f, l), ring[k]);
    assert States(info') == s'.run;
    assert Tasks(info') == s'.tasks;
  }

  /** Unlinking the k-th member and marking it Old is the removal. */
  lemma CutMeaning(info: map<Uid, Info>, ring: seq<Uid>, k: nat, mid: map<Uid, Info>, f: Frame, l: nat)
    requires Threaded(info, ring) && k < |ring| && ring[k] in mid
    requires OnlyLinks(info, mid) && Linked(mid, ring[..k] + ring[k + 1..])
    ensures
      var info', r := mid[ring[k] := mid[ring[k]].(state := Old)], ring[..k] + ring[k + 1..];
      && Threaded(info', r)
      && ViewOf(info', r, f, l) == RunQueue.Remove(ViewOf(info, ring, f, l), ring[k])
      && info'.Keys == info.Keys
      && (1 <= Slice(info, ring) ==> 1 <= Slice(info', r))
  {
    var info', r := mid[ring[k] := mid[ring[k]].(state := Old)], ring[..k] + ring[k + 1..];
    LinkedFrame(mid, info', r);
    assert OnlyLinks(info[ring[k] := info[ring[k]].(state := Old)], info');
    hide Linked;
    RemoveMeaning(info, ring, k, info');
    RemoveViews(info, ring, k, info', f, l);
  }

  /** A queued thread, seen from its record. */
  lemma InRing(info: map<Uid, Info>, ring: seq<Uid>, u: Uid)
    requires Threaded(info, ring) && u in info
    ensures Linked(info, ring) && Distinct(ring)
    ensures info[u].state == Active <==> u in ring
  {}

  lemma LinkedRotate(info: map<Uid, Info>, ring: seq<Uid>)
    requires Linked(info, ring) && ring != []
    ensures Linked(info, ring[1..] + [ring[0]])
  {
    var r := ring[1..] + [ring[0]];
    forall i: nat | i < |r|
      ensures LinkAt(info, r, i)
    {
      assert LinkAt(info, ring, if i + 1 < |r| then i + 1 else 0);
    }
  }

  lemma SameViews(info: map<Uid, Info>, info': map<Uid, Info>)
    requires info'.Keys == info.Keys
    requires forall u :: u in info ==> info'[u].state == info[u].state && info'[u].task == info[u].task
    ensures States(info') == States(info) && Tasks(info') == Tasks(info)
  {}

  lemma RotateMeaning(info: map<Uid, Info>, ring: seq<Uid>, info': map<Uid, Info>, f: Frame)
    requires Threaded(info, ring) && |ring| > 1
    requires
      var head := info[ring[0]];
      info' == info[ring[0] := head.(slice := TIMESLICE, task := head.task.(frame := f))]
    ensures Threaded(info', ring[1..] + [ring[0]])
    ensures Slice(info', ring[1..] + [ring[0]]) == TIMESLICE
    ensures States(info') == States(info)
    ensures Tasks(info') == Tasks(info)[ring[0] := info[ring[0]].task.(frame := f)]
  {
    LinkedRotate(info, ring);
    LinkedFrame(info, info', ring[1..] + [ring[0]]);
    assert ring == [ring[0]] + ring[1..];
  }

  /** The threads of process `pid` with a thread number below `n`. */
  function Members(s: set<Uid>, pid: nat, n: nat): set<Uid> {
    set u | u in s && u.pid == pid && u.tid < n
  }

  /** One round of the purge loop. */
  lemma PurgeStep(s: Sched, pid: nat, n: nat)
    requires QueueOk(s)
    ensures
      var r, u := RemoveAll(s, Members(s.run.Keys, pid, n)), Uid(pid, n);
      RemoveAll(s, Members(s.run.Keys, pid, n + 1)) == if u in r.ring then RunQueue.Remove(r, u) else r
  {
    var gone, u := Members(s.run.Keys, pid, n), Uid(pid, n);
    if u in s.run {
      assert Members(s.run.Keys, pid, n + 1) == gone + {u};
    } else {
      assert Members(s.run.Keys, pid, n + 1) == gone;
      KeepMembers(s.ring, gone);
    }
    if u in RemoveAll(s, gone).ring {
      RemoveOneMore(s, gone, u);
    } else {
      RemoveIdle(s, gone, u);
    }
  }

  lemma PurgeStart(s: Sched, pid: nat)
    requires QueueOk(s)
    ensures RemoveAll(s, Members(s.run.Keys, pid, 0)) == s
  {
    KeepAll(s.ring, Members(s.run.Keys, pid, 0));
    assert s.run == RemoveAll(s, Members(s.run.Keys, pid, 0)).run;
  }

  class Scheduler {
    var info: map<Uid, Info>
    var active: Uid
    var locked: bool
    var frame: Frame
    var loaded: nat
    ghost var ring: seq<Uid>

    ghost predicate Consistent()
      reads this
    {
      Threaded(info, ring) && active == if ring == [] then NOBODY else ring[0]
    }

    /** Consistent, and the active thread has time left; false only inside a timer interrupt. */
    ghost predicate Valid()
      reads this
    {
      Consistent() && 1 <= Slice(info, ring)
    }

    ghost function View(): Sched
      requires Consistent()
      reads this
    {
      ViewOf(info, ring, frame, loaded)
    }

    constructor ()
      ensures Valid() && !locked && info == map[]
      ensures View() == Sched([], TIMESLICE, map[], map[], ZERO_FRAME, 0)
    {
      info, active, locked := map[], NOBODY, false;
      frame, loaded := ZERO_FRAME, 0;
      ring := [];
    }

    /** Valid() describes a well-formed queue. */
    lemma ViewOk()
      requires Valid()
      ensures QueueOk(View())
    {}

    /** Link `u` in behind everybody else, that is, just before the active thread. */
    method LinkIn(u: Uid)
      requires Linked(info, ring) && Distinct(ring) && u in info && u !in ring
      requires active == if ring == [] then NOBODY else ring[0]
      requires forall v :: v in info ==> v.pid != 0
      modifies `info, `active
      ensures OnlyLinks(old(info), info) && Linked(info, ring + [u])
      ensures active == (ring + [u])[0]
    {
      if active.pid == 0 {
        info := info[u := info[u].(next := u, prev := u)];
        active := u;
        assert ring + [u] == [u] && LinkAt(info, [u], 0);
      } else {
        assert LinkAt(info, ring, 0);
        var last := info[active].prev;
        info := info[u := info[u].(next := active, prev := last)];
        info := info[active := info[active].(prev := u)];
        info := info[last := info[last].(next := u)];
        LinkedAppend(old(info), ring, u, info);
      }
    }

    method Add(u: Uid)
      requires Valid() && u in info && info[u].state != Active
      modifies this
      ensures Valid() && locked == old(locked) && info.Keys == old(info.Keys)
      ensures View() == RunQueue.Add(old(View()), u)
    {
      info := info[u := info[u].(state := Active, slice := TIMESLICE)];
      LinkedFrame(old(info), info, ring);
      LinkIn(u);
      AddMeaning(old(info), ring, u, info);
      ring := ring + [u];
    }

    /** Join the neighbours of `u`, passing its turn on if it was the active thread. */
    method LinkOut(u: Uid, ghost k: nat)
      requires Linked(info, ring) && Distinct(ring) && k < |ring| && ring[k] == u
      requires active == ring[0]
      modifies `info, `active
      ensures OnlyLinks(old(info), info) && Linked(info, ring[..k] + ring[k + 1..]) && u in info
      ensures active == if |ring| == 1 then NOBODY else (ring[..k] + ring[k + 1..])[0]
    {
      assert LinkAt(info, ring, k);
      var target := info[u];
      if target.next == u {
        active := NOBODY;
      } else {
        if active == u {
          active := target.next;
        }
        info := info[target.next := info[target.next].(prev := target.prev)];
        info := info[target.prev := info[target.prev].(next := target.next)];
        LinkedCut(old(info), ring, k, info);
      }
    }

    /** Cut one thread out of the ring; the active one only while the scheduler is locked. */
    method Remove(u: Uid)
      requires Valid() && u in info && info[u].state == Active
      requires u == active ==> locked
      modifies this
      ensures Valid() && locked == old(locked) && info.Keys == old(info.Keys)
      ensures View() == RunQueue.Remove(old(View()), u)
    {
      hide Threaded, Linked, Distinct, OnlyLinks, ViewOf, RunQueue.Remove;
      InRing(info, ring, u);
      ghost var k := IndexOf(ring, u);
      LinkOut(u, k);
      CutMeaning(old(info), ring, k, info, frame, loaded);
      info := info[u := info[u].(state := Old)];
      ring := ring[..k] + ring[k + 1..];
    }

    /** Take every thread of a process out of the ring, whatever its order there. */
    method Purge(pid: nat)
      requires Valid()
      requires active.pid == pid ==> locked
      modifies this
      ensures Valid() && locked == old(locked) && info.Keys == old(info.Keys)
      ensures View() == RemoveAll(old(View()), Members(old(View().run.Keys), pid, PROCESS_THREAD_MAX))
    {
      ghost var s := View();
      PurgeStart(s, pid);
      for i := 0 to PROCESS_THREAD_MAX
        invariant Valid() && locked == old(locked) && info.Keys == old(info.Keys)
        invariant active.pid == pid ==> locked
        invariant View() == RemoveAll(s, Members(s.run.Keys, pid, i))
      {
        PurgeStep(s, pid, i);
        var u := Uid(pid, i);
        if u in info && info[u].state == Active {
          Remove(u);
        }
      }
    }

    /** Give the turn to the next thread, saving and restoring registers. */
    method Next()
      requires Consistent() && ring != []
      modifies this
      ensures Valid() && locked == old(locked) && info.Keys == old(info.Keys)
      ensures View() == RunQueue.Next(old(View()))
    {
      assert LinkAt(info, ring, 0);
      var curr := active;
      info := info[curr := info[curr].(slice := TIMESLICE)];
      if info[curr].next == curr {
        LinkedFrame(old(info), info, ring);
        SameViews(old(info), info);
        return;
      }
      active := info[curr].next;
      if curr.pid != active.pid {
        loaded := active.pid;
      }
      TaskSwitch(curr, active);
      RotateMeaning(old(info), ring, info, old(frame));
      ring := ring[1..] + [ring[0]];
    }

    /** Save the interrupted registers with `curr` and continue with those of `next`. */
    method TaskSwitch(curr: Uid, next: Uid)
      requires curr in info && next in info && curr != next
      modifies `info, `frame
      ensures info == old(info)[curr := old(info[curr]).(task := old(info[curr].task).(frame := old(frame)))]
      ensures frame == Resume(old(info[next].task), old(frame))
    {
      info := info[curr := info[curr].(task := info[curr].task.(frame := frame))];
      TaskResume(next);
    }

    method TaskResume(next: Uid)
      requires next in info
      modifies `frame
      ensures frame == Resume(info[next].task, old(frame))
    {
      if info[next].task.frame.eip == 0 {
        frame := frame.(eip := info[next].task.entry, esp := info[next].task.stack);
      } else {
        frame := info[next].task.frame;
      }
    }

    /** Timer interrupt: charge the active thread and switch when its time is up. */
    method TimerTick()
      requires Valid() && ring != []
      modifies this
      ensures Valid() && locked == old(locked) && info.Keys == old(info.Keys)
      ensures View() == RunQueue.Tick(old(View()))
    {
      info := info[active := info[active].(slice := info[active].slice - 1)];
      LinkedFrame(old(info), info, ring);
      SameViews(old(info), info);
      if info[active].slice == 0 {
        Next();
      }
    }

    /** Enter the no-thread state, saving the registers of the active thread. */
    method Lock()
      requires Valid() && ring != []
      modifies this
      ensures Valid() && locked && info.Keys == old(info.Keys)
      ensures View() == RunQueue.Lock(old(View()))
    {
      locked := true;
      info := info[active := info[active].(task := info[active].task.(frame := frame))];
      LinkedFrame(old(info), info, ring);
      assert States(info) == States(old(info));
      assert Tasks(info) == RunQueue.Lock(old(View())).tasks;
    }

    /** Leave the no-thread state and continue with whichever thread is active now. */
    method Unlock()
      requires Valid() && ring != []
      modifies this
      ensures Valid() && !locked && info.Keys == old(info.Keys)
      ensures View() == RunQueue.Unlock(old(View()))
    {
      locked := false;
      loaded := active.pid;
      TaskResume(active);
    }

    /** The running thread, or nobody while the scheduler is locked. */
    function Curr(): (u: Uid)
      requires Valid()
      reads this
      ensures u.pid == 0 <==> locked || ring == []
      ensures u.pid != 0 ==> u == View().ring[0]
    {
      if locked then NOBODY else active
    }

    /** Record why a thread that has left the queue is not runnable. */
    method Block(u: Uid, why: RunState)
      requires Valid() && u in info && u !in ring && why != Active
      modifies this
      ensures Valid() && locked == old(locked) && info.Keys == old(info.Keys)
      ensures View() == RunQueue.Block(old(View()), u, why)
    {
      info := info[u := info[u].(state := why)];
      LinkedFrame(old(info), info, ring);
      assert States(info) == States(old(info))[u := why];
      assert Tasks(info) == Tasks(old(info));
    }

    /** The scheduling part of thread creation. */
    method Enter(u: Uid, entry: nat, stack: nat)
      requires Valid() && u !in info && u.pid != 0
      modifies this
      ensures Valid() && locked == old(locked) && info.Keys == old(info.Keys) + {u}
      ensures View() == RunQueue.Enter(old(View()), u, entry, stack)
    {
      info := info[u := Info(New, 0, NOBODY, NOBODY, Task(entry, stack, ZERO_FRAME))];
      LinkedFrame(old(info), info, ring);
      assert States(info) == States(old(info))[u := New];
      assert Tasks(info) == Tasks(old(info))[u := Task(entry, stack, ZERO_FRAME)];
    }

    /** The scheduling part of thread destruction; none of the threads may be queued. */
    method Leave(gone: set<Uid>)
      requires Valid() && forall u :: u in gone ==> u !in ring
      modifies this
      ensures Valid() && locked == old(locked) && info.Keys == old(info.Keys) - gone
      ensures View() == RunQueue.Leave(old(View()), gone)
    {
      info := info - gone;
      LinkedFrame(old(info), info, ring);
      assert States(info) == States(old(info)) - gone;
      assert Tasks(info) == Tasks(old(info)) - gone;
    }

    /** Set the result of the system call in progress. */
    method ReturnSet(code: int)
      requires Valid()
      modifies `frame
      ensures Valid() && View() == Return(old(View()), code)
    {
      frame := frame.(eax := code);
    }
  }
}
