/** The kernel as the C code has it: process blocks with linked message slots, a linked run
    queue, a process bitmap, and system calls that change them in place.  Every system call is
    proved to be the corresponding step of KernelState. */
module Kernels {
  import opened Ports
  import opened RunQueue
  import opened Mail
  import opened KernelState
  import opened KernelInvariant
  import opened KernelSteps
  import opened Schedulers
  import opened Processes
  import opened BmStacks
  import Bitmaps

  lemma EmptyCore(s: State)
    requires s.procs == map[] && |s.pvers| == PROCESS_MAX && (forall i :: 0 <= i < |s.pvers| ==> s.pvers[i] == 0)
    requires s.sched.ring == [] && s.sched.run == map[] && s.sched.tasks == map[] && s.sched.slice == TIMESLICE
    ensures Core(s)
  {
    forall u ensures Queue(s, u) == [] && !Live(s, u) {}
  }

  /** The scheduler's fields show through its meaning. */
  lemma SchedFacts(sched: Scheduler)
    requires sched.Valid()
    ensures sched.info.Keys == sched.View().run.Keys
    ensures forall u :: u in sched.info ==> sched.info[u].state == sched.View().run[u]
    ensures sched.ring == sched.View().ring && sched.active == (if sched.ring == [] then NOBODY else sched.ring[0])
    ensures sched.Consistent() && QueueOk(sched.View()) && forall u :: u in sched.info ==> u.pid != 0
  {
    sched.ViewOk();
  }

  lemma AfterLock(s: Sched, u: Uid)
    ensures RunQueue.Lock(s).run == s.run && RunQueue.Lock(s).ring == s.ring
  {}

  lemma AfterRemove(s: Sched, u: Uid)
    requires QueueOk(s)
    ensures RunQueue.Remove(s, u).run.Keys == s.run.Keys && u !in RunQueue.Remove(s, u).ring
  {
    KeepMembers(s.ring, {u});
  }

  /** Lock the scheduler, take the active thread out and record why. */
  method LockAndBlock(sched: Scheduler, u: Uid, why: RunState)
    requires sched.Valid() && sched.ring != [] && u == sched.ring[0] && why in {Sending, Waiting}
    modifies sched
    ensures sched.Valid() && sched.locked
    ensures
      var s := old(sched.View());
      sched.View() == RunQueue.Block(RunQueue.Remove(RunQueue.Lock(s), u), u, why)
  {
    hide RunQueue.Lock, RunQueue.Remove, RunQueue.Block, Scheduler.Valid, Scheduler.View, Scheduler.Consistent, QueueOk;
    SchedFacts(sched);
    ghost var s := sched.View();
    ActiveHead(s);
    sched.Lock();
    AfterLock(s, u);
    SchedFacts(sched);
    sched.Remove(u);
    AfterRemove(RunQueue.Lock(s), u);
    SchedFacts(sched);
    sched.Block(u, why);
  }

  lemma ActiveHead(s: Sched)
    requires QueueOk(s) && s.ring != []
    ensures s.ring[0] in s.run && s.run[s.ring[0]] == Active
  {}

  lemma AddMailRun(s: State, u: Uid, m: Message, head: bool)
    requires StatesOk(s) && Live(s, u)
    ensures AddMail(s, u, m, head).sched == s.sched && u in s.sched.run
  {}

  lemma SuspendProcs(s: State, u: Uid, why: RunState)
    ensures Suspend(s, u, why).procs == s.procs && Suspend(s, u, why).pvers == s.pvers
  {}

  lemma FindNothing(s: State, w: Port)
    ensures !Found(s, w) ==> FindMail(s, Curr(s), w) == s
  {
    var u := Curr(s);
    NoMatch(Queue(s, u), w);
    if Live(s, u) && !Found(s, w) {
      var p := s.procs[u.pid];
      assert p.threads[u.tid := p.threads[u.tid]] == p.threads;
      assert SetQueue(p, u.tid, Queue(s, u)) == p;
      assert s.procs[u.pid := p] == s.procs;
    }
  }

  lemma OthersRemain(s: State, u: Uid, w: Port, addr: nat, size: nat)
    requires StatesOk(s) && u == Curr(s) && |s.sched.ring| > 1
    ensures Request(Suspend(Ret(s, ENONE), u, Waiting), u, w, addr, size).sched.ring != []
  {
    RetStates(s);
    BlockEffect(Ret(s, ENONE), u, Waiting, w, addr, size);
  }

  lemma SendRoom(s: State, r: Outgoing, mapped: bool, bufMapped: bool)
    requires StatesOk(s) && s.sched.ring != [] && SendError(s, r, mapped, bufMapped) == ENONE
    ensures
      var b, target := AtPost(s, r), Resolve(s, r.to, Curr(s).pid);
      StatesOk(b) && Live(b, target) && Room(b, target.pid)
  {
    hide Resolve, Compare, PortOf, StatesOk, SamePeople;
    AtPostEffect(s, r);
    SamePeopleTable(s, AtPost(s, r));
    RoomKept(s, r, Resolve(s, r.to, Curr(s).pid).pid);
  }

  lemma RoomKept(s: State, r: Outgoing, pid: nat)
    ensures Room(AtPost(s, r), pid) == Room(s, pid)
  {}

  lemma Runnable(s: State, u: Uid)
    requires StatesOk(s) && Live(s, u)
    ensures u in s.sched.run
  {}

  lemma SameQueues(s: State, t: State)
    requires t.procs == s.procs
    ensures forall u :: Queue(t, u) == Queue(s, u)
  {}

  lemma NewProcessIs(s: State, pid: nat, owner: nat, who: Identity, p: Proc)
    requires pid < |s.pvers| && s.pvers[pid] < 256
    requires who == if owner in s.procs then Identity(0, owner, s.procs[owner].priv, 0) else Identity(0, 0, 2, 0)
    requires
      var version := NextVersion(s.pvers[pid]);
      p == Proc(version, who.parent, who.priv, 0, seq(PROCESS_THREAD_MAX, _ => 0), map[], 0)
    ensures SetProc(s, pid, p).(pvers := s.pvers[pid := NextVersion(s.pvers[pid])]) == NewProcess(s, pid, owner)
  {}

  /** The slots of a process are numbered below the limit. */
  lemma PurgedAreThreads(s: State, pid: nat)
    requires TableOk(s) && StatesOk(s)
    ensures Members(s.sched.run.Keys, pid, PROCESS_THREAD_MAX) == ThreadsIn(s, pid)
  {
    hide QueueOk;
    forall u | u in s.sched.run ensures u.tid < PROCESS_THREAD_MAX {
      assert ProcOk(s.pvers, u.pid, s.procs[u.pid]);
    }
  }

  lemma GoneFromRing(s: Sched, gone: set<Uid>)
    requires QueueOk(s)
    ensures forall u :: u in gone ==> u !in RemoveAll(s, gone).ring
  {
    KeepMembers(s.ring, gone);
  }

  lemma SameEntry(s: State, u: Uid)
    requires CanOpen(s, u)
    ensures AddThread(s.procs[u.pid], u.tid).(entry := s.procs[u.pid].entry) == AddThread(s.procs[u.pid], u.tid)
  {}

  function EntryAt(s: State, pid: nat, entry: nat): State
    requires pid in s.procs
  {
    SetProc(s, pid, s.procs[pid].(entry := entry))
  }

  lemma EntryStates(s: State, pid: nat, entry: nat)
    requires StatesOk(s) && TableOk(s) && pid in s.procs
    ensures StatesOk(EntryAt(s, pid, entry)) && TableOk(EntryAt(s, pid, entry))
  {
    hide SamePeople, TableOk, QueueOk, Live, PortOf, KnownPort, Versioned, EntryAt;
    EntryPeople(s, pid, entry);
    SamePeopleTable(s, EntryAt(s, pid, entry));
    SameSched(s, EntryAt(s, pid, entry));
  }

  lemma EntryPeople(s: State, pid: nat, entry: nat)
    requires pid in s.procs
    ensures SamePeople(s, EntryAt(s, pid, entry)) && EntryAt(s, pid, entry).sched == s.sched
  {}

  lemma EntryStart(s: State, pid: nat, entry: nat)
    requires pid in s.procs && CanOpen(s, Uid(pid, 0))
    ensures CanOpen(EntryAt(s, pid, entry), Uid(pid, 0))
    ensures StartThread(EntryAt(s, pid, entry), Uid(pid, 0), 0, 0, entry) == StartThread(s, Uid(pid, 0), 0, 0, entry)
  {
    hide RunQueue.Add, RunQueue.Enter;
  }

  /** Setting the entry point first comes to the same, and leaves the process ready for its thread. */
  lemma LaunchSets(s: State, pid: nat, entry: nat)
    requires Core(s) && pid in s.procs && s.procs[pid].threads == map[] && CanOpen(s, Uid(pid, 0))
    ensures
      var t := SetProc(s, pid, s.procs[pid].(entry := entry));
      && StatesOk(t) && TableOk(t) && pid in t.procs && t.procs[pid].threads == map[] && t.procs[pid].entry == entry
      && CanOpen(t, Uid(pid, 0))
      && StartThread(t, Uid(pid, 0), 0, 0, entry) == StartThread(s, Uid(pid, 0), 0, 0, entry)
  {
    hide StatesOk, TableOk, NoLostWakeup, StartThread, CanOpen;
    EntryStates(s, pid, entry);
    EntryStart(s, pid, entry);
  }

  lemma NoThreadsNoneLive(s: State, pid: nat)
    requires pid in s.procs && s.procs[pid].threads == map[]
    ensures forall t: nat :: !Live(s, Uid(pid, t))
  {}

  lemma PidInRange(s: State, pid: nat)
    requires TableOk(s) && pid in s.procs
    ensures 2 <= pid < PROCESS_MAX
  {
    assert ProcOk(s.pvers, pid, s.procs[pid]);
  }

  lemma MembersStay(s: Sched, gone: set<Uid>)
    ensures RemoveAll(s, gone).run.Keys == s.run.Keys
  {}

  /** Purge a process from the queue and destroy its thread records. */
  method EvictThreads(sched: Scheduler, ghost s: Sched, pid: nat)
    requires sched.Valid() && s == sched.View()
    requires s.ring != [] && s.ring[0].pid == pid ==> sched.locked
    requires pid != 0
    modifies sched
    ensures sched.Valid() && sched.locked == old(sched.locked)
    ensures
      var gone := Members(s.run.Keys, pid, PROCESS_THREAD_MAX);
      sched.View() == RunQueue.Leave(RemoveAll(s, gone), gone)
  {
    hide RunQueue.Leave, RemoveAll, Scheduler.Valid, Scheduler.View, Scheduler.Consistent, QueueOk;
    SchedFacts(sched);
    ghost var members := Members(s.run.Keys, pid, PROCESS_THREAD_MAX);
    GoneFromRing(s, members);
    MembersStay(s, members);
    sched.Purge(pid);
    SchedFacts(sched);
    var gone := set u | u in sched.info && u.pid == pid && u.tid < PROCESS_THREAD_MAX;
    assert gone == members;
    sched.Leave(gone);
  }

  /** Take the running thread out of the queue and destroy its record. */
  method EvictThread(sched: Scheduler, ghost s: Sched, u: Uid)
    requires sched.Valid() && s == sched.View() && s.ring != [] && u == s.ring[0] && sched.locked
    modifies sched
    ensures sched.Valid() && sched.locked
    ensures sched.View() == RunQueue.Leave(RunQueue.Remove(s, u), {u})
  {
    hide RunQueue.Leave, RunQueue.Remove, Scheduler.Valid, Scheduler.View, Scheduler.Consistent, QueueOk;
    SchedFacts(sched);
    ActiveHead(s);
    sched.Remove(u);
    AfterRemove(s, u);
    SchedFacts(sched);
    sched.Leave({u});
  }

  lemma KilledSelf(s: State, pid: nat)
    requires Core(s)
    ensures
      var t, target := EndProcess(s.(sched := RunQueue.Lock(s.sched)), KillTarget(s, pid)), KillTarget(s, pid);
      KillError(s, pid) == ENONE && KillStep(s, pid).sched.ring != [] ==>
        if target == Curr(s).pid then t.sched.ring != [] else EndProcess(s, target).sched.ring != []
  {
    hide Core, Fresh, EndProcess;
    ContinueSame(EndProcess(s.(sched := RunQueue.Lock(s.sched)), KillTarget(s, pid)));
  }

  lemma KillFound(s: State, pid: nat)
    ensures KillError(s, pid) == ENONE ==> KillTarget(s, pid) in s.procs
  {}

  lemma OwnerKnown(s: State, u: Uid)
    requires Live(s, u)
    ensures u.pid in s.procs
  {}

  lemma LockedSame(s: State)
    requires Core(s)
    ensures
      var t := s.(sched := RunQueue.Lock(s.sched));
      && Core(t) && t.procs == s.procs && Curr(t) == Curr(s) && t.sched.ring == s.sched.ring
      && forall u :: Live(t, u) == Live(s, u)
  {
    LockKeeps(s);
    hide Core, Fresh;
  }

  /** The process bitmap: the special process numbers are taken, the rest is linked. */
  method ReservedMap() returns (bms: BmStack)
    ensures fresh(bms) && fresh(bms.base) && bms.Valid() && bms.head != NULL
    ensures Bitmaps.BITS * bms.base.Length == PROCESS_MAX && bms.View() == {0, 1}
  {
    bms := new BmStack(PROCESS_MAX);
    bms.Set(0);
    bms.Set(1);
    bms.Link();
    assert bms.View() == {0, 1};
    AllSetMeansEverything(bms.base[..]);
    hide AllSet, BmStack.Valid;
    assert 2 !in bms.View();
  }

  /** The process blocks lie in `own`, away from `others` and from one another. */
  ghost predicate Separate(blocks: map<nat, Process>, own: set<object>, others: set<object>) {
    && (forall p :: p in blocks ==> blocks[p].Footprint() <= own && blocks[p].Footprint() !! others)
    && (forall p, q :: p in blocks && q in blocks && p != q ==> blocks[p].Footprint() !! blocks[q].Footprint())
  }

  lemma SeparateAdd(blocks: map<nat, Process>, own: set<object>, others: set<object>, pid: nat, block: Process)
    requires Separate(blocks, own, others) && pid !in blocks && block.Footprint() !! own && others <= own
    ensures Separate(blocks[pid := block], own + block.Footprint(), others)
  {
    hide Process.Footprint;
  }

  class Kernel {
    const sched: Scheduler
    const blockMap: BmStack
    var blocks: map<nat, Process>
    var blockVersions: seq<nat>
    ghost var repr: set<object>

    /** The objects are well formed and no two share memory. */
    ghost predicate Shape()
      reads this, repr
    {
      && this !in repr && sched in repr && blockMap in repr && blockMap.base in repr
      && Separate(blocks, repr, {sched, blockMap, blockMap.base})
      && (forall p :: p in blocks ==> blocks[p].Valid())
      && sched.Valid() && blockMap.Valid()
      && Bitmaps.BITS * blockMap.base.Length == PROCESS_MAX
      && blockMap.View() == {0, 1} + blocks.Keys
    }

    /** What the kernel's memory means. */
    ghost function Abs(): State
      requires Shape()
      reads this, repr
    {
      State(blockVersions, map p | p in blocks :: blocks[p].View(), sched.View())
    }

    ghost predicate Valid()
      reads this, repr
    {
      Shape() && Core(Abs()) && !sched.locked
    }

    constructor ()
      ensures Valid() && fresh(repr) && blockMap.head != NULL
      ensures Abs() == State(seq(PROCESS_MAX, _ => 0), map[], Sched([], TIMESLICE, map[], map[], ZERO_FRAME, 0))
    {
      hide Core, Fresh, BmStack.Valid, BmStack.View, Scheduler.Valid, Scheduler.View;
      sched := new Scheduler();
      var reserved := ReservedMap();
      blockMap := reserved;
      blocks, blockVersions := map[], seq(PROCESS_MAX, _ => 0);
      new;
      repr := {sched, blockMap, blockMap.base};
      EmptyCore(Abs());
    }

    // ----- Mail, through the owner's process block -----

    /** A change to one process block alone. */
    twostate lemma OnlyBlock(pid: nat)
      requires old(Shape()) && pid in blocks && blocks[pid].Valid()
      requires unchanged(this) && unchanged(repr - blocks[pid].Footprint())
      ensures Shape() && Abs() == SetProc(old(Abs()), pid, blocks[pid].View())
    {
      hide Process.Footprint, Process.Valid, Process.View, Scheduler.Valid, Scheduler.View, BmStack.Valid, BmStack.View;
      assert Abs().procs == old(Abs()).procs[pid := blocks[pid].View()];
    }

    method AddTo(u: Uid, m: Message, head: bool)
      requires Shape() && Live(Abs(), u) && Room(Abs(), u.pid)
      modifies repr, sched
      ensures unchanged(this) && Shape() && sched.locked == old(sched.locked)
      ensures Abs() == AddMail(old(Abs()), u, m, head)
    {
      hide Deliver, Process.Footprint, Process.Valid, Process.View, Scheduler.Valid, Scheduler.View, BmStack.Valid,
        BmStack.View;
      blocks[u.pid].Facts();
      blocks[u.pid].MessageAdd(u.tid, m, head);
      OnlyBlock(u.pid);
    }

    method TakeFrom(u: Uid) returns (m: Message)
      requires Shape() && Live(Abs(), u) && Queue(Abs(), u) != []
      modifies repr, sched
      ensures unchanged(this) && Shape() && sched.locked == old(sched.locked)
      ensures Abs() == DropMail(old(Abs()), u) && m == old(Queue(Abs(), u))[0]
    {
      hide TakeFirst, Process.Footprint, Process.Valid, Process.View, Scheduler.Valid, Scheduler.View, BmStack.Valid,
        BmStack.View;
      blocks[u.pid].Facts();
      m := blocks[u.pid].MessageRemove(u.tid);
      OnlyBlock(u.pid);
    }

    method FindFor(u: Uid, w: Port) returns (found: bool)
      requires Shape() && Live(Abs(), u)
      modifies repr, sched
      ensures unchanged(this) && Shape() && sched.locked == old(sched.locked)
      ensures found == (FirstMatch(old(Queue(Abs(), u)), w) < |old(Queue(Abs(), u))|)
      ensures Abs() == FindMail(old(Abs()), u, w)
    {
      hide SetQueue, Promote, FirstMatch, Process.Footprint, Process.Valid, Process.View, Scheduler.Valid,
        Scheduler.View, BmStack.Valid, BmStack.View;
      blocks[u.pid].Facts();
      found := blocks[u.pid].MessageFind(u.tid, w);
      OnlyBlock(u.pid);
    }

    /** Record what a blocking thread waits for, or the payload it offers. */
    method Note(u: Uid, w: Port, addr: nat, size: nat)
      requires Shape() && Live(Abs(), u)
      requires (w == ThreadAt(Abs(), u).waitFor)
        || (addr == ThreadAt(Abs(), u).payAddr && size == ThreadAt(Abs(), u).paySize)
      modifies repr, sched
      ensures unchanged(this) && Shape() && sched.locked == old(sched.locked)
      ensures Abs() == Request(old(Abs()), u, w, addr, size)
    {
      hide SetRequest, Process.Footprint, Process.Valid, Process.View, Scheduler.Valid, Scheduler.View,
        BmStack.Valid, BmStack.View;
      blocks[u.pid].Facts();
      if w != blocks[u.pid].threads[u.tid].waitFor {
        blocks[u.pid].WaitSet(u.tid, w);
      } else {
        blocks[u.pid].PayloadSet(u.tid, addr, size);
      }
      OnlyBlock(u.pid);
    }

    // ----- Scheduling -----

    /** A change to the scheduler alone. */
    twostate lemma OnlySched()
      requires old(Shape()) && sched.Valid() && unchanged(this) && unchanged(repr - {sched})
      ensures Shape() && Abs() == old(Abs()).(sched := sched.View())
    {
      hide Process.Footprint, Process.Valid, Process.View, Scheduler.Valid, Scheduler.View, BmStack.Valid, BmStack.View;
      assert Abs().procs == old(Abs()).procs;
    }

    method Ready(u: Uid)
      requires Shape() && u in Abs().sched.run && RunOf(Abs(), u) != Active
      modifies sched
      ensures Shape() && sched.locked == old(sched.locked)
      ensures Abs() == Wake(old(Abs()), u)
    {
      hide QueueOk, RunQueue.Add, Process.Footprint, Process.Valid, Process.View, Scheduler.Valid, Scheduler.View,
        BmStack.Valid, BmStack.View;
      SchedFacts(sched);
      sched.Add(u);
      OnlySched();
    }

    /** Take the running thread out of the queue. */
    method SuspendCaller(u: Uid, why: RunState)
      requires Shape() && Abs().sched.ring != [] && u == Curr(Abs()) && why in {Sending, Waiting}
      modifies sched
      ensures Shape() && sched.locked
      ensures Abs() == Suspend(old(Abs()), u, why)
    {
      hide QueueOk, RunQueue.Lock, RunQueue.Remove, RunQueue.Block, Process.Footprint, Process.Valid, Process.View,
        Scheduler.Valid, Scheduler.View, BmStack.Valid, BmStack.View;
      SchedFacts(sched);
      LockAndBlock(sched, u, why);
      OnlySched();
    }

    method Unlocked()
      requires Shape() && Abs().sched.ring != []
      modifies sched
      ensures Shape() && !sched.locked
      ensures Abs() == Continue(old(Abs()))
    {
      hide QueueOk, RunQueue.Unlock, Process.Footprint, Process.Valid, Process.View, Scheduler.Valid, Scheduler.View,
        BmStack.Valid, BmStack.View;
      SchedFacts(sched);
      sched.Unlock();
      OnlySched();
    }

    method Result(code: int)
      requires Shape()
      modifies sched
      ensures Shape() && sched.locked == old(sched.locked)
      ensures Abs() == Ret(old(Abs()), code)
    {
      hide Process.Footprint, Process.Valid, Process.View, Scheduler.Valid, Scheduler.View, BmStack.Valid, BmStack.View;
      sched.ReturnSet(code);
      OnlySched();
    }

    // ----- Looking things up -----

    method ThreadGet(u: Uid) returns (live: bool)
      requires Shape()
      ensures live == Live(Abs(), u)
    {
      hide Process.Footprint, Process.Valid, Process.View, Scheduler.Valid, Scheduler.View, BmStack.Valid, BmStack.View;
      if u.pid in blocks {
        blocks[u.pid].Facts();
        live := u.tid in blocks[u.pid].threads;
      } else {
        live := false;
      }
    }

    method PortFromUid(u: Uid) returns (port: Port)
      requires Shape() && Live(Abs(), u)
      ensures port == PortOf(Abs(), u)
    {
      hide Process.Footprint, Process.Valid, Process.View, Scheduler.Valid, Scheduler.View, BmStack.Valid, BmStack.View;
      blocks[u.pid].Facts();
      port := Port(u.pid, blocks[u.pid].who.version, u.tid, blocks[u.pid].threads[u.tid].version);
    }

    method PortToUid(port: Port, parent: nat) returns (u: Uid)
      requires Shape()
      ensures u == Resolve(Abs(), port, parent)
    {
      hide Process.Footprint, Process.Valid, Process.View, Scheduler.Valid, Scheduler.View, BmStack.Valid, BmStack.View;
      if port == IPORT_ANY || port == IPORT_KERNEL {
        return Uid(1, port.tid);
      }
      if port.pvn == 0 && port.tvn == 0 {
        if port.pid == 0 {
          return Uid(parent, port.tid);
        }
        return Uid(port.pid, 0);
      }
      u := Uid(port.pid, port.tid);
      var live := ThreadGet(u);
      if !live {
        return NOBODY;
      }
      blocks[u.pid].Facts();
      if blocks[u.pid].who.version != port.pvn || blocks[u.pid].threads[u.tid].version != port.tvn {
        return NOBODY;
      }
    }

    /** Deliver a message and wake its receiver if that is what it waits for. */
    method PostTo(target: Uid, m: Message)
      requires Shape() && StatesOk(Abs()) && Live(Abs(), target) && Room(Abs(), target.pid)
      modifies repr, sched
      ensures unchanged(this) && Shape() && sched.locked == old(sched.locked)
      ensures Abs() == Post(old(Abs()), target, m)
    {
      hide StatesOk, AddMail, RunQueue.Add, Compare, Process.Footprint, Process.Valid, Process.View, Scheduler.Valid,
        Scheduler.View, BmStack.Valid, BmStack.View, Abs, Shape;
      ghost var s := Abs();
      var woken := IsWoken(target, m.from);
      AddTo(target, m, woken);
      if woken {
        AddMailRun(s, target, m, woken);
        Ready(target);
      }
    }

    method IsWoken(target: Uid, from: Port) returns (woken: bool)
      requires Shape() && StatesOk(Abs()) && Live(Abs(), target)
      ensures woken == Woken(Abs(), target, from)
    {
      hide QueueOk, Compare, Process.Footprint, Process.Valid, Process.View, Scheduler.Valid, Scheduler.View,
        BmStack.Valid, BmStack.View;
      SchedFacts(sched);
      blocks[target.pid].Facts();
      woken := false;
      if sched.info[target].state == Waiting {
        woken := Compare(blocks[target.pid].threads[target.tid].waitFor, from);
      }
    }

    // ----- System calls -----

    /** The calling thread. */
    method Caller() returns (u: Uid)
      requires Shape() && !sched.locked
      ensures u == Curr(Abs())
    {
      hide QueueOk, Process.Footprint, Process.Valid, Process.View, Scheduler.Valid, Scheduler.View, BmStack.Valid,
        BmStack.View;
      SchedFacts(sched);
      u := sched.active;
    }

    method HasRoom(pid: nat) returns (room: bool)
      requires Shape() && pid in Abs().procs
      ensures room == Room(Abs(), pid)
    {
      hide Process.Footprint, Process.Valid, Process.View, Scheduler.Valid, Scheduler.View, BmStack.Valid, BmStack.View;
      blocks[pid].Facts();
      room := blocks[pid].messageCount < PROCESS_MESSAGE_MAX;
    }

    method SendCheck(ghost s: State, caller: Uid, r: Outgoing, mapped: bool, bufMapped: bool)
      returns (error: int, target: Uid, port: Port)
      requires Shape() && s == Abs() && caller == Curr(s) && Live(s, caller)
      ensures error == SendError(s, r, mapped, bufMapped)
      ensures target == Resolve(s, r.to, caller.pid) && port == PortOf(s, caller)
    {
      hide Resolve, PortOf, Compare, Room, Shape, Abs, Process.Footprint, Process.Valid, Process.View,
        Scheduler.Valid, Scheduler.View, BmStack.Valid, BmStack.View;
      port := PortFromUid(caller);
      target := PortToUid(r.to, caller.pid);
      var live := ThreadGet(target);
      if !mapped || Compare(r.to, port) {
        error := EPARAM;
      } else if target.pid == 0 {
        error := EINVALID;
      } else if !live {
        error := ENOTAVAIL;
      } else {
        var room := HasRoom(target.pid);
        if !room {
          error := ENORES;
        } else if r.buf != 0 && r.size == 0 {
          error := ESIZE;
        } else if r.buf != 0 && !bufMapped {
          error := EADDR;
        } else {
          error := ENONE;
        }
      }
    }

    /** The sender of a payload leaves the run queue before the receiver is looked at. */
    method BlockSender(caller: Uid, r: Outgoing)
      requires Shape() && StatesOk(Abs()) && Abs().sched.ring != [] && caller == Curr(Abs())
      requires !sched.locked
      modifies repr, sched
      ensures unchanged(this) && Shape() && sched.locked == (r.buf != 0)
      ensures Abs() == AtPost(old(Abs()), r)
    {
      hide StatesOk, Request, Suspend, Process.Footprint, Process.Valid, Process.View, Scheduler.Valid,
        Scheduler.View, BmStack.Valid, BmStack.View, Abs, Shape, Live, ThreadAt;
      ghost var s := Abs();
      CurrLive(s);
      Result(ENONE);
      RetEffect(s, ENONE);
      if r.buf != 0 {
        SuspendCaller(caller, Sending);
        SuspendProcs(Ret(s, ENONE), caller, Sending);
        SameProcs(s, Abs());
        var w := WaitForOf(caller);
        Note(caller, w, r.buf, r.size);
      }
    }

    method WaitForOf(u: Uid) returns (w: Port)
      requires Shape() && Live(Abs(), u)
      ensures w == ThreadAt(Abs(), u).waitFor
    {
      hide Process.Footprint, Process.Valid, Process.View, Scheduler.Valid, Scheduler.View, BmStack.Valid, BmStack.View;
      blocks[u.pid].Facts();
      w := blocks[u.pid].threads[u.tid].waitFor;
    }

    method SyscallSend(r: Outgoing, mapped: bool, bufMapped: bool)
      requires Valid() && Enabled(Abs(), Send(r, mapped, bufMapped))
      modifies repr, sched
      ensures Valid() && Abs() == Step(old(Abs()), Send(r, mapped, bufMapped))
    {
      hide Core, Fresh, StatesOk, Resolve, PortOf, Compare, Post, AtPost, Unlock, Process.Footprint, Process.Valid,
        Process.View, Scheduler.Valid, Scheduler.View, BmStack.Valid, BmStack.View, Abs, Shape, ThreadAt, Live, Room,
        SendError;
      ghost var s := Abs();
      SendKeeps(s, r, mapped, bufMapped);
      CoreStates(s);
      CurrLive(s);
      var caller := Caller();
      var error, target, port := SendCheck(s, caller, r, mapped, bufMapped);
      if error != ENONE {
        Result(error);
        return;
      }
      SendIsPost(s, r, mapped, bufMapped);
      SendRoom(s, r, mapped, bufMapped);
      BlockSender(caller, r);
      PostTo(target, Message(port, r.code, r.args, r.size > 0));
      if sched.locked {
        ContinueSame(Abs());
        Unlocked();
      }
    }

    /** The message at the head of a queue, if there is one. */
    method Head(ghost s: State, u: Uid) returns (some: bool, m: Message)
      requires Shape() && s == Abs() && Live(s, u)
      ensures some == (Queue(s, u) != []) && (some ==> m == Queue(s, u)[0])
    {
      hide Process.Footprint, Process.Valid, Process.View, Scheduler.Valid, Scheduler.View, BmStack.Valid, BmStack.View;
      blocks[u.pid].Facts();
      some, m := blocks[u.pid].threads[u.tid].count != 0, Message(IPORT_ANY, 0, [], false);
      if some {
        m := blocks[u.pid].MessagePeek(u.tid);
      }
    }

    /** The payload a thread offers. */
    method PayloadOf(ghost s: State, u: Uid) returns (addr: nat, size: nat)
      requires Shape() && s == Abs() && Live(s, u)
      ensures addr == ThreadAt(s, u).payAddr && size == ThreadAt(s, u).paySize
    {
      hide Process.Footprint, Process.Valid, Process.View, Scheduler.Valid, Scheduler.View, BmStack.Valid, BmStack.View;
      blocks[u.pid].Facts();
      addr, size := blocks[u.pid].threads[u.tid].payAddr, blocks[u.pid].threads[u.tid].paySize;
    }

    /** Who sent the head message and now blocks for its payload. */
    method SenderOf(ghost s: State, m: Message, parent: nat) returns (sender: Uid)
      requires Shape() && s == Abs() && Queue(s, Curr(s)) != [] && m == Queue(s, Curr(s))[0]
      ensures sender == HeadSender(s, parent)
    {
      hide Shape, Abs, Queue, Resolve;
      sender := NOBODY;
      if m.payload {
        sender := PortToUid(m.from, parent);
      }
    }

    method RecvCheck(ghost s: State, caller: Uid, mapped: bool, bufSize: nat, bufMapped: bool)
      returns (error: int, sender: Uid, size: nat)
      requires Shape() && s == Abs() && caller == Curr(s) && Live(s, caller)
      requires mapped && HeadSender(s, 0) != NOBODY ==> Live(s, HeadSender(s, 0))
      ensures error == RecvError(s, mapped, bufSize, bufMapped)
      ensures error == ENONE ==> Queue(s, caller) != [] && sender == HeadSender(s, 0)
      ensures error == ENONE ==> size == if sender != NOBODY then ThreadAt(s, sender).paySize else 0
    {
      hide Shape, Abs, Queue, HeadSender, Live, ThreadAt, Curr;
      sender, size := NOBODY, 0;
      if !mapped {
        return EPARAM, sender, size;
      }
      var some, m := Head(s, caller);
      if !some {
        return ENOTAVAIL, sender, size;
      }
      sender := SenderOf(s, m, 0);
      if sender != NOBODY {
        var addr;
        addr, size := PayloadOf(s, sender);
        if bufSize == 0 || bufSize < size {
          return ESIZE, sender, size;
        }
        if !bufMapped {
          return EADDR, sender, size;
        }
      }
      error := ENONE;
    }

    /** Take the head message, and let its sender go if it offers a payload. */
    method SyscallRecv(mapped: bool, bufSize: nat, bufMapped: bool) returns (ok: bool, m: Message)
      requires Valid() && Enabled(Abs(), Recv(mapped, bufSize, bufMapped))
      modifies repr, sched
      ensures Valid() && Abs() == Step(old(Abs()), Recv(mapped, bufSize, bufMapped))
      ensures ok == (RecvError(old(Abs()), mapped, bufSize, bufMapped) == ENONE)
      ensures ok ==> Queue(old(Abs()), Curr(old(Abs()))) != [] && m == Queue(old(Abs()), Curr(old(Abs())))[0]
    {
      hide Core, Fresh, StatesOk, Shape, Abs, Queue, HeadSender, Live, ThreadAt, DropMail, RecvError,
        RunQueue.Add, RunOf;
      ghost var s := Abs();
      CoreStates(s);
      CurrLive(s);
      RecvKeeps(s, mapped, bufSize, bufMapped);
      m := Message(IPORT_ANY, 0, [], false);
      var caller := Caller();
      var error, sender, size := RecvCheck(s, caller, mapped, bufSize, bufMapped);
      ok := error == ENONE;
      if !ok {
        Result(error);
        return;
      }
      if sender != NOBODY {
        Runnable(s, sender);
        Ready(sender);
        SameProcs(s, Wake(s, sender));
        SameQueues(s, Wake(s, sender));
      }
      m := TakeFrom(caller);
      Result(size);
    }

    /** Discard the head message, and let its sender go if it offered a payload. */
    method SyscallDrop(mapped: bool) returns (ok: bool, m: Message)
      requires Valid() && Enabled(Abs(), Drop(mapped))
      modifies repr, sched
      ensures Valid() && Abs() == Step(old(Abs()), Drop(mapped))
      ensures ok == (mapped && Queue(old(Abs()), Curr(old(Abs()))) != [])
      ensures ok ==> m == Queue(old(Abs()), Curr(old(Abs())))[0]
    {
      hide Core, Fresh, StatesOk, Shape, Abs, Queue, HeadSender, Live, ThreadAt, DropMail, RunQueue.Add, RunOf;
      ghost var s := Abs();
      CoreStates(s);
      CurrLive(s);
      DropKeeps(s, mapped);
      ok, m := false, Message(IPORT_ANY, 0, [], false);
      var caller := Caller();
      if !mapped {
        Result(EPARAM);
        return;
      }
      ok, m := Head(s, caller);
      if !ok {
        Result(ENOTAVAIL);
        return;
      }
      var sender := SenderOf(s, m, caller.pid);
      m := TakeFrom(caller);
      if sender != NOBODY {
        Runnable(s, sender);
        DropMailEffect(s, caller);
        SameSched(s, DropMail(s, caller));
        Ready(sender);
      }
      Result(ENONE);
    }

    method WaitCheck(ghost s: State, caller: Uid, w: Port) returns (error: int)
      requires Shape() && s == Abs() && caller == Curr(s)
      ensures error == WaitError(s, w)
    {
      hide Shape, Abs, Resolve, Live, Curr;
      var target := PortToUid(w, caller.pid);
      if target == NOBODY {
        return EINVALID;
      }
      var live := true;
      if target.pid == 0 {
        live := ThreadGet(Uid(caller.pid, target.tid));
      } else if target.pid > 1 {
        live := ThreadGet(target);
      }
      error := if live then ENONE else ENOTAVAIL;
    }

    /** The caller leaves the run queue until a message it accepts arrives. */
    method BlockWaiter(ghost s: State, caller: Uid, w: Port)
      requires Shape() && s == Abs() && StatesOk(s) && s.sched.ring != [] && caller == Curr(s)
      modifies repr, sched
      ensures unchanged(this) && Shape() && sched.locked
      ensures
        var th := ThreadAt(s, caller);
        Abs() == Request(Suspend(Ret(s, ENONE), caller, Waiting), caller, w, th.payAddr, th.paySize)
    {
      hide StatesOk, Request, Suspend, Abs, Shape, Live, ThreadAt;
      CurrLive(s);
      RetEffect(s, ENONE);
      Result(ENONE);
      SuspendCaller(caller, Waiting);
      SuspendProcs(Ret(s, ENONE), caller, Waiting);
      SameProcs(s, Abs());
      var addr, size := PayloadOf(Abs(), caller);
      Note(caller, w, addr, size);
    }

    method SyscallWait(w: Port)
      requires Valid() && Enabled(Abs(), Wait(w))
      modifies repr, sched
      ensures Valid() && Abs() == Step(old(Abs()), Wait(w))
    {
      hide Core, Fresh, StatesOk, Shape, Abs, Queue, Live, ThreadAt, WaitError, FirstMatch, FindMail, Request,
        Suspend, Unlock;
      ghost var s := Abs();
      CoreStates(s);
      CurrLive(s);
      WaitKeeps(s, w);
      var caller := Caller();
      var found := FindFor(caller, w);
      if found {
        Result(ENONE);
        return;
      }
      FindNothing(s, w);
      var error := WaitCheck(s, caller, w);
      if error != ENONE {
        Result(error);
        return;
      }
      OthersRemain(s, caller, w, ThreadAt(s, caller).payAddr, ThreadAt(s, caller).paySize);
      BlockWaiter(s, caller, w);
      Unlocked();
    }

    /** A message from the kernel itself. */
    method InternalKsend(port: Port, code: nat, args: seq<nat>)
      requires Valid() && Enabled(Abs(), KernelSend(port, code, args))
      modifies repr, sched
      ensures Valid() && Abs() == Step(old(Abs()), KernelSend(port, code, args))
    {
      hide Core, Fresh, StatesOk, Shape, Abs, Live, Resolve, Room, Post;
      ghost var s := Abs();
      CoreStates(s);
      KernelSendKeeps(s, port, code, args);
      var target := PortToUid(port, 0);
      PostTo(target, Message(IPORT_KERNEL, code, args, false));
    }

    method TimerInterrupt()
      requires Valid() && Enabled(Abs(), Timer)
      modifies sched
      ensures Valid() && Abs() == Step(old(Abs()), Timer)
    {
      hide Core, Fresh, QueueOk, RunQueue.Tick, Process.Footprint, Process.Valid, Process.View, Scheduler.Valid,
        Scheduler.View, BmStack.Valid, BmStack.View;
      TurnKeeps(Abs(), Tick(Abs().sched));
      SchedFacts(sched);
      sched.TimerTick();
      OnlySched();
    }

    /** Give the rest of the turn to the next thread. */
    method Rotate()
      requires Shape() && Abs().sched.ring != []
      modifies sched
      ensures Shape() && sched.locked == old(sched.locked)
      ensures Abs() == old(Abs()).(sched := Next(old(Abs()).sched))
    {
      hide QueueOk, RunQueue.Next, Process.Footprint, Process.Valid, Process.View, Scheduler.Valid, Scheduler.View,
        BmStack.Valid, BmStack.View;
      SchedFacts(sched);
      sched.Next();
      OnlySched();
    }

    method SyscallYield()
      requires Valid() && Enabled(Abs(), Yield)
      modifies sched
      ensures Valid() && Abs() == Step(old(Abs()), Yield)
    {
      hide Core, Fresh, Shape, Abs, RunQueue.Next;
      ghost var s := Abs();
      StepKeeps(s, Yield);
      RunSame(s, ENONE);
      Result(ENONE);
      Rotate();
    }

    // ----- Processes and threads -----

    /** One more process block, in memory of its own. */
    twostate lemma OneMoreShape(pid: nat)
      requires old(Shape()) && pid !in old(blocks) && pid in blocks && pid < |blockVersions|
      requires blocks == old(blocks)[pid := blocks[pid]]
      requires blocks[pid].Valid() && fresh(blocks[pid].Footprint()) && repr == old(repr) + blocks[pid].Footprint()
      requires blockMap.Valid() && blockMap.View() == old(blockMap.View()) + {pid}
      requires unchanged(old(repr) - {blockMap, blockMap.base}) && this !in repr
      ensures Shape()
      ensures forall p :: p in old(blocks) ==> blocks[p].View() == old(blocks[p].View())
      ensures sched.View() == old(sched.View())
    {
      hide Process.Footprint, Process.Valid, Process.View, Scheduler.Valid, Scheduler.View, BmStack.Valid, BmStack.View;
      SeparateAdd(old(blocks), old(repr), {sched, blockMap, blockMap.base}, pid, blocks[pid]);
      assert forall p :: p in old(blocks) ==> blocks[p].Valid();
    }

    twostate lemma OneMoreBlock(pid: nat)
      requires old(Shape()) && pid !in old(blocks) && pid in blocks && pid < |blockVersions|
      requires blocks == old(blocks)[pid := blocks[pid]]
      requires blocks[pid].Valid() && fresh(blocks[pid].Footprint()) && repr == old(repr) + blocks[pid].Footprint()
      requires blockMap.Valid() && blockMap.View() == old(blockMap.View()) + {pid}
      requires unchanged(old(repr) - {blockMap, blockMap.base}) && this !in repr
      ensures Shape()
      ensures Abs() == SetProc(old(Abs()), pid, blocks[pid].View()).(pvers := blockVersions)
    {
      hide Process.Footprint, Process.Valid, Process.View, Scheduler.Valid, Scheduler.View, BmStack.Valid,
        BmStack.View, Separate;
      OneMoreShape(pid);
      assert Abs().procs == old(Abs()).procs[pid := blocks[pid].View()];
    }

    /** What a child of `owner` takes over from it. */
    method Inherit(ghost s: State, owner: nat, version: nat) returns (who: Identity)
      requires Shape() && s == Abs()
      ensures who ==
        if owner in s.procs then Identity(version, owner, s.procs[owner].priv, 0) else Identity(version, 0, 2, 0)
    {
      hide Process.Footprint, Process.Valid, Process.View, Scheduler.Valid, Scheduler.View, BmStack.Valid, BmStack.View;
      who := Identity(version, 0, 2, 0);
      if owner in blocks {
        blocks[owner].Facts();
        who := Identity(version, owner, blocks[owner].who.priv, 0);
      }
    }

    /** The plain fields show through the kernel's meaning. */
    lemma Fields()
      requires Shape()
      ensures blocks.Keys == Abs().procs.Keys && blockVersions == Abs().pvers
      ensures this !in repr && sched in repr && blockMap in repr && blockMap.base in repr
      ensures blockMap.Valid() && Bitmaps.BITS * blockMap.base.Length == PROCESS_MAX
      ensures blockMap.View() == {0, 1} + blocks.Keys
    {
      hide Process.Footprint, Process.Valid, Process.View, Scheduler.Valid, Scheduler.View, BmStack.Valid, BmStack.View;
    }

    /** Claim a process number and fill its block. */
    method ProcessNew(ghost s: State, owner: nat) returns (pid: nat)
      requires Shape() && s == Abs() && TableOk(s) && blockMap.head != NULL
      modifies this, repr
      ensures Shape() && old(repr) <= repr && fresh(repr - old(repr)) && sched.locked == old(sched.locked)
      ensures 2 <= pid < PROCESS_MAX && pid !in s.procs && pid < |s.pvers| && s.pvers[pid] < 256
      ensures Abs() == NewProcess(s, pid, owner)
    {
      hide Process.Footprint, Process.Valid, Process.View, Scheduler.Valid, Scheduler.View, BmStack.Valid,
        BmStack.View, TableOk, NewProcess, SetProc, Shape, Abs, NextVersion;
      Fields();
      var who := Inherit(s, owner, 0);
      var index := blockMap.FindAndSet();
      pid := index;
      assert pid !in {0, 1} + blocks.Keys;
      SpawnPlace(s, pid);
      var version := NextVersion(blockVersions[pid]);
      var block := new Process(who.(version := version));
      blocks, blockVersions := blocks[pid := block], blockVersions[pid := version];
      repr := repr + block.Footprint();
      OneMoreBlock(pid);
      NewProcessIs(s, pid, owner, who, block.View());
    }

    method SyscallSpawn() returns (pid: nat)
      requires Valid() && Abs().sched.ring != [] && blockMap.head != NULL
      modifies this, repr, sched
      ensures fresh(repr - old(repr)) && Enabled(old(Abs()), Spawn(pid))
      ensures Valid() && Abs() == Step(old(Abs()), Spawn(pid))
    {
      hide Core, Fresh, TableOk, NewProcess, Shape, Abs;
      ghost var s := Abs();
      CoreTable(s);
      var caller := Caller();
      pid := ProcessNew(s, caller.pid);
      Result(pid);
      SpawnKeeps(s, pid);
    }

    /** Claim a thread record in a process block. */
    method ThreadNew(ghost s: State, pid: nat) returns (u: Uid)
      requires Shape() && s == Abs() && pid in s.procs
      requires exists t: nat :: t < PROCESS_THREAD_MAX && t !in s.procs[pid].threads
      modifies repr
      ensures unchanged(this) && unchanged(sched) && Shape()
      ensures u.pid == pid && u.tid < PROCESS_THREAD_MAX && !Live(s, u) && CanOpen(s, u)
      ensures forall t: nat :: t < u.tid ==> Live(s, Uid(pid, t))
      ensures Abs() == SetProc(s, pid, AddThread(s.procs[pid], u.tid))
    {
      hide AddThread, Process.Footprint, Process.Valid, Process.View, Scheduler.Valid, Scheduler.View, BmStack.Valid,
        BmStack.View;
      blocks[pid].Facts();
      var t := blocks[pid].ThreadNew();
      u := Uid(pid, t);
      OnlyBlock(pid);
    }

    /** Set the entry point of a process. */
    method EntrySet(ghost s: State, pid: nat, entry: nat)
      requires Shape() && s == Abs() && pid in s.procs
      modifies repr
      ensures unchanged(this) && unchanged(sched) && Shape()
      ensures Abs() == SetProc(s, pid, s.procs[pid].(entry := entry))
    {
      hide Process.Footprint, Process.Valid, Process.View, Scheduler.Valid, Scheduler.View, BmStack.Valid, BmStack.View;
      blocks[pid].EntrySet(entry);
      OnlyBlock(pid);
    }

    /** Give a new thread its first registers and make it runnable. */
    method Start(ghost s: State, u: Uid, entry: nat, stack: nat)
      requires Shape() && s == Abs() && u !in s.sched.run && u.pid != 0
      modifies sched
      ensures Shape() && sched.locked == old(sched.locked)
      ensures Abs() == s.(sched := RunQueue.Add(RunQueue.Enter(s.sched, u, entry, stack), u))
    {
      hide QueueOk, RunQueue.Add, Process.Footprint, Process.Valid, Process.View, Scheduler.Valid, Scheduler.View,
        BmStack.Valid, BmStack.View;
      SchedFacts(sched);
      sched.Enter(u, entry, stack);
      SchedFacts(sched);
      sched.Add(u);
      OnlySched();
    }

    /** Create a thread and make it runnable, at its own entry point or that of its process. */
    method OpenThread(ghost s: State, pid: nat, entry: nat, stack: nat) returns (u: Uid)
      requires Shape() && s == Abs() && StatesOk(s) && TableOk(s) && pid in s.procs
      requires exists t: nat :: t < PROCESS_THREAD_MAX && t !in s.procs[pid].threads
      modifies repr, sched
      ensures unchanged(this) && Shape() && sched.locked == old(sched.locked)
      ensures u.pid == pid && u.tid < PROCESS_THREAD_MAX && !Live(s, u) && CanOpen(s, u)
      ensures forall t: nat :: t < u.tid ==> Live(s, Uid(pid, t))
      ensures Abs() == StartThread(s, u, entry, stack, s.procs[pid].entry)
    {
      hide QueueOk, Shape, Abs, RunQueue.Add, RunQueue.Enter;
      assert ProcOk(s.pvers, pid, s.procs[pid]);
      var start := EntryOf(s, pid, entry);
      u := ThreadNew(s, pid);
      SameEntry(s, u);
      Start(Abs(), u, start, stack);
    }

    method EntryOf(ghost s: State, pid: nat, entry: nat) returns (start: nat)
      requires Shape() && s == Abs() && pid in s.procs
      ensures start == if entry != 0 then entry else s.procs[pid].entry
    {
      hide Process.Footprint, Process.Valid, Process.View, Scheduler.Valid, Scheduler.View, BmStack.Valid, BmStack.View;
      blocks[pid].Facts();
      start := if entry != 0 then entry else blocks[pid].who.entry;
    }

    method LaunchCheck(ghost s: State, caller: Uid, pid: nat) returns (error: int)
      requires Shape() && s == Abs() && caller == Curr(s)
      ensures error == LaunchError(s, pid)
    {
      hide Curr, Process.Footprint, Process.Valid, Process.View, Scheduler.Valid, Scheduler.View, BmStack.Valid,
        BmStack.View;
      if pid !in blocks {
        return ENOTAVAIL;
      }
      blocks[pid].Facts();
      if blocks[pid].threads != map[] {
        assert blocks[pid].threads.Keys != {};
        return EINVALID;
      }
      error := ENONE;
      if caller.pid in blocks {
        blocks[caller.pid].Facts();
        if blocks[pid].who.parent != caller.pid && blocks[caller.pid].who.priv == 0 {
          error := EPRIV;
        }
      }
    }

    method SyscallLaunch(pid: nat, entry: nat)
      requires Valid() && Enabled(Abs(), Launch(pid, entry))
      modifies repr, sched
      ensures Valid() && Abs() == Step(old(Abs()), Launch(pid, entry))
    {
      hide Core, Fresh, StatesOk, TableOk, Shape, Abs, Live, StartThread, CanOpen;
      ghost var s := Abs();
      CoreStates(s);
      CoreTable(s);
      LaunchKeeps(s, pid, entry);
      var caller := Caller();
      var error := LaunchCheck(s, caller, pid);
      if error != ENONE {
        Result(error);
        return;
      }
      LaunchSets(s, pid, entry);
      EntrySet(s, pid, entry);
      ghost var t := Abs();
      NoThreadsNoneLive(t, pid);
      assert 0 !in t.procs[pid].threads && !Live(t, Uid(pid, 0));
      var u := OpenThread(t, pid, 0, 0);
      Result(ENONE);
    }

    method SyscallDispatch(entry: nat, stack: nat) returns (tid: nat)
      requires Valid() && Abs().sched.ring != []
      requires exists t: nat :: t < PROCESS_THREAD_MAX && !Live(Abs(), Uid(Curr(Abs()).pid, t))
      modifies repr, sched
      ensures Enabled(old(Abs()), Dispatch(tid, entry, stack))
      ensures Valid() && Abs() == Step(old(Abs()), Dispatch(tid, entry, stack))
    {
      hide Core, Fresh, StatesOk, TableOk, Shape, Abs, StartThread, CanOpen;
      ghost var s := Abs();
      CoreStates(s);
      CoreTable(s);
      CurrLive(s);
      var caller := Caller();
      var u := OpenThread(s, caller.pid, entry, stack);
      tid := u.tid;
      Result(tid);
      DispatchKeeps(s, tid, entry, stack);
    }

    /** One process block less. */
    twostate lemma OneBlockLess(pid: nat)
      requires old(Shape()) && pid >= 2
      requires blocks == old(blocks) - {pid} && blockVersions == old(blockVersions) && repr == old(repr)
      requires blockMap.Valid() && blockMap.View() == old(blockMap.View()) - {pid} && sched.Valid()
      requires unchanged(repr - {sched, blockMap, blockMap.base})
      ensures Shape()
      ensures Abs() == old(Abs()).(procs := old(Abs()).procs - {pid}, sched := sched.View())
    {
      hide Process.Footprint, Process.Valid, Process.View, Scheduler.Valid, Scheduler.View, BmStack.Valid, BmStack.View;
      assert Shape();
      assert Abs().procs == old(Abs()).procs - {pid};
    }

    /** Take the threads of a process out of the queue and give its block back. */
    method ProcessKill(ghost s: State, pid: nat)
      requires Shape() && s == Abs() && TableOk(s) && StatesOk(s) && pid in s.procs
      requires Curr(s).pid == pid ==> sched.locked
      modifies this, repr, sched
      ensures repr == old(repr) && Shape() && sched.locked == old(sched.locked)
      ensures Abs() == EndProcess(s, pid)
    {
      hide QueueOk, TableOk, StatesOk, Shape, Abs, RunQueue.Leave, RemoveAll, ThreadsIn, Process.Footprint,
        Process.Valid, Process.View, Scheduler.Valid, Scheduler.View, BmStack.Valid, BmStack.View;
      Fields();
      SchedIn();
      PidInRange(s, pid);
      PurgedAreThreads(s, pid);
      EvictThreads(sched, s.sched, pid);
      blocks := blocks - {pid};
      blockMap.Clear(pid);
      OneBlockLess(pid);
    }

    lemma SchedIn()
      requires Shape()
      ensures sched.Valid() && Abs().sched == sched.View()
    {
      hide Process.Footprint, Process.Valid, Process.View, Scheduler.Valid, Scheduler.View, BmStack.Valid, BmStack.View;
    }

    method LockNow()
      requires Shape() && Abs().sched.ring != []
      modifies sched
      ensures Shape() && sched.locked
      ensures Abs() == old(Abs()).(sched := RunQueue.Lock(old(Abs()).sched))
    {
      hide QueueOk, RunQueue.Lock, Process.Footprint, Process.Valid, Process.View, Scheduler.Valid, Scheduler.View,
        BmStack.Valid, BmStack.View;
      SchedFacts(sched);
      sched.Lock();
      OnlySched();
    }

    method KillCheck(ghost s: State, caller: Uid, pid: nat) returns (error: int, target: nat)
      requires Shape() && s == Abs() && caller == Curr(s)
      ensures error == KillError(s, pid) && target == KillTarget(s, pid)
    {
      hide Curr, Process.Footprint, Process.Valid, Process.View, Scheduler.Valid, Scheduler.View, BmStack.Valid,
        BmStack.View;
      target := if pid == 0 then caller.pid else pid;
      if target !in blocks {
        return ENOTAVAIL, target;
      }
      blocks[target].Facts();
      error := ENONE;
      if caller.pid in blocks {
        blocks[caller.pid].Facts();
        if blocks[caller.pid].who.priv < blocks[target].who.priv {
          error := EPRIV;
        }
      }
    }

    method SyscallKill(pid: nat)
      requires Valid() && Enabled(Abs(), Kill(pid))
      modifies this, repr, sched
      ensures Valid() && Abs() == Step(old(Abs()), Kill(pid))
    {
      hide Core, Fresh, StatesOk, TableOk, Shape, Abs, Live, EndProcess, RunQueue.Lock, Unlock, KillError, KillTarget,
        Scheduler.Valid, Scheduler.View;
      ghost var s := Abs();
      CoreStates(s);
      KillKeeps(s, pid);
      KilledSelf(s, pid);
      var caller := Caller();
      var error, target := KillCheck(s, caller, pid);
      if error != ENONE {
        Result(error);
        return;
      }
      KillFound(s, pid);
      if target == caller.pid {
        LockNow();
        LockedSame(s);
      }
      CoreStates(Abs());
      CoreTable(Abs());
      ProcessKill(Abs(), target);
      SchedIn();
      SchedFacts(sched);
      var now := sched.Curr();
      if now.pid == 0 {
        Unlocked();
      } else {
        Result(ENONE);
      }
    }

    /** Destroy one thread record of a process block. */
    method ThreadKill(ghost s: State, u: Uid)
      requires Shape() && s == Abs() && Live(s, u)
      modifies repr
      ensures unchanged(this) && unchanged(sched) && Shape()
      ensures Abs() == SetProc(s, u.pid, RemoveThread(s.procs[u.pid], u.tid))
    {
      hide RemoveThread, Process.Footprint, Process.Valid, Process.View, Scheduler.Valid, Scheduler.View,
        BmStack.Valid, BmStack.View;
      blocks[u.pid].Facts();
      blocks[u.pid].ThreadKill(u.tid);
      OnlyBlock(u.pid);
    }

    method Evict(ghost s: State, u: Uid)
      requires Shape() && s == Abs() && s.sched.ring != [] && u == Curr(s) && sched.locked
      modifies sched
      ensures Shape() && sched.locked
      ensures Abs() == s.(sched := RunQueue.Leave(RunQueue.Remove(s.sched, u), {u}))
    {
      hide QueueOk, RunQueue.Remove, RunQueue.Leave, Process.Footprint, Process.Valid, Process.View, Scheduler.Valid,
        Scheduler.View, BmStack.Valid, BmStack.View;
      EvictThread(sched, s.sched, u);
      OnlySched();
    }

    /** End a running thread that has been stopped, or its whole process if it is the main thread. */
    method Expire(ghost t: State, u: Uid)
      requires Shape() && t == Abs() && Core(t) && t.sched.ring != [] && u == Curr(t) && sched.locked
      modifies this, repr, sched
      ensures repr == old(repr) && Shape() && sched.locked
      ensures Abs() == if u.tid == 0 then EndProcess(t, u.pid) else EndThread(t, u)
    {
      hide Core, Fresh, StatesOk, TableOk, Shape, Abs, Live, EndProcess, RunQueue.Remove, RunQueue.Leave, RemoveThread;
      CoreStates(t);
      CoreTable(t);
      CurrLive(t);
      OwnerKnown(t, u);
      if u.tid == 0 {
        ProcessKill(t, u.pid);
      } else {
        Evict(t, u);
        SameProcs(t, Abs());
        ThreadKill(Abs(), u);
      }
    }

    /** A fault of the running thread ends it, or, in a main thread, the whole process. */
    method InternalTkill()
      requires Valid() && Enabled(Abs(), Fault)
      modifies this, repr, sched
      ensures Valid() && Abs() == Step(old(Abs()), Fault)
    {
      hide Core, Fresh, Shape, Abs, EndProcess, EndThread, RunQueue.Lock, Unlock;
      ghost var s := Abs();
      FaultKeeps(s);
      LockedSame(s);
      var u := Caller();
      LockNow();
      ghost var t := Abs();
      ContinueSame(if u.tid == 0 then EndProcess(t, u.pid) else EndThread(t, u));
      Expire(t, u);
      Unlocked();
    }
  }
}
