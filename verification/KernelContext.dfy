/** Context switches: registers and address spaces over whole runs
    (kernel/core/multitask/scheduler.c, kernel/arch/i586/sw/task.c). */
module KernelContext {
  import opened Ports
  import opened RunQueue
  import opened Mail
  import opened KernelState
  import opened KernelInvariant
  import opened KernelSteps

  // ----- What a scheduler change does to saved registers -----

  /** From `s` to `t`, only the thread that was running may get new saved registers, namely
      `stop`; a thread that starts running continues with the registers saved for it,
      and in its own address space. */
  ghost predicate Switches(s: Sched, t: Sched, stop: Frame) {
    && s.ring != []
    && (s.loaded == s.ring[0].pid && t.ring != [] ==> t.loaded == t.ring[0].pid)
    && (forall v :: v in s.tasks && v in t.tasks && v != s.ring[0] ==> t.tasks[v] == s.tasks[v])
    && (t.ring != [] && t.ring[0] != s.ring[0] ==>
          && (s.ring[0] in s.tasks && s.ring[0] in t.tasks ==> t.tasks[s.ring[0]] == s.tasks[s.ring[0]].(frame := stop))
          && (t.ring[0] in s.tasks && s.tasks[t.ring[0]].frame.eip != 0 ==> t.frame == s.tasks[t.ring[0]].frame)
          && (t.ring[0] in s.tasks && s.tasks[t.ring[0]].frame.eip == 0 ==>
                t.frame.eip == s.tasks[t.ring[0]].entry && t.frame.esp == s.tasks[t.ring[0]].stack))
  }

  /** No switch: the running thread goes on. */
  lemma StaysPut(s: Sched, t: Sched, stop: Frame)
    requires s.ring != [] && t.ring != [] && t.ring[0] == s.ring[0] && t.loaded == s.loaded
    requires forall v :: v in s.tasks && v in t.tasks ==> t.tasks[v] == s.tasks[v]
    ensures Switches(s, t, stop)
  {}

  lemma NextSwitches(s: Sched)
    requires QueueOk(s) && s.ring != []
    ensures Switches(s, Next(s), s.frame)
  {}

  /** The scheduler is locked, the run queue changes, and it is unlocked again. */
  lemma RelockSwitches(s: Sched, t: Sched)
    requires QueueOk(s) && s.ring != []
    requires t.frame == s.frame && QueueOk(t) && s.ring[0] !in t.ring
    requires forall v :: v in t.tasks ==> v in Lock(s).tasks && t.tasks[v] == Lock(s).tasks[v]
    ensures Switches(s, Unlock(t), s.frame)
  {}

  lemma SwitchesAfterReturn(s: Sched, t: Sched, code: int)
    requires Switches(Return(s, code), t, s.frame.(eax := code))
    ensures Switches(s, t, s.frame.(eax := code))
  {}

  // ----- Each step -----

  /** The registers with which the running thread is put aside in step `e`. */
  function StopFrame(s: State, e: Event): Frame {
    if e.Timer? then s.sched.frame else s.sched.frame.(eax := ENONE)
  }

  lemma PostTasks(s: State, u: Uid, m: Message)
    ensures Post(s, u, m).sched.tasks == s.sched.tasks && Post(s, u, m).sched.frame == s.sched.frame
    ensures Post(s, u, m).sched.loaded == s.sched.loaded
    ensures s.sched.ring <= Post(s, u, m).sched.ring
    ensures forall v :: v in Post(s, u, m).sched.ring ==> v in s.sched.ring || (v == u && RunOf(s, u) == Waiting)
  {}

  lemma BlockedTasks(s: State, u: Uid, why: RunState, w: Port, addr: nat, size: nat)
    ensures Blocked(s, u, why, w, addr, size).sched.tasks == Lock(s.sched).tasks
    ensures Blocked(s, u, why, w, addr, size).sched.frame == s.sched.frame
  {}

  lemma SendSwitches(s: State, r: Outgoing, mapped: bool, bufMapped: bool)
    requires StatesOk(s) && s.sched.ring != [] && SendStep(s, r, mapped, bufMapped).sched.ring != []
    ensures Switches(s.sched, SendStep(s, r, mapped, bufMapped).sched, s.sched.frame.(eax := ENONE))
  {
    hide Post, Resolve, PortOf, StatesOk, SendError, ThreadAt, Live, Queue, SamePeople, Blocked, Unlock, Switches,
      QueueOk, Lock;
    var error, t := SendError(s, r, mapped, bufMapped), SendStep(s, r, mapped, bufMapped);
    var b, target, m, a := AtPost(s, r), Resolve(s, r.to, Curr(s).pid), Sent(s, r), Ret(s, ENONE);
    if error != ENONE {
      StaysPut(s.sched, t.sched, s.sched.frame.(eax := ENONE));
    } else {
      SendIsPost(s, r, mapped, bufMapped);
      AtPostEffect(s, r);
      PostTasks(b, target, m);
      var p := Post(b, target, m);
      if r.buf == 0 {
        StaysPut(s.sched, t.sched, s.sched.frame.(eax := ENONE));
      } else {
        var u, w := Curr(s), ThreadAt(s, Curr(s)).waitFor;
        RetStates(s);
        BlockedTasks(a, u, Sending, w, r.buf, r.size);
        SamePeopleTable(s, b);
        PostEffect(b, target, m);
        WokenIsWaiting(b, target, m.from);
        Outside(p, u);
        RelockSwitches(a.sched, p.sched);
        SwitchesAfterReturn(s.sched, t.sched, ENONE);
      }
    }
  }

  /** A thread that is not Active is not in the queue. */
  lemma Outside(s: State, u: Uid)
    requires StatesOk(s) && RunOf(s, u) != Active
    ensures u !in s.sched.ring && QueueOk(s.sched)
  {}

  lemma WaitSwitches(s: State, w: Port)
    requires StatesOk(s) && s.sched.ring != [] && WaitStep(s, w).sched.ring != []
    ensures Switches(s.sched, WaitStep(s, w).sched, s.sched.frame.(eax := ENONE))
  {
    hide StatesOk, ThreadAt, Live, Queue, SamePeople, Suspend, Request, Unlock, Switches, QueueOk, Lock, Promote,
      FirstMatch, WaitError;
    var a, t, u, th := Ret(s, ENONE), WaitStep(s, w), Curr(s), ThreadAt(s, Curr(s));
    if WaitBlocks(s, w) {
      RetStates(s);
      var b := Blocked(a, u, Waiting, w, th.payAddr, th.paySize);
      BlockEffect(a, u, Waiting, w, th.payAddr, th.paySize);
      BlockedTasks(a, u, Waiting, w, th.payAddr, th.paySize);
      RunOfQueue(b, u);
      RelockSwitches(a.sched, b.sched);
      SwitchesAfterReturn(s.sched, t.sched, ENONE);
    } else {
      StaysPut(s.sched, t.sched, s.sched.frame.(eax := ENONE));
    }
  }

  lemma RunOfQueue(s: State, u: Uid)
    requires QueueOk(s.sched) && RunOf(s, u) != Active
    ensures u !in s.sched.ring
  {}

  lemma KillSwitches(s: State, pid: nat)
    requires Core(s) && s.sched.ring != [] && KillStep(s, pid).sched.ring != []
    ensures Switches(s.sched, KillStep(s, pid).sched, s.sched.frame.(eax := ENONE))
  {
    hide Core, Fresh, Leave, RemoveAll, QueueOk, Lock, Unlock, Switches, Keep, StatesOk;
    CoreStates(s);
    var target, locked, stop := KillTarget(s, pid), s.(sched := Lock(s.sched)), s.sched.frame.(eax := ENONE);
    if KillError(s, pid) != ENONE {
      StaysPut(s.sched, KillStep(s, pid).sched, stop);
    } else if target == Curr(s).pid {
      var a := EndProcess(locked, target);
      LockKeeps(s);
      EndProcessKeeps(locked, target);
      CoreStates(a);
      EndTasks(locked.sched, ThreadsIn(locked, target));
      LockFrame(s.sched);
      CurrLive(s);
      LiveRuns(s, Curr(s));
      EndRing(locked, target, Curr(s));
      UnlockTasks(a.sched);
      RelockSwitches(s.sched, a.sched);
      GoneSwitches(s.sched, Unlock(a.sched), s.sched.frame, stop);
    } else {
      EndTasks(s.sched, ThreadsIn(s, target));
      HeadStaysPut(s, target);
      StaysPut(s.sched, KillStep(s, pid).sched, stop);
    }
  }

  lemma EndTasks(s: Sched, gone: set<Uid>)
    ensures
      var t := Leave(RemoveAll(s, gone), gone);
      t.tasks == s.tasks - gone && t.frame == s.frame && t.loaded == s.loaded
  {}

  lemma LockFrame(s: Sched)
    ensures Lock(s).frame == s.frame && Lock(s).ring == s.ring && Lock(s).run == s.run
  {}

  lemma UnlockTasks(s: Sched)
    ensures Unlock(s).tasks == s.tasks
  {}

  lemma EndRing(s: State, pid: nat, u: Uid)
    requires Core(s) && u.pid == pid && u in s.sched.run
    ensures u !in EndProcess(s, pid).sched.ring && u !in EndProcess(s, pid).sched.tasks
  {
    CoreStates(s);
    hide Core, Fresh;
    LeaveKeepsQueue(s.sched, ThreadsIn(s, pid));
    KeepMembers(s.sched.ring, ThreadsIn(s, pid));
  }

  lemma HeadStaysPut(s: State, pid: nat)
    requires QueueOk(s.sched) && s.sched.ring != [] && Curr(s).pid != pid
    ensures
      var t := EndProcess(s, pid).sched;
      t.ring != [] && t.ring[0] == s.sched.ring[0]
  {
    LeaveKeepsQueue(s.sched, ThreadsIn(s, pid));
  }

  /** If the thread that was running is gone, it does not matter what was saved for it. */
  lemma GoneSwitches(s: Sched, t: Sched, f: Frame, g: Frame)
    requires Switches(s, t, f) && s.ring[0] !in t.tasks
    ensures Switches(s, t, g)
  {}

  lemma FaultSwitches(s: State)
    requires Core(s) && s.sched.ring != [] && FaultStep(s).sched.ring != []
    ensures Switches(s.sched, FaultStep(s).sched, s.sched.frame.(eax := ENONE))
  {
    hide Core, Fresh, Leave, RemoveAll, QueueOk, Lock, Unlock, Switches, Keep, StatesOk;
    CoreStates(s);
    CurrLive(s);
    var u, locked, stop := Curr(s), s.(sched := Lock(s.sched)), s.sched.frame.(eax := ENONE);
    LockKeeps(s);
    LockFrame(s.sched);
    SameProcs(s, locked);
    if u.tid == 0 {
      var a := EndProcess(locked, u.pid);
      EndProcessKeeps(locked, u.pid);
      CoreStates(a);
      EndTasks(locked.sched, ThreadsIn(locked, u.pid));
      LiveRuns(s, u);
      EndRing(locked, u.pid, u);
      RelockSwitches(s.sched, a.sched);
      UnlockTasks(a.sched);
      GoneSwitches(s.sched, Unlock(a.sched), s.sched.frame, stop);
    } else {
      var a := EndThread(locked, u);
      EndThreadKeeps(locked, u);
      CoreStates(a);
      EndTasks(locked.sched, {u});
      EndThreadRing(locked, u);
      UnlockTasks(a.sched);
      RelockSwitches(s.sched, a.sched);
      GoneSwitches(s.sched, Unlock(a.sched), s.sched.frame, stop);
    }
  }

  lemma LiveRuns(s: State, u: Uid)
    requires StatesOk(s) && Live(s, u)
    ensures u in s.sched.run
  {}

  lemma EndThreadRing(s: State, u: Uid)
    requires Core(s)
    ensures u !in EndThread(s, u).sched.ring && u !in EndThread(s, u).sched.tasks
  {
    CoreStates(s);
    hide Core, Fresh;
    LeaveKeepsQueue(s.sched, {u});
    KeepMembers(s.sched.ring, {u});
  }

  /** Every step either leaves the running thread running, or puts its registers aside and
      continues the next thread with the registers that were put aside for it. */
  lemma StepSwitches(s: State, e: Event)
    requires Core(s) && Enabled(s, e)
    ensures Step(s, e).sched.ring != [] && Switches(s.sched, Step(s, e).sched, StopFrame(s, e))
  {
    hide Core, Fresh, SendStep, WaitStep, KernelSendStep, StartThread, KillStep, FaultStep, StatesOk,
      Next, Switches, QueueOk;
    CoreStates(s);
    var t, stop := Step(s, e), StopFrame(s, e);
    match e {
      case Run(_) => StaysPut(s.sched, t.sched, stop);
      case Timer =>
        NextSwitches(s.sched);
        NextRing(s.sched);
        if s.sched.slice > 1 {
          StaysPut(s.sched, t.sched, stop);
        }
      case Yield =>
        RetQueue(s.sched);
        NextSwitches(Return(s.sched, ENONE));
        NextRing(Return(s.sched, ENONE));
        SwitchesAfterReturn(s.sched, t.sched, ENONE);
      case Send(out, mapped, bufMapped) => SendSwitches(s, out, mapped, bufMapped);
      case Recv(_, _, _) => ReceiveStays(s, e); StaysPut(s.sched, t.sched, stop);
      case Drop(_) => ReceiveStays(s, e); StaysPut(s.sched, t.sched, stop);
      case Wait(w) => WaitRing(s, w); WaitSwitches(s, w);
      case KernelSend(port, code, args) => KernelSendStays(s, port, code, args); StaysPut(s.sched, t.sched, stop);
      case Spawn(pid) => StaysPut(s.sched, t.sched, stop);
      case Launch(pid, entry) =>
        if LaunchError(s, pid) == ENONE {
          StartStays(s, Uid(pid, 0), 0, 0, entry);
        }
        StaysPut(s.sched, t.sched, stop);
      case Dispatch(tid, entry, stack) =>
        StartStays(s, Uid(Curr(s).pid, tid), entry, stack, s.procs[Curr(s).pid].entry);
        StaysPut(s.sched, t.sched, stop);
      case Kill(pid) => KillSwitches(s, pid);
      case Fault => FaultSwitches(s);
    }
  }

  lemma RetQueue(s: Sched)
    requires QueueOk(s)
    ensures QueueOk(Return(s, ENONE))
  {}

  lemma NextRing(s: Sched)
    requires s.ring != []
    ensures Next(s).ring != []
  {}

  lemma WaitRing(s: State, w: Port)
    requires StatesOk(s) && s.sched.ring != [] && (WaitBlocks(s, w) ==> |s.sched.ring| > 1)
    ensures WaitStep(s, w).sched.ring != []
  {
    hide StatesOk, ThreadAt, Live, Queue, Suspend, Request, Promote, FirstMatch, WaitError, QueueOk, SamePeople;
    var a, u, th := Ret(s, ENONE), Curr(s), ThreadAt(s, Curr(s));
    if WaitBlocks(s, w) {
      RetStates(s);
      BlockEffect(a, u, Waiting, w, th.payAddr, th.paySize);
    }
  }

  lemma RetStays(s: State, code: int)
    ensures
      var t := Ret(s, code).sched;
      t.ring == s.sched.ring && t.tasks == s.sched.tasks && t.loaded == s.sched.loaded
  {}

  lemma WakeStays(s: State, u: Uid)
    ensures
      var t := Wake(s, u).sched;
      s.sched.ring <= t.ring && t.tasks == s.sched.tasks && t.loaded == s.sched.loaded
  {}

  lemma DropMailStays(s: State, u: Uid)
    ensures DropMail(s, u).sched == s.sched
  {}

  lemma ReceiveStays(s: State, e: Event)
    requires Enabled(s, e) && (e.Recv? || e.Drop?)
    ensures
      var t := Step(s, e).sched;
      s.sched.ring <= t.ring && t.tasks == s.sched.tasks && t.loaded == s.sched.loaded
  {
    hide Ret, Wake, DropMail, Queue, ThreadAt, HeadSender, RecvError, Live, Addable;
    var u := Curr(s);
    var x := HeadSender(s, if e.Recv? then 0 else u.pid);
    DropMailStays(s, u);
    WakeStays(s, x);
    DropMailStays(Wake(s, x), u);
    WakeStays(DropMail(s, u), x);
    forall t, code: int ensures
      var r := Ret(t, code).sched;
      r.ring == t.sched.ring && r.tasks == t.sched.tasks && r.loaded == t.sched.loaded
    {
      RetStays(t, code);
    }
  }

  lemma KernelSendStays(s: State, port: Port, code: nat, args: seq<nat>)
    ensures
      var t := KernelSendStep(s, port, code, args).sched;
      s.sched.ring <= t.ring && t.tasks == s.sched.tasks && t.loaded == s.sched.loaded
  {
    hide Resolve;
    PostTasks(s, Resolve(s, port, 0), Message(IPORT_KERNEL, code, args, false));
  }

  lemma StartStays(s: State, u: Uid, entry: nat, stack: nat, fallback: nat)
    requires StatesOk(s) && CanOpen(s, u) && !Live(s, u)
    ensures
      var t := StartThread(s, u, entry, stack, fallback).sched;
      && s.sched.ring <= t.ring && t.loaded == s.sched.loaded
      && (forall v :: v in s.sched.tasks ==> v in t.tasks && t.tasks[v] == s.sched.tasks[v])
  {}

  // ----- Whole runs -----

  /** After the first step, `u` is alive and not running until the last step makes it run again. */
  ghost predicate Sleeps(s: State, events: seq<Event>, u: Uid)
    requires Runs(s, events)
    decreases |events|
  {
    && u in s.sched.tasks
    && if events == [] then Curr(s) == u else Curr(s) != u && Sleeps(Step(s, events[0]), events[1..], u)
  }

  /** What a thread finds when its turn comes: its saved registers, unless they look like those of a
      thread that has never run. */
  ghost predicate Resumed(task: Task, frame: Frame) {
    if task.frame.eip != 0 then frame == task.frame else frame.eip == task.entry && frame.esp == task.stack
  }

  /** While others run, a thread's saved registers stay, until it gets them back. */
  lemma SleeperStep(s: State, e: Event, u: Uid)
    requires Core(s) && Enabled(s, e) && Curr(s) != u && u in s.sched.tasks && u in Step(s, e).sched.tasks
    ensures
      var t := Step(s, e);
      && (t.sched.ring != [] && Curr(t) == u ==> Resumed(s.sched.tasks[u], t.sched.frame))
      && t.sched.tasks[u] == s.sched.tasks[u]
  {
    hide Core, Fresh, Enabled, Step;
    StepSwitches(s, e);
  }

  lemma {:induction false} SleeperKeepsRegisters(s: State, events: seq<Event>, u: Uid)
    requires Core(s) && Runs(s, events) && Sleeps(s, events, u) && Curr(s) != u && u != NOBODY
    ensures Resumed(s.sched.tasks[u], After(s, events).sched.frame)
    decreases |events|
  {
    hide Core, Fresh, Enabled, Step, Resumed;
    if events != [] {
      StepKeeps(s, events[0]);
      SleeperStep(s, events[0], u);
      if |events| > 1 {
        SleeperKeepsRegisters(Step(s, events[0]), events[1..], u);
      }
    }
  }

  /** A thread that stops running, by preemption or by blocking, continues later with exactly
      the registers it stopped with, whatever ran in between, if and only if it was not stopped at
      address zero.  From there it starts again at its entry point. */
  lemma ResumesWhereItStopped(s: State, events: seq<Event>, u: Uid)
    requires Core(s) && Runs(s, events) && |events| >= 2 && Curr(s) == u
    requires Curr(Step(s, events[0])) != u && Sleeps(Step(s, events[0]), events[1..], u)
    ensures u in s.sched.tasks
    ensures s.sched.frame.eip != 0 ==> After(s, events).sched.frame == StopFrame(s, events[0])
    ensures s.sched.frame.eip == 0 ==>
      var frame := After(s, events).sched.frame;
      frame.eip == s.sched.tasks[u].entry && frame.esp == s.sched.tasks[u].stack
    ensures s.sched.tasks[u].entry != 0 ==>
      (After(s, events).sched.frame == StopFrame(s, events[0]) <==> s.sched.frame.eip != 0)
  {
    StepKeeps(s, events[0]);
    StepSwitches(s, events[0]);
    RunsHere(s, events);
    hide Core, Fresh, Enabled, Step;
    SleeperKeepsRegisters(Step(s, events[0]), events[1..], u);
  }

  lemma RunsHere(s: State, events: seq<Event>)
    requires Core(s) && Runs(s, events) && events != []
    ensures Enabled(s, events[0]) && Curr(s) in s.sched.tasks
  {}

  /** The loaded address space is that of the running thread's process. */
  ghost predicate LoadedOk(s: State) {
    s.sched.ring != [] && s.sched.loaded == Curr(s).pid
  }

  /** After every step of every run the running thread's address space is loaded, although
      switching between threads of one process does not load it again. */
  lemma {:induction false} LoadedForRuns(s: State, events: seq<Event>)
    requires Core(s) && Runs(s, events) && LoadedOk(s)
    ensures LoadedOk(After(s, events))
    decreases |events|
  {
    if events != [] {
      StepKeeps(s, events[0]);
      StepSwitches(s, events[0]);
      hide Core, Fresh, Enabled, Step;
      LoadedForRuns(Step(s, events[0]), events[1..]);
    }
  }
}
