/** How processes and threads begin, take turns and end, as a caller sees it (kernel/core/system/process,
    kernel/core/multitask). */
module KernelLives {
  import opened Ports
  import opened RunQueue
  import opened Mail
  import opened KernelState
  import opened KernelInvariant
  import opened KernelSteps
  import opened KernelContext
  import opened KernelAnswers

  lemma Caller(s: State)
    requires Core(s) && s.sched.ring != []
    ensures QueueOk(s.sched) && Live(s, Curr(s)) && Curr(s).pid in s.procs && Curr(s).pid >= 2 && Curr(s) in s.sched.run
  {
    CoreStates(s);
    CoreTable(s);
    CurrLive(s);
    CurrNumber(s);
  }

  // ----- Beginning -----

  /** A new process is the caller's child, has its privilege, and has no threads and no mail. */
  lemma SpawnExactly(s: State, pid: nat)
    requires Core(s) && Enabled(s, Spawn(pid))
    ensures
      var t, owner, version := Step(s, Spawn(pid)), Curr(s).pid, (s.pvers[pid] + 1) % 256;
      && owner in s.procs && pid !in s.procs
      && t.procs == s.procs[pid := Proc(version, owner, s.procs[owner].priv, 0, seq(64, _ => 0), map[], 0)]
      && t.pvers == s.pvers[pid := version] && t.sched == s.sched.(frame := s.sched.frame.(eax := pid))
  {
    hide Core, KillStep, SendStep, RecvStep, FaultStep, WaitBlocks, RecvError, HeadSender, Resolve,
      LaunchError;
    Caller(s);
  }

  /** Thread `v` is there with the next version of its slot and no mail, has joined the queue, and will
      start at `eip` with its stack at `esp`; its process starts threads at `entry`. */
  ghost predicate Begun(s: State, t: State, v: Uid, eip: nat, esp: nat, entry: nat, code: int) {
    && v.pid in s.procs && v.tid < |s.procs[v.pid].tvers| && !Live(s, v)
    && var p, version := s.procs[v.pid], (s.procs[v.pid].tvers[v.tid] + 1) % 256;
       && t.pvers == s.pvers
       && t.procs == s.procs[v.pid := p.(
            entry := entry, tvers := p.tvers[v.tid := version],
            threads := p.threads[v.tid := Thread(version, Port(0, 0, 0, 0), 0, 0, [])])]
       && t.sched == s.sched.(
            ring := s.sched.ring + [v], run := s.sched.run[v := Active],
            tasks := s.sched.tasks[v := Task(eip, esp, Frame(0, 0, 0, []))],
            frame := s.sched.frame.(eax := code))
  }

  lemma StartBegins(s: State, v: Uid, entry: nat, stack: nat, fallback: nat, code: int)
    requires CanOpen(s, v) && !Live(s, v) && s.sched.ring != []
    ensures
      Begun(s, Ret(StartThread(s, v, entry, stack, fallback), code), v, if entry != 0 then entry else fallback, stack,
            fallback, code)
  {
    assert ZERO_FRAME == Frame(0, 0, 0, []);
  }

  /** A process is launched if and only if it exists, has no threads, and the caller is its parent or
      has a privilege. */
  lemma LaunchExactly(s: State, pid: nat, entry: nat)
    requires Core(s) && Enabled(s, Launch(pid, entry))
    ensures
      var t, owner := Step(s, Launch(pid, entry)), Curr(s).pid;
      && owner in s.procs
      && if pid !in s.procs then Answered(s, t, -6)
         else if s.procs[pid].threads != map[] then Answered(s, t, -7)
         else if s.procs[pid].parent == owner || s.procs[owner].priv > 0 then
           Begun(s, t, Uid(pid, 0), entry, 0, entry, 0)
         else Answered(s, t, -2)
  {
    hide Core, Begun, StartThread, KillStep, SendStep, RecvStep, FaultStep, WaitBlocks, RecvError, HeadSender, Resolve;
    Caller(s);
    if pid in s.procs && s.procs[pid].threads == map[] && LaunchError(s, pid) == ENONE {
      StartBegins(s, Uid(pid, 0), 0, 0, entry, 0);
    }
  }

  /** A thread is dispatched in the caller's own process, and its number returned. */
  lemma DispatchExactly(s: State, tid: nat, entry: nat, stack: nat)
    requires Core(s) && Enabled(s, Dispatch(tid, entry, stack))
    ensures
      var pid := Curr(s).pid;
      && pid in s.procs
      && Begun(s, Step(s, Dispatch(tid, entry, stack)), Uid(pid, tid),
               if entry != 0 then entry else s.procs[pid].entry, stack, s.procs[pid].entry, tid)
  {
    hide Core, Begun, StartThread, KillStep, SendStep, RecvStep, FaultStep, WaitBlocks, RecvError, HeadSender, Resolve,
      LaunchError;
    Caller(s);
    StartBegins(s, Uid(Curr(s).pid, tid), entry, stack, s.procs[Curr(s).pid].entry, tid);
  }

  /** A thread that has begun finds itself at its entry point when its first turn comes, after
      whatever run of the others. */
  lemma FirstTurn(s: State, events: seq<Event>, v: Uid, eip: nat, esp: nat, entry: nat, code: int)
    requires Core(s) && Runs(s, events) && |events| >= 2 && Begun(s, Step(s, events[0]), v, eip, esp, entry, code)
    requires Sleeps(Step(s, events[0]), events[1..], v)
    ensures After(s, events).sched.frame.eip == eip && After(s, events).sched.frame.esp == esp
  {
    hide Core, Enabled, Step, Fresh;
    StepKeeps(s, events[0]);
    CoreTable(s);
    assert ProcOk(s.pvers, v.pid, s.procs[v.pid]);
    SleeperKeepsRegisters(Step(s, events[0]), events[1..], v);
  }

  /** A dispatched thread starts at its own entry point, or else at that of its process, and on the
      stack it was given. */
  lemma DispatchedStarts(s: State, events: seq<Event>)
    requires Core(s) && Runs(s, events) && |events| >= 2 && events[0].Dispatch?
    requires Sleeps(Step(s, events[0]), events[1..], Uid(Curr(s).pid, events[0].tid))
    ensures
      var e, frame := events[0], After(s, events).sched.frame;
      && Curr(s).pid in s.procs
      && frame.eip == (if e.entry != 0 then e.entry else s.procs[Curr(s).pid].entry)
      && frame.esp == e.stack
  {
    hide Core, Enabled, Step, Begun, Sleeps;
    var e := events[0];
    DispatchExactly(s, e.tid, e.entry, e.stack);
    FirstTurn(s, events, Uid(Curr(s).pid, e.tid), if e.entry != 0 then e.entry else s.procs[Curr(s).pid].entry,
              e.stack, s.procs[Curr(s).pid].entry, e.tid);
  }

  /** The main thread of a launched process starts at the entry point of the launch. */
  lemma LaunchedStarts(s: State, events: seq<Event>)
    requires Core(s) && Runs(s, events) && |events| >= 2 && events[0].Launch?
    requires Sleeps(Step(s, events[0]), events[1..], Uid(events[0].pid, 0)) && !Live(s, Uid(events[0].pid, 0))
    ensures
      var frame := After(s, events).sched.frame;
      frame.eip == events[0].entry && frame.esp == 0
  {
    hide Core, Enabled, Step, Begun, Sleeps;
    var e := events[0];
    LaunchExactly(s, e.pid, e.entry);
    NotStarted(s, events, e);
    FirstTurn(s, events, Uid(e.pid, 0), e.entry, 0, e.entry, 0);
  }

  /** Without a launch there is no thread to wait for. */
  lemma NotStarted(s: State, events: seq<Event>, e: Event)
    requires Core(s) && Runs(s, events) && |events| >= 2 && e == events[0] && e.Launch?
    requires Sleeps(Step(s, e), events[1..], Uid(e.pid, 0)) && !Live(s, Uid(e.pid, 0))
    ensures forall code :: !Answered(s, Step(s, e), code)
  {
    CoreStates(s);
    hide Core, Enabled, Step;
  }

  // ----- Ending -----

  /** The threads of `gone` have left the scheduler and the others are as they were, in the order they had;
      if the one that was running is gone, the next one has been resumed for a whole turn. */
  ghost predicate Departed(s: Sched, t: Sched, gone: set<Uid>) {
    && s.ring != [] && t.ring != [] && t.ring[0] in t.tasks
    && t.ring == Keep(s.ring, gone) && t.run == s.run - gone && t.tasks == s.tasks - gone
    && if s.ring[0] in gone then t.slice == 5 && t.loaded == t.ring[0].pid && Resumed(t.tasks[t.ring[0]], t.frame)
       else t.slice == s.slice && t.loaded == s.loaded && t.frame == s.frame.(eax := 0)
  }

  /** A process is killed if and only if it exists and its privilege is not above the caller's. */
  lemma KillExactly(s: State, pid: nat)
    requires Core(s) && Enabled(s, Kill(pid))
    ensures
      var t, owner, target := Step(s, Kill(pid)), Curr(s).pid, if pid == 0 then Curr(s).pid else pid;
      && owner in s.procs
      && (target !in t.procs <==> target !in s.procs || s.procs[owner].priv >= s.procs[target].priv)
      && if target !in s.procs then Answered(s, t, -6)
         else if s.procs[owner].priv < s.procs[target].priv then Answered(s, t, -2)
         else
           && t.procs == s.procs - {target} && t.pvers == s.pvers
           && Departed(s.sched, t.sched, set u | u in s.sched.run && u.pid == target)
  {
    hide Core, Departed, KillStep, SendStep, RecvStep, FaultStep, WaitBlocks, RecvError, HeadSender, Resolve,
      LaunchError;
    Caller(s);
    KillEnds(s, pid);
  }

  lemma KillEnds(s: State, pid: nat)
    requires QueueOk(s.sched) && s.sched.ring != [] && Curr(s) in s.sched.run && Curr(s).pid in s.procs
    requires KillStep(s, pid).sched.ring != []
    ensures
      var t, owner, target := KillStep(s, pid), Curr(s).pid, if pid == 0 then Curr(s).pid else pid;
      if target !in s.procs then Answered(s, t, -6)
      else if s.procs[owner].priv < s.procs[target].priv then Answered(s, t, -2)
      else
        && t.procs == s.procs - {target} && t.pvers == s.pvers
        && Departed(s.sched, t.sched, set u | u in s.sched.run && u.pid == target)
  {
    hide Departed, EndProcess, Lock, Unlock, QueueOk;
    var target := if pid == 0 then Curr(s).pid else pid;
    if target in s.procs && s.procs[Curr(s).pid].priv >= s.procs[target].priv {
      if target == Curr(s).pid {
        EndsOwn(s);
      } else {
        EndsOther(s, target);
      }
    }
  }

  lemma EndsOwn(s: State)
    requires QueueOk(s.sched) && s.sched.ring != [] && Curr(s) in s.sched.run
    ensures
      var a := EndProcess(s.(sched := Lock(s.sched)), Curr(s).pid);
      && a.procs == s.procs - {Curr(s).pid} && a.pvers == s.pvers
      && (Continue(a).sched.ring != [] ==>
            Departed(s.sched, Continue(a).sched, set u | u in s.sched.run && u.pid == Curr(s).pid))
  {
    hide Departed, Leave, RemoveAll, Unlock, QueueOk;
    var gone := set u | u in s.sched.run && u.pid == Curr(s).pid;
    LockKeepsQueue(s.sched);
    assert ThreadsIn(s.(sched := Lock(s.sched)), Curr(s).pid) == gone;
    hide Lock;
    UnlockRing(Leave(RemoveAll(Lock(s.sched), gone), gone));
    LeavesLocked(s.sched, gone);
  }

  lemma EndsOther(s: State, pid: nat)
    requires QueueOk(s.sched) && s.sched.ring != [] && Curr(s).pid != pid
    ensures
      var t := Ret(EndProcess(s, pid), 0);
      && t.procs == s.procs - {pid} && t.pvers == s.pvers
      && Departed(s.sched, t.sched, set u | u in s.sched.run && u.pid == pid)
  {
    hide Departed, Leave, RemoveAll, QueueOk;
    var gone := set u | u in s.sched.run && u.pid == pid;
    assert ThreadsIn(s, pid) == gone;
    LeavesRunning(s.sched, gone);
  }

  lemma LeavesRunning(s: Sched, gone: set<Uid>)
    requires QueueOk(s) && s.ring != [] && s.ring[0] !in gone
    ensures Departed(s, Return(Leave(RemoveAll(s, gone), gone), 0), gone)
  {
    LeaveKeepsQueue(s, gone);
    InTasks(s);
    LeaveParts(s, gone);
    hide Leave, RemoveAll, QueueOk;
    var t := Leave(RemoveAll(s, gone), gone);
    assert t.run == s.run - gone;
  }

  lemma LeaveParts(s: Sched, gone: set<Uid>)
    ensures
      var t := Leave(RemoveAll(s, gone), gone);
      && t.tasks == s.tasks - gone && t.loaded == s.loaded && t.frame == s.frame
      && t.slice == (if s.ring != [] && s.ring[0] in gone then 5 else s.slice)
  {}

  lemma LeavesLocked(s: Sched, gone: set<Uid>)
    requires QueueOk(s) && s.ring != [] && s.ring[0] in gone
    ensures
      var t := Leave(RemoveAll(Lock(s), gone), gone);
      t.ring != [] ==> Departed(s, Unlock(t), gone)
  {
    LockKeepsQueue(s);
    LockedTasks(s, gone);
    var l := Lock(s);
    hide Lock;
    LeaveKeepsQueue(l, gone);
    LeaveParts(l, gone);
    var t := Leave(RemoveAll(l, gone), gone);
    InTasks(t);
    hide Leave, RemoveAll, QueueOk;
    assert t.run == s.run - gone;
  }

  /** What is saved for a thread that leaves makes no difference. */
  lemma LockedTasks(s: Sched, gone: set<Uid>)
    requires s.ring != [] && s.ring[0] in gone
    ensures Lock(s).tasks - gone == s.tasks - gone
  {}

  /** A fault of the main thread ends its process, one of another thread only that thread, whose message
      slots stay occupied. */
  lemma FaultExactly(s: State)
    requires Core(s) && Enabled(s, Fault)
    ensures
      var t, u := Step(s, Fault), Curr(s);
      && u.pid in s.procs && t.pvers == s.pvers
      && if u.tid == 0 then
           && t.procs == s.procs - {u.pid}
           && Departed(s.sched, t.sched, set v | v in s.sched.run && v.pid == u.pid)
         else
           && t.procs == s.procs[u.pid := s.procs[u.pid].(threads := s.procs[u.pid].threads - {u.tid})]
           && Departed(s.sched, t.sched, {u})
  {
    hide Core, Departed, FaultStep, SendStep, RecvStep, KillStep, WaitBlocks, RecvError, HeadSender, Resolve,
      LaunchError;
    Caller(s);
    FaultEnds(s);
  }

  lemma FaultEnds(s: State)
    requires QueueOk(s.sched) && s.sched.ring != [] && Curr(s) in s.sched.run && Curr(s).pid in s.procs
    requires FaultStep(s).sched.ring != []
    ensures
      var t, u := FaultStep(s), Curr(s);
      && t.pvers == s.pvers
      && if u.tid == 0 then
           && t.procs == s.procs - {u.pid}
           && Departed(s.sched, t.sched, set v | v in s.sched.run && v.pid == u.pid)
         else
           && t.procs == s.procs[u.pid := s.procs[u.pid].(threads := s.procs[u.pid].threads - {u.tid})]
           && Departed(s.sched, t.sched, {u})
  {
    hide Departed, EndProcess, Lock, Unlock, RemoveAll, Leave, QueueOk;
    if Curr(s).tid == 0 {
      EndsOwn(s);
    } else {
      LeavesLocked(s.sched, {Curr(s)});
      UnlockRing(Leave(RemoveAll(Lock(s.sched), {Curr(s)}), {Curr(s)}));
    }
  }

  // ----- Taking turns -----

  /** The processor has gone to the next thread for a whole turn, and `stop` is kept for the one that ran. */
  ghost predicate Rotated(s: Sched, t: Sched, stop: Frame) {
    && |s.ring| > 1 && s.ring[0] in s.tasks && s.ring[1] in s.tasks && s.ring[0] != s.ring[1]
    && t.ring == s.ring[1..] + [s.ring[0]] && t.slice == 5 && t.run == s.run
    && t.tasks == s.tasks[s.ring[0] := s.tasks[s.ring[0]].(frame := stop)]
    && t.loaded == (if s.ring[0].pid != s.ring[1].pid then s.ring[1].pid else s.loaded)
    && Resumed(s.tasks[s.ring[1]], t.frame)
  }

  lemma NextRotates(s: Sched)
    requires QueueOk(s) && |s.ring| > 1
    ensures Rotated(s, Next(s), s.frame)
  {
    InTasks(s);
    OnlyOnce(s.ring, 0);
    assert s.ring[1] in s.ring[1..];
  }

  /** A tick takes one from the turn, and the last one passes it on; a yield passes it on at once. */
  lemma TurnExactly(s: State)
    requires Core(s) && s.sched.ring != []
    ensures Enabled(s, Timer) && Enabled(s, Yield)
    ensures
      var t := Step(s, Timer);
      && t.procs == s.procs && t.pvers == s.pvers
      && if s.sched.slice > 1 then t.sched == s.sched.(slice := s.sched.slice - 1)
         else if |s.sched.ring| == 1 then t.sched == s.sched.(slice := 5)
         else Rotated(s.sched, t.sched, s.sched.frame)
    ensures
      var t, a := Step(s, Yield), s.sched.(frame := s.sched.frame.(eax := 0));
      && t.procs == s.procs && t.pvers == s.pvers
      && if |s.sched.ring| == 1 then t.sched == a.(slice := 5) else Rotated(a, t.sched, a.frame)
  {
    hide Core, Rotated, KillStep, SendStep, RecvStep, FaultStep, WaitBlocks, RecvError, HeadSender, Resolve,
      LaunchError, QueueOk;
    Caller(s);
    RetQueue(s.sched);
    if |s.sched.ring| > 1 {
      NextRotates(s.sched);
      NextRotates(Return(s.sched, 0));
    }
  }

  function Ticks(k: nat): seq<Event> {
    if k == 0 then [] else [Timer] + Ticks(k - 1)
  }

  /** A thread that is left alone runs until the last tick of its turn, neither less nor more. */
  lemma {:induction false} TurnLasts(s: State, k: nat)
    requires Core(s) && s.sched.ring != [] && k <= s.sched.slice
    ensures
      && Runs(s, Ticks(k))
      && var t := After(s, Ticks(k));
         && Curr(t) == (if k < s.sched.slice || |s.sched.ring| == 1 then Curr(s) else s.sched.ring[1])
         && t.sched.slice == (if k < s.sched.slice then s.sched.slice - k else 5)
    decreases k
  {
    hide Core, Step, Enabled, QueueOk;
    Caller(s);
    SliceFits(s.sched);
    if k > 0 {
      TurnExactly(s);
      StepKeeps(s, Timer);
      var t := Step(s, Timer);
      assert Ticks(k)[0] == Timer && Ticks(k)[1..] == Ticks(k - 1);
      if s.sched.slice > 1 {
        TurnLasts(t, k - 1);
      } else {
        assert Ticks(0) == [];
      }
    }
  }

  lemma SliceFits(s: Sched)
    requires QueueOk(s)
    ensures 1 <= s.slice <= 5
  {}

  // ----- What stays -----

  /** Process `pid` is there before and after, with the same version, parent and privilege, and the same
      entry point if its main thread is there. */
  ghost predicate SameIdentity(s: State, t: State, pid: nat) {
    && pid in s.procs && pid in t.procs
    && t.procs[pid].version == s.procs[pid].version && t.procs[pid].parent == s.procs[pid].parent
    && t.procs[pid].priv == s.procs[pid].priv
    && (Live(s, Uid(pid, 0)) ==> t.procs[pid].entry == s.procs[pid].entry)
  }

  lemma RecordsIdentity(s: State, t: State, p: nat, delta: int, pid: nat)
    requires SameRecords(s, t, p, delta) && pid in s.procs
    ensures SameIdentity(s, t, pid)
  {}

  lemma AnsweredIdentity(s: State, t: State, code: int, pid: nat)
    requires Answered(s, t, code) && pid in s.procs
    ensures SameIdentity(s, t, pid)
  {}

  lemma MailIdentity(s: State, e: Event, pid: nat)
    requires Core(s) && Enabled(s, e) && pid in s.procs && (e.Send? || e.Recv? || e.Drop? || e.Wait? || e.KernelSend?)
    ensures SameIdentity(s, Step(s, e), pid)
  {
    hide Core, Step, Enabled, SameRecords, Answered, SameIdentity, PutAside, Joined, ThreadAt, Leads,
      SenderFreed, Deliverable, SendCode, RecvCode, Takes, Awaitable, FirstOf;
    var t, u := Step(s, e), Curr(s);
    forall p, delta | SameRecords(s, t, p, delta) ensures SameIdentity(s, t, pid) {
      RecordsIdentity(s, t, p, delta, pid);
    }
    forall code | Answered(s, t, code) ensures SameIdentity(s, t, pid) {
      AnsweredIdentity(s, t, code, pid);
    }
    match e {
      case Send(out, mapped, bufMapped) => SendExactly(s, out, mapped, bufMapped);
      case Recv(mapped, bufSize, bufMapped) => RecvExactly(s, mapped, bufSize, bufMapped);
      case Drop(mapped) => DropExactly(s, mapped);
      case Wait(w) => WaitExactly(s, w);
      case KernelSend(port, code, args) => KernelSendExactly(s, port, code, args);
    }
  }

  /** No step changes who a process is, or where its threads start once it has been launched. */
  lemma StepKeepsIdentity(s: State, e: Event, pid: nat)
    requires Core(s) && Enabled(s, e) && pid in s.procs && pid in Step(s, e).procs
    ensures SameIdentity(s, Step(s, e), pid)
  {
    hide Core, Step, Enabled, Departed, Rotated;
    OnStep(s, e);
    match e {
      case Run(_) => RunOnly(s, e);
      case Timer => TurnExactly(s);
      case Yield => TurnExactly(s);
      case Spawn(p) => SpawnExactly(s, p);
      case Launch(p, entry) => LaunchExactly(s, p, entry);
      case Dispatch(tid, entry, stack) => DispatchExactly(s, tid, entry, stack);
      case Kill(p) => KillExactly(s, p);
      case Fault => FaultExactly(s);
      case Send(_, _, _) => MailIdentity(s, e, pid);
      case Recv(_, _, _) => MailIdentity(s, e, pid);
      case Drop(_) => MailIdentity(s, e, pid);
      case Wait(_) => MailIdentity(s, e, pid);
      case KernelSend(_, _, _) => MailIdentity(s, e, pid);
    }
  }

  lemma OnStep(s: State, e: Event)
    requires Enabled(s, e)
    ensures s.sched.ring != []
  {}

  lemma RunOnly(s: State, e: Event)
    requires Enabled(s, e) && e.Run?
    ensures Step(s, e) == s.(sched := s.sched.(frame := e.frame))
  {}

  /** The main thread of `pid` is alive in every state of the run. */
  ghost predicate Endures(s: State, events: seq<Event>, pid: nat)
    requires Runs(s, events)
    decreases |events|
  {
    Live(s, Uid(pid, 0)) && (events == [] || Endures(Step(s, events[0]), events[1..], pid))
  }

  lemma {:induction false} RunKeepsIdentity(s: State, events: seq<Event>, pid: nat)
    requires Core(s) && Runs(s, events) && Endures(s, events, pid)
    ensures SameIdentity(s, After(s, events), pid) && Live(After(s, events), Uid(pid, 0))
    decreases |events|
  {
    hide Core, Step, Enabled;
    if events != [] {
      StepKeeps(s, events[0]);
      RunKeepsIdentity(Step(s, events[0]), events[1..], pid);
      EnduresFirst(s, events, pid);
      StepKeepsIdentity(s, events[0], pid);
    }
  }

  lemma EnduresFirst(s: State, events: seq<Event>, pid: nat)
    requires Runs(s, events) && Endures(s, events, pid) && events != []
    ensures Live(Step(s, events[0]), Uid(pid, 0))
  {
    hide Step, Enabled;
  }

  /** From its launch on, and for as long as its main thread lives, a process starts threads at the entry
      point of the launch, and is still the child of the one that spawned it. */
  lemma LaunchHolds(s: State, events: seq<Event>)
    requires Core(s) && Runs(s, events) && events != [] && events[0].Launch? && !Live(s, Uid(events[0].pid, 0))
    requires Endures(Step(s, events[0]), events[1..], events[0].pid)
    ensures
      var pid, t := events[0].pid, After(s, events);
      && pid in s.procs && pid in t.procs && t.procs[pid].entry == events[0].entry
      && t.procs[pid].parent == s.procs[pid].parent && t.procs[pid].priv == s.procs[pid].priv
  {
    hide Core, Step, Enabled;
    var e := events[0];
    StepKeeps(s, e);
    LaunchExactly(s, e.pid, e.entry);
    RunKeepsIdentity(Step(s, e), events[1..], e.pid);
    EnduresNow(Step(s, e), events[1..], e.pid);
  }

  lemma EnduresNow(s: State, events: seq<Event>, pid: nat)
    requires Runs(s, events) && Endures(s, events, pid)
    ensures Live(s, Uid(pid, 0))
  {}

  // ----- From a send to its receive -----

  /** Thread `u` is there before and after, and what it has said about its payload stands. */
  ghost predicate SameOffer(s: State, t: State, u: Uid) {
    ThreadAt(t, u).payAddr == ThreadAt(s, u).payAddr && ThreadAt(t, u).paySize == ThreadAt(s, u).paySize
  }

  lemma MailOffer(s: State, e: Event, u: Uid)
    requires Core(s) && Enabled(s, e) && u != Curr(s) && (e.Send? || e.Recv? || e.Drop? || e.Wait? || e.KernelSend?)
    ensures SameOffer(s, Step(s, e), u)
  {
    hide Core, Step, Enabled, SameRecords, PutAside, Joined, ThreadAt, Leads, SenderFreed, Deliverable, SendCode,
      RecvCode, Takes, Awaitable, FirstOf, Live;
    var t := Step(s, e);
    forall code | Answered(s, t, code) ensures SameOffer(s, t, u) {
      SameProcs(s, t);
    }
    hide Answered;
    match e {
      case Send(out, mapped, bufMapped) => SendExactly(s, out, mapped, bufMapped);
      case Recv(mapped, bufSize, bufMapped) => RecvExactly(s, mapped, bufSize, bufMapped);
      case Drop(mapped) => DropExactly(s, mapped);
      case Wait(w) => WaitExactly(s, w);
      case KernelSend(port, code, args) => KernelSendExactly(s, port, code, args);
    }
  }

  /** While a thread is not running, nobody changes what it has said about its payload. */
  lemma StepKeepsOffer(s: State, e: Event, u: Uid)
    requires Core(s) && Enabled(s, e) && u != Curr(s) && Live(s, u) && Live(Step(s, e), u)
    ensures SameOffer(s, Step(s, e), u)
  {
    hide Core, Step, Enabled, Departed, Rotated;
    OnStep(s, e);
    match e {
      case Run(_) => RunOnly(s, e);
      case Timer => TurnExactly(s);
      case Yield => TurnExactly(s);
      case Spawn(p) => SpawnExactly(s, p);
      case Launch(p, entry) => LaunchExactly(s, p, entry);
      case Dispatch(tid, entry, stack) => DispatchExactly(s, tid, entry, stack);
      case Kill(p) => KillExactly(s, p);
      case Fault => FaultExactly(s);
      case Send(_, _, _) => MailOffer(s, e, u);
      case Recv(_, _, _) => MailOffer(s, e, u);
      case Drop(_) => MailOffer(s, e, u);
      case Wait(_) => MailOffer(s, e, u);
      case KernelSend(_, _, _) => MailOffer(s, e, u);
    }
  }

  /** Thread `u` is blocked on a send in every state of the run. */
  ghost predicate StaysSending(s: State, events: seq<Event>, u: Uid)
    requires Runs(s, events)
    decreases |events|
  {
    RunOf(s, u) == Sending && (events == [] || StaysSending(Step(s, events[0]), events[1..], u))
  }

  lemma SenderIsThere(s: State, u: Uid)
    requires Core(s) && RunOf(s, u) == Sending
    ensures Live(s, u) && (s.sched.ring != [] ==> u != Curr(s))
  {}

  lemma {:induction false} RunKeepsOffer(s: State, events: seq<Event>, u: Uid)
    requires Core(s) && Runs(s, events) && StaysSending(s, events, u)
    ensures SameOffer(s, After(s, events), u) && Core(After(s, events)) && RunOf(After(s, events), u) == Sending
    decreases |events|
  {
    hide Core, Step, Enabled, RunOf, Live, ThreadAt;
    if events != [] {
      var t := Step(s, events[0]);
      StepKeeps(s, events[0]);
      OnStep(s, events[0]);
      StillSending(s, events, u);
      SenderIsThere(s, u);
      SenderIsThere(t, u);
      StepKeepsOffer(s, events[0], u);
      RunKeepsOffer(t, events[1..], u);
    }
  }

  lemma StillSending(s: State, events: seq<Event>, u: Uid)
    requires Runs(s, events) && StaysSending(s, events, u) && events != []
    ensures RunOf(s, u) == Sending && RunOf(Step(s, events[0]), u) == Sending
  {
    hide Step, Enabled, RunOf;
  }

  /** A thread blocks on a send with a payload, others run, and a receive takes that payload: the receiver is
      told the size that was sent, and the sender goes on. */
  lemma SizeArrives(s: State, events: seq<Event>, e: Event)
    requires Core(s) && events != [] && events[0].Send? && Runs(s, events)
    requires events[0].out.buf != 0 && StaysSending(Step(s, events[0]), events[1..], Curr(s))
    requires Enabled(After(s, events), e) && e.Recv? && Offers(After(s, events), 0, Curr(s))
    ensures
      var a, u, t := After(s, events), Curr(s), Step(After(s, events), e);
      && ThreadAt(a, u).payAddr == events[0].out.buf
      && (t.sched.frame.eax >= 0 ==> t.sched.frame.eax == events[0].out.size && RunOf(t, u) == Active)
      && (t.sched.frame.eax >= 0 <==> e.mapped && 0 < e.bufSize && events[0].out.size <= e.bufSize && e.bufMapped)
  {
    hide Core, Step, Enabled, RunOf, Live, ThreadAt, Offers, SameRecords, PutAside, Joined, MailKept;
    var u, b, a, r := Curr(s), Step(s, events[0]), After(s, events), events[0].out;
    StepKeeps(s, events[0]);
    OnlySending(b, events[1..], u);
    SendExactly(s, r, events[0].mapped, events[0].bufMapped);
    var v :| MailOut(s, b, r, v);
    Remembered(s, b, r, v);
    RunKeepsOffer(b, events[1..], u);
    RecvExactly(a, e.mapped, e.bufSize, e.bufMapped);
    OneOffer(a, u);
    SenderIsThere(a, u);
    if Step(a, e).sched.frame.eax >= 0 {
      JoinedRuns(a, Step(a, e), u);
    }
  }

  lemma OnlySending(s: State, events: seq<Event>, u: Uid)
    requires Runs(s, events) && StaysSending(s, events, u)
    ensures RunOf(s, u) == Sending
  {}

  lemma Remembered(s: State, t: State, r: Outgoing, v: Uid)
    requires MailOut(s, t, r, v) && r.buf != 0
    ensures ThreadAt(t, Curr(s)).payAddr == r.buf && ThreadAt(t, Curr(s)).paySize == r.size
  {}

  /** Only one thread can be the sender of the head message. */
  lemma OneOffer(s: State, u: Uid)
    requires Offers(s, 0, u)
    ensures Queue(s, Curr(s)) != [] && forall x :: Offers(s, 0, x) ==> x == u
  {}

  lemma JoinedRuns(s: State, t: State, u: Uid)
    requires Joined(s.sched, t.sched, [u]) && RunOf(s, u) == Sending
    ensures RunOf(t, u) == Active
  {}
}
