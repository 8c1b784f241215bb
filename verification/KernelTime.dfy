/** Bounded waiting: how long a runnable thread can be kept from the processor. */
module KernelTime {
  import opened Ports
  import opened RunQueue
  import opened Mail
  import opened KernelState
  import opened KernelInvariant
  import opened KernelSteps

  /** 1 for a step that uses up processor time of the running thread, else 0. */
  function Turn(e: Event): nat {
    if e.Timer? || e.Yield? then 1 else 0
  }

  function Turns(events: seq<Event>): nat {
    if events == [] then 0 else Turn(events[0]) + Turns(events[1..])
  }

  lemma SameDelay(s: Sched, t: Sched, u: Uid)
    requires u in s.ring && t.ring == s.ring && t.slice == s.slice
    ensures Delay(t, u) == Delay(s, u)
  {}

  /** The running thread blocks; everybody else moves up. */
  lemma SuspendDelay(s: Sched, why: RunState, u: Uid)
    requires QueueOk(s) && s.ring != [] && u in s.ring && u != s.ring[0] && why != Active
    ensures
      var t := Block(Remove(Lock(s), s.ring[0]), s.ring[0], why);
      u in t.ring && Delay(t, u) <= Delay(s, u)
  {
    hide Delay;
    var a := Lock(s);
    SameDelay(s, a, u);
    DepartureKeepsDelay(a, {s.ring[0]}, u);
    SameDelay(Remove(a, s.ring[0]), Block(Remove(a, s.ring[0]), s.ring[0], why), u);
  }

  lemma PostDelay(s: State, target: Uid, m: Message, u: Uid)
    requires StatesOk(s) && u in s.sched.ring
    ensures u in Post(s, target, m).sched.ring && Delay(Post(s, target, m).sched, u) == Delay(s.sched, u)
  {
    hide Delay, AddMail, Compare, ThreadAt;
    AddMailSched(s, target, m, Woken(s, target, m.from));
    if Woken(s, target, m.from) {
      assert target !in s.sched.ring;
      ArrivalKeepsDelay(s.sched, target, u);
    }
  }

  lemma AddMailSched(s: State, target: Uid, m: Message, head: bool)
    ensures AddMail(s, target, m, head).sched == s.sched
  {}

  lemma SendDelay(s: State, r: Outgoing, mapped: bool, bufMapped: bool, u: Uid)
    requires StatesOk(s) && u in s.sched.ring && u != Curr(s)
    ensures
      var t := SendStep(s, r, mapped, bufMapped);
      u in t.sched.ring && Delay(t.sched, u) <= Delay(s.sched, u)
  {
    hide Delay, Post, Resolve, PortOf, StatesOk, SendError, ThreadAt, Live, Queue, SamePeople;
    var error := SendError(s, r, mapped, bufMapped);
    var b, target, m := AtPost(s, r), Resolve(s, r.to, Curr(s).pid), Sent(s, r);
    if error != ENONE {
      SameDelay(s.sched, Ret(s, error).sched, u);
    } else {
      SendIsPost(s, r, mapped, bufMapped);
      AtPostEffect(s, r);
      AtPostDelay(s, r, u);
      PostDelay(b, target, m, u);
      SameDelay(Post(b, target, m).sched, SendStep(s, r, mapped, bufMapped).sched, u);
    }
  }

  lemma AtPostDelay(s: State, r: Outgoing, u: Uid)
    requires StatesOk(s) && u in s.sched.ring && u != Curr(s)
    ensures u in AtPost(s, r).sched.ring && Delay(AtPost(s, r).sched, u) <= Delay(s.sched, u)
  {
    hide Delay, Remove, Lock, Block, QueueOk, Live;
    var a := Ret(s, ENONE);
    SameDelay(s.sched, a.sched, u);
    RetStates(s);
    SuspendDelay(a.sched, Sending, u);
  }

  lemma TakeDelay(s: State, sender: Uid, code: int, u: Uid)
    requires StatesOk(s) && u in s.sched.ring && Addable(s, sender)
    ensures
      var t := Ret(Taken(s, Curr(s), sender), code);
      u in t.sched.ring && Delay(t.sched, u) <= Delay(s.sched, u)
  {
    hide Delay, DropMail;
    DropMailSched(s, Curr(s));
    if sender != NOBODY {
      assert sender !in s.sched.ring;
      ArrivalKeepsDelay(s.sched, sender, u);
    }
    SameDelay(Taken(s, Curr(s), sender).sched, Ret(Taken(s, Curr(s), sender), code).sched, u);
  }

  lemma DropMailSched(s: State, u: Uid)
    ensures DropMail(s, u).sched == s.sched
  {}

  lemma ReceiveDelay(s: State, e: Event, u: Uid)
    requires Core(s) && Enabled(s, e) && (e.Recv? || e.Drop?) && u in s.sched.ring
    ensures u in Step(s, e).sched.ring && Delay(Step(s, e).sched, u) <= Delay(s.sched, u)
  {
    hide Core, Fresh, Delay, DropMail, HeadSender, ThreadAt, Queue, StatesOk, Addable;
    var sender, other := HeadSender(s, 0), HeadSender(s, Curr(s).pid);
    TakenEitherOrder(s, Curr(s), sender);
    CoreStates(s);
    if e.Recv? && RecvError(s, e.mapped, e.bufSize, e.bufMapped) == ENONE {
      TakeDelay(s, sender, if sender != NOBODY then ThreadAt(s, sender).paySize else 0, u);
    }
    if e.Drop? && e.mapped {
      TakeDelay(s, other, ENONE, u);
    }
    SameDelay(s.sched, Return(s.sched, EPARAM), u);
    SameDelay(s.sched, Return(s.sched, ENOTAVAIL), u);
    SameDelay(s.sched, Return(s.sched, ESIZE), u);
    SameDelay(s.sched, Return(s.sched, EADDR), u);
  }

  lemma WaitDelay(s: State, w: Port, u: Uid)
    requires StatesOk(s) && u in s.sched.ring && u != Curr(s)
    ensures u in WaitStep(s, w).sched.ring && Delay(WaitStep(s, w).sched, u) <= Delay(s.sched, u)
  {
    hide Delay, Remove, Lock, Block, QueueOk, Live, ThreadAt, Queue, Promote, FirstMatch, WaitError, StatesOk;
    var a := Ret(s, ENONE);
    SameDelay(s.sched, a.sched, u);
    SameDelay(s.sched, Return(s.sched, WaitError(s, w)), u);
    RetStates(s);
    SchedOf(a);
    SuspendDelay(a.sched, Waiting, u);
    var b := Suspend(a, Curr(s), Waiting);
    SameDelay(b.sched, Unlock(b.sched), u);
  }

  lemma SchedOf(s: State)
    requires StatesOk(s)
    ensures QueueOk(s.sched)
  {}

  lemma StartDelay(s: State, v: Uid, entry: nat, stack: nat, fallback: nat, code: int, u: Uid)
    requires StatesOk(s) && u in s.sched.ring && CanOpen(s, v) && !Live(s, v)
    ensures
      var t := Ret(StartThread(s, v, entry, stack, fallback), code);
      u in t.sched.ring && Delay(t.sched, u) == Delay(s.sched, u)
  {
    hide Delay, AddThread;
    var a := Enter(s.sched, v, if entry != 0 then entry else fallback, stack);
    SameDelay(s.sched, a, u);
    ArrivalKeepsDelay(a, v, u);
    SameDelay(Add(a, v), Return(Add(a, v), code), u);
  }

  lemma EndDelay(s: Sched, gone: set<Uid>, u: Uid)
    requires QueueOk(s) && u in s.ring && u !in gone
    ensures
      var a := Leave(RemoveAll(s, gone), gone);
      u in a.ring && Delay(a, u) <= Delay(s, u)
  {
    hide Delay;
    DepartureKeepsDelay(s, gone, u);
    SameDelay(RemoveAll(s, gone), Leave(RemoveAll(s, gone), gone), u);
  }

  /** Threads are ended, with or without the scheduler locked first. */
  lemma EndedDelay(s: State, gone: set<Uid>, u: Uid)
    requires StatesOk(s) && u in s.sched.ring
    ensures
      var a, b := Leave(RemoveAll(s.sched, gone), gone), Unlock(Leave(RemoveAll(Lock(s.sched), gone), gone));
      && (u in a.ring ==> Delay(a, u) <= Delay(s.sched, u))
      && (u in b.ring ==> Delay(b, u) <= Delay(s.sched, u))
  {
    hide Delay, QueueOk, Live, Leave, RemoveAll, Lock;
    var l := Lock(s.sched);
    LockStates(s);
    SchedOf(s);
    SameDelay(s.sched, l, u);
    LeaveKeepsQueue(l, gone);
    LeaveKeepsQueue(s.sched, gone);
    KeepMembers(s.sched.ring, gone);
    if u !in gone {
      EndDelay(l, gone, u);
      EndDelay(s.sched, gone, u);
      var c := Leave(RemoveAll(l, gone), gone);
      SameDelay(c, Unlock(c), u);
    }
  }

  lemma LockedThreads(s: State, pid: nat)
    ensures ThreadsIn(s.(sched := Lock(s.sched)), pid) == ThreadsIn(s, pid)
  {}

  lemma KillDelay(s: State, pid: nat, u: Uid)
    requires StatesOk(s) && u in s.sched.ring && u in KillStep(s, pid).sched.ring
    ensures Delay(KillStep(s, pid).sched, u) <= Delay(s.sched, u)
  {
    hide Delay, StatesOk, Leave, RemoveAll, Lock, Unlock;
    var target := KillTarget(s, pid);
    LockedThreads(s, target);
    EndedDelay(s, ThreadsIn(s, target), u);
    SameDelay(s.sched, Return(s.sched, KillError(s, pid)), u);
    var a := Leave(RemoveAll(s.sched, ThreadsIn(s, target)), ThreadsIn(s, target));
    if u in a.ring {
      SameDelay(a, Return(a, ENONE), u);
    }
  }

  lemma FaultDelay(s: State, u: Uid)
    requires StatesOk(s) && u in s.sched.ring && u in FaultStep(s).sched.ring
    ensures Delay(FaultStep(s).sched, u) <= Delay(s.sched, u)
  {
    hide Delay, StatesOk, Leave, RemoveAll, Lock, Unlock;
    LockedThreads(s, Curr(s).pid);
    EndedDelay(s, ThreadsIn(s, Curr(s).pid), u);
    EndedDelay(s, {Curr(s)}, u);
  }

  lemma LockStates(s: State)
    requires StatesOk(s)
    ensures QueueOk(Lock(s.sched)) && Lock(s.sched).run == s.sched.run
    ensures Lock(s.sched).ring == s.sched.ring && Lock(s.sched).slice == s.sched.slice
  {}

  // ----- Every step -----

  /** While `u` waits for its turn, a timer tick or a yield brings it nearer
      and no other step pushes it back. */
  lemma StepDelay(s: State, e: Event, u: Uid)
    requires Core(s) && Enabled(s, e) && u in s.sched.ring && u != Curr(s) && u in Step(s, e).sched.ring
    ensures Delay(Step(s, e).sched, u) <= Delay(s.sched, u) - Turn(e)
  {
    hide Core, Fresh, Delay, SendStep, WaitStep, KernelSendStep, StartThread, KillStep, FaultStep, StatesOk, Next, Tick;
    CoreStates(s);
    var t := Step(s, e);
    match e {
      case Run(_) => SameDelay(s.sched, t.sched, u);
      case Timer => TurnShortensDelay(s.sched, u);
      case Yield => RetStates(s); SchedOf(Ret(s, ENONE)); SameDelay(s.sched, Return(s.sched, ENONE), u);
        TurnShortensDelay(Return(s.sched, ENONE), u);
      case Send(out, mapped, bufMapped) => SendDelay(s, out, mapped, bufMapped, u);
      case Recv(_, _, _) => ReceiveDelay(s, e, u);
      case Drop(_) => ReceiveDelay(s, e, u);
      case Wait(w) => WaitDelay(s, w, u);
      case KernelSend(port, code, args) =>
        PostDelay(s, Resolve(s, port, 0), Message(IPORT_KERNEL, code, args, false), u);
        KernelSendIsPost(s, port, code, args);
      case Spawn(pid) => SameDelay(s.sched, t.sched, u);
      case Launch(pid, entry) =>
        if LaunchError(s, pid) == ENONE {
          StartDelay(s, Uid(pid, 0), 0, 0, entry, ENONE, u);
        } else {
          SameDelay(s.sched, t.sched, u);
        }
      case Dispatch(tid, entry, stack) =>
        StartDelay(s, Uid(Curr(s).pid, tid), entry, stack, s.procs[Curr(s).pid].entry, tid, u);
      case Kill(pid) => KillDelay(s, pid, u);
      case Fault => FaultDelay(s, u);
    }
  }

  lemma KernelSendIsPost(s: State, port: Port, code: nat, args: seq<nat>)
    ensures KernelSendStep(s, port, code, args) ==
      Post(s, Resolve(s, port, 0), Message(IPORT_KERNEL, code, args, false))
  {}

  /** Throughout the run, `u` is runnable but never gets to run. */
  ghost predicate KeptWaiting(s: State, events: seq<Event>, u: Uid)
    requires Runs(s, events)
    decreases |events|
  {
    && u in s.sched.ring && u != Curr(s)
    && (events != [] ==> KeptWaiting(Step(s, events[0]), events[1..], u))
  }

  lemma {:induction false} WaitingUsesUpDelay(s: State, events: seq<Event>, u: Uid)
    requires Core(s) && Runs(s, events) && KeptWaiting(s, events, u)
    ensures 1 <= Delay(s.sched, u)
    ensures Turns(events) < Delay(s.sched, u)
    decreases |events|
  {
    DelayIsPositive(s, u);
    if events != [] {
      StepKeeps(s, events[0]);
      StepStillWaiting(s, events, u);
      StepDelay(s, events[0], u);
      hide Core, Fresh, Enabled, Step, Delay, Turn;
      WaitingUsesUpDelay(Step(s, events[0]), events[1..], u);
    }
  }

  lemma DelayIsPositive(s: State, u: Uid)
    requires Core(s) && u in s.sched.ring && u != Curr(s)
    ensures 1 <= Delay(s.sched, u)
  {}

  lemma StepStillWaiting(s: State, events: seq<Event>, u: Uid)
    requires Runs(s, events) && KeptWaiting(s, events, u) && events != []
    ensures u in Step(s, events[0]).sched.ring
  {}

  /** A thread at distance d >= 1 from the running one runs or leaves the queue within
      timeslice + 5 * (d - 1) ticks and yields, whatever else happens in between. */
  lemma BoundedWaiting(s: State, events: seq<Event>, u: Uid)
    requires Core(s) && Runs(s, events) && u in s.sched.ring && IndexOf(s.sched.ring, u) >= 1
    requires Turns(events) >= s.sched.slice + TIMESLICE * (IndexOf(s.sched.ring, u) - 1)
    ensures !KeptWaiting(s, events, u)
  {
    hide Core, Fresh, Step, Enabled;
    if KeptWaiting(s, events, u) {
      WaitingUsesUpDelay(s, events, u);
    }
  }
}
