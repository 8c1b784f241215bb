/** Blocked senders over whole runs. */
module KernelRendezvous {
  import opened Ports
  import opened RunQueue
  import opened Mail
  import opened KernelState
  import opened KernelInvariant
  import opened KernelSteps
  import opened KernelMail

  // ----- Every blocked sender has its message under way -----

  /** Some queue holds a payload message of port `p`. */
  ghost predicate UnderWay(s: State, p: Port) {
    exists u :: Held(s, u, p) > 0
  }

  /** Every blocked sender is waiting for a message that can still be received. */
  ghost predicate Paired(s: State) {
    forall v :: Live(s, v) && RunOf(s, v) == Sending ==> UnderWay(s, PortOf(s, v))
  }

  /** Exactly one such message exists for each of them. */
  lemma PairedMeansOne(s: State, v: Uid) returns (u: Uid)
    requires Inv(s) && Paired(s) && Live(s, v) && RunOf(s, v) == Sending
    ensures Held(s, u, PortOf(s, v)) == 1
    ensures forall w :: w != u ==> Held(s, w, PortOf(s, v)) == 0
  {
    hide Held;
    u :| Held(s, u, PortOf(s, v)) > 0;
  }

  lemma PendingMoved(q: seq<Message>, move: Move, v: Uid, p: Port)
    ensures move.Arrival? && v == move.to && move.m.payload && move.m.from == p ==> Pending(Moved(move, v, q), p) > 0
    ensures Pending(q, p) > 0 && !(move.Departure? && v == move.of && q[0].payload && q[0].from == p)
            ==> Pending(Moved(move, v, q), p) > 0
  {
    match move {
      case Arrival(to, m, front) =>
        PendingConcat([m], q, p);
        PendingConcat(q, [m], p);
      case Reorder(of, w) => PromoteKeepsPending(q, w, p);
      case Departure(of) =>
      case Nothing =>
    }
  }

  lemma HeldMoved(s: State, e: Event, u: Uid, p: Port)
    requires Inv(s) && Enabled(s, e) && Live(s, u) && Live(Step(s, e), u)
    ensures
      var move, q := MoveOf(s, e), Queue(s, u);
      && (move.Arrival? && u == move.to && move.m.payload && move.m.from == p ==> Held(Step(s, e), u, p) > 0)
      && (Held(s, u, p) > 0 && !(move.Departure? && u == move.of && q != [] && q[0].payload && q[0].from == p)
          ==> Held(Step(s, e), u, p) > 0)
  {
    hide Core, Fresh, Enabled, Step, MoveOf, PortOf, Moved, Pending, KnownPort, Live;
    StepChange(s, e);
    PendingMoved(Queue(s, u), MoveOf(s, e), u, p);
    PendingOfEmpty(p);
  }

  lemma PendingOfEmpty(p: Port)
    ensures Pending([], p) == 0
  {}

  predicate Ends(e: Event) {
    e.Kill? || e.Fault?
  }

  lemma NobodyDies(s: State, e: Event, v: Uid)
    requires Inv(s) && Enabled(s, e) && !Ends(e) && Live(s, v)
    ensures Live(Step(s, e), v)
  {
    hide StatesOk, TableOk, NoLostWakeup, Fresh, SendStep, RecvStep, DropStep, WaitStep, KernelSendStep, SpawnStep,
      StartThread, Quiet, Next, Tick, Survivors, PortsKept, Versioned, Live;
    CurrLive(s);
    var t := Step(s, e);
    match e {
      case Run(_) => SameProcs(s, t);
      case Timer => SameProcs(s, t);
      case Yield => SameProcs(s, t);
      case Send(out, mapped, bufMapped) => SendQuiet(s, out, mapped, bufMapped); QuietFollows(s, t, MoveOf(s, e));
      case Recv(mapped, bufSize, bufMapped) =>
        RecvQuiet(s, mapped, bufSize, bufMapped);
        QuietFollows(s, t, MoveOf(s, e));
      case Drop(mapped) => DropQuiet(s, mapped); QuietFollows(s, t, MoveOf(s, e));
      case Wait(w) => WaitQuiet(s, w); QuietFollows(s, t, MoveOf(s, e));
      case KernelSend(port, code, args) => KernelSendQuiet(s, port, code, args); QuietFollows(s, t, MoveOf(s, e));
      case Spawn(pid) => CurrOwner(s); SpawnTable(s, pid);
      case Launch(pid, entry) =>
        if LaunchError(s, pid) == ENONE {
          LaunchIsNew(s, pid);
          StartTable(s, Uid(pid, 0), 0, 0, entry);
          SameProcs(StartThread(s, Uid(pid, 0), 0, 0, entry), t);
        } else {
          SameProcs(s, t);
        }
      case Dispatch(tid, entry, stack) =>
        var u, fallback := Uid(Curr(s).pid, tid), s.procs[Curr(s).pid].entry;
        StartTable(s, u, entry, stack, fallback);
        SameProcs(StartThread(s, u, entry, stack, fallback), t);
    }
  }

  lemma LaunchIsNew(s: State, pid: nat)
    requires LaunchError(s, pid) == ENONE
    ensures !Live(s, Uid(pid, 0))
  {}

  /** A completed blocking send carries a payload. */
  lemma BlockingSendCarries(s: State, e: Event)
    requires Inv(s) && Enabled(s, e) && e.Send? && Blocks(s, e)
    ensures
      var move := MoveOf(s, e);
      move.Arrival? && move.m.payload && move.m.from == PortOf(s, Curr(s)) && Live(s, move.to)
  {
    hide Core, Fresh, Enabled, Resolve, PortOf, AtPost, Woken, Compare, Live, Room;
  }

  /** The head message of a blocked sender leaves the queue only by letting that sender go. */
  lemma DepartureReleases(s: State, e: Event, v: Uid)
    requires Inv(s) && Enabled(s, e) && MoveOf(s, e).Departure? && Live(s, v)
    requires
      var q := Queue(s, MoveOf(s, e).of);
      q != [] && q[0].payload && q[0].from == PortOf(s, v)
    ensures Released(s, e) == v && v != NOBODY
  {
    PortLeadsBack(s, v, 0);
    NobodyIsDead(s);
  }

  /** Without kills, every step keeps every blocked sender paired with a message. */
  lemma StepKeepsPaired(s: State, e: Event)
    requires Inv(s) && Enabled(s, e) && !Ends(e) && Paired(s)
    ensures Paired(Step(s, e))
  {
    hide Core, Fresh, Enabled, Step, MoveOf, Newborn, PortOf, KnownPort, ThreadAt, Queue, Released, RunOf, Live, Held,
      Blocks, Moved;
    StepChange(s, e);
    StepStates(s, e);
    var t := Step(s, e);
    forall v | Live(t, v) && RunOf(t, v) == Sending
      ensures UnderWay(t, PortOf(t, v))
    {
      NewbornRuns(s, e, v);
      if Blocks(s, e) && v == Curr(s) {
        BlockingSendCarries(s, e);
        NobodyDies(s, e, MoveOf(s, e).to);
        HeldMoved(s, e, MoveOf(s, e).to, PortOf(s, v));
      } else {
        var u :| Held(s, u, PortOf(s, v)) > 0;
        NothingFromNobody(s, u, PortOf(s, v));
        NobodyDies(s, e, u);
        HeldMoved(s, e, u, PortOf(s, v));
        if MoveOf(s, e).Departure? && u == MoveOf(s, e).of && Queue(s, u) != [] && Queue(s, u)[0].payload
           && Queue(s, u)[0].from == PortOf(s, v) {
          DepartureReleases(s, e, v);
        }
      }
    }
  }

  lemma NewbornRuns(s: State, e: Event, v: Uid)
    requires Inv(s) && Enabled(s, e) && Live(Step(s, e), v) && RunOf(Step(s, e), v) == Sending
    ensures Live(s, v)
  {
    StepChange(s, e);
    StepKeeps(s, e);
    NobodyIsDead(Step(s, e));
  }

  /** In any orderly run without kills, each blocked sender has exactly one message waiting for it. */
  lemma {:induction false} RunsKeepPaired(s: State, events: seq<Event>)
    requires Inv(s) && OrderlyRun(s, events) && Paired(s) && forall e :: e in events ==> !Ends(e)
    ensures Runs(s, events) && Paired(After(s, events))
    decreases |events|
  {
    OrderlyRunRuns(s, events);
    if events != [] {
      StepKeeps(s, events[0]);
      StepKeepsPaired(s, events[0]);
      hide Core, Fresh, Enabled, Step, Paired, Ends, Orderly;
      RunsKeepPaired(Step(s, events[0]), events[1..]);
    }
  }

  // ----- What kills do to blocked senders -----

  /** The threads that a kill or a fault destroys. */
  predicate Dies(s: State, e: Event, u: Uid) {
    match e
    case Kill(pid) => KillError(s, pid) == ENONE && u.pid == KillTarget(s, pid)
    case Fault => if Curr(s).tid == 0 then u.pid == Curr(s).pid else u == Curr(s)
    case _ => false
  }

  lemma EndsLive(s: State, e: Event)
    requires Inv(s) && Enabled(s, e) && Ends(e)
    ensures forall v :: Live(Step(s, e), v) <==> Live(s, v) && !Dies(s, e, v)
  {
    hide StatesOk, TableOk, NoLostWakeup, HeldKnown, SendersBlocked, OneEach, Survivors, Lock, Unlock, Return,
      EndProcess, EndThread;
    CurrLive(s);
    var u, locked, t := Curr(s), s.(sched := Lock(s.sched)), Step(s, e);
    SameProcs(s, locked);
    if e.Kill? {
      var target := KillTarget(s, e.pid);
      if KillError(s, e.pid) == ENONE {
        EndProcessTable(locked, target);
        EndProcessTable(s, target);
        SameProcs(EndProcess(locked, target), Continue(EndProcess(locked, target)));
        SameProcs(EndProcess(s, target), Ret(EndProcess(s, target), ENONE));
      } else {
        SameProcs(s, t);
      }
    } else if u.tid == 0 {
      EndProcessTable(locked, u.pid);
      SameProcs(EndProcess(locked, u.pid), t);
    } else {
      EndThreadTable(locked, u);
      SameProcs(EndThread(locked, u), t);
    }
  }

  /** A kill strands a sender exactly when the sender survives and the thread that
      holds its message does not: a kill never releases the victims' senders. */
  lemma KillKeepsPairedExactly(s: State, e: Event)
    requires Inv(s) && Enabled(s, e) && Ends(e) && Paired(s)
    ensures Paired(Step(s, e)) <==>
              forall u, v :: Live(s, v) && !Dies(s, e, v) && RunOf(s, v) == Sending && Held(s, u, PortOf(s, v)) > 0
                ==> !Dies(s, e, u)
  {
    hide Core, Fresh, Enabled, Step, Newborn, PortOf, KnownPort, ThreadAt, Queue, RunOf, Live, Held, Dies, Moved,
      OneEach;
    StepChange(s, e);
    StepStates(s, e);
    EndsLive(s, e);
    var t := Step(s, e);
    assert forall v :: Live(t, v) ==> Live(s, v) && PortOf(t, v) == PortOf(s, v) && RunOf(t, v) == RunOf(s, v);
    HeldBySurvivors(s, e);
    if Paired(t) {
      forall u, v | Live(s, v) && !Dies(s, e, v) && RunOf(s, v) == Sending && Held(s, u, PortOf(s, v)) > 0
        ensures !Dies(s, e, u)
      {
        var w :| Held(t, w, PortOf(t, v)) > 0;
        assert Held(s, w, PortOf(s, v)) > 0 && !Dies(s, e, w);
        InvOne(s, u, w, PortOf(s, v));
      }
    } else {
      var v :| Live(t, v) && RunOf(t, v) == Sending && !UnderWay(t, PortOf(t, v));
      var u :| Held(s, u, PortOf(s, v)) > 0;
      assert Held(t, u, PortOf(s, v)) == 0;
    }
  }

  lemma InvOne(s: State, u: Uid, w: Uid, p: Port)
    requires Inv(s) && Held(s, u, p) > 0 && Held(s, w, p) > 0
    ensures u == w
  {}

  lemma HeldBySurvivors(s: State, e: Event)
    requires Inv(s) && Enabled(s, e) && Ends(e)
    ensures forall u, p :: Held(Step(s, e), u, p) == if Dies(s, e, u) then 0 else Held(s, u, p)
  {
    hide Core, Fresh, Enabled, Step, PortOf, KnownPort, Live, Dies, Pending, Queue;
    StepChange(s, e);
    EndsLive(s, e);
    forall u, p ensures Held(Step(s, e), u, p) == if Dies(s, e, u) then 0 else Held(s, u, p) {
      NothingFromNobody(s, u, p);
      NothingFromNobody(Step(s, e), u, p);
    }
  }

  // ----- A send that offers a size but no buffer -----

  /** A send keeps senders blocked exactly when it does not announce a payload size without
      a buffer: such a message is marked as carrying a payload although its sender goes on running. */
  lemma SendKeepsBlockedExactly(s: State, r: Outgoing, mapped: bool, bufMapped: bool)
    requires Inv(s) && s.sched.ring != []
    ensures SendersBlocked(SendStep(s, r, mapped, bufMapped)) <==>
              !(SendError(s, r, mapped, bufMapped) == ENONE && r.buf == 0 && r.size > 0)
  {
    var t := SendStep(s, r, mapped, bufMapped);
    if SendError(s, r, mapped, bufMapped) == ENONE && r.buf == 0 && r.size > 0 {
      hide Core, Fresh, SendError, PortOf, Resolve, Held, Post, SamePeople, Live, StatesOk;
      var a, target, m := Ret(s, ENONE), Resolve(s, r.to, Curr(s).pid), Sent(s, r);
      SendIsPost(s, r, mapped, bufMapped);
      CoreStates(s);
      RetStates(s);
      SameProcs(s, a);
      CurrLive(s);
      PostHeld(a, target, m);
      PostEffect(a, target, m);
      SamePeopleTable(a, t);
      assert Held(t, target, PortOf(t, Curr(s))) > 0;
      assert RunOf(t, Curr(s)) == Active;
    } else if SendError(s, r, mapped, bufMapped) != ENONE {
      RetKeeps(s, SendError(s, r, mapped, bufMapped));
    } else {
      SendKeeps(s, r, mapped, bufMapped);
    }
  }

  // ----- A drop without a destination -----

  /** Drop the head message without a place for it.  The code looks for the sender's port there all
      the same, with or without a payload: it reads `read` if address zero is mapped.  If not, the
      message is gone when the kernel faults, and the fault ends the caller. */
  function NullDropStep(s: State, mapped: bool, read: Port): State {
    var u, q := Curr(s), Queue(s, Curr(s));
    if q == [] then Ret(s, ENOTAVAIL)
    else if !mapped then FaultStep(DropMail(s, u))
    else
      var sender := if q[0].payload then Resolve(s, read, u.pid) else NOBODY;
      Ret(if sender != NOBODY then Wake(DropMail(s, u), sender) else DropMail(s, u), ENONE)
  }

  lemma FaultEnds(s: State)
    ensures !Live(FaultStep(s), Curr(s))
  {
    hide Unlock, Leave, RemoveAll, Lock;
  }

  lemma DropMailAlive(s: State, u: Uid)
    ensures Curr(DropMail(s, u)) == Curr(s) && forall v :: Live(DropMail(s, u), v) == Live(s, v)
  {}

  lemma DropStepAlive(s: State)
    ensures forall v :: Live(DropStep(s, true), v) == Live(s, v)
  {
    hide DropMail, Live, Add, HeadSender, Queue;
    var u := Curr(s);
    DropMailAlive(s, u);
    SameProcs(DropMail(s, u), Wake(DropMail(s, u), HeadSender(s, u.pid)));
    SameProcs(s, Ret(s, ENOTAVAIL));
    forall t, code: int ensures forall v :: Live(Ret(t, code), v) == Live(t, v) {
      SameProcs(t, Ret(t, code));
    }
  }

  /** Such a drop does what a drop does exactly when there is nothing to drop, or address zero is
      mapped and, for a message with a payload, the port that lies there leads to the sender.
      With address zero unmapped, it ends the caller. */
  lemma NullDropExactly(s: State, mapped: bool, read: Port)
    requires StatesOk(s) && s.sched.ring != []
    ensures NullDropStep(s, mapped, read) == DropStep(s, true) <==>
      || Queue(s, Curr(s)) == []
      || (mapped && (Queue(s, Curr(s))[0].payload ==> Resolve(s, read, Curr(s).pid) == HeadSender(s, Curr(s).pid)))
    ensures !mapped && Queue(s, Curr(s)) != [] ==> Live(s, Curr(s)) && !Live(NullDropStep(s, mapped, read), Curr(s))
  {
    hide StatesOk, FaultStep, Resolve, DropMail, Queue, Live, DropStep;
    CurrLive(s);
    FaultEnds(DropMail(s, Curr(s)));
    DropMailAlive(s, Curr(s));
    DropStepAlive(s);
    MappedDropExactly(s, read);
  }

  lemma MappedDropExactly(s: State, read: Port)
    ensures NullDropStep(s, true, read) == DropStep(s, true) <==>
      (Queue(s, Curr(s)) != [] && Queue(s, Curr(s))[0].payload ==>
         Resolve(s, read, Curr(s).pid) == HeadSender(s, Curr(s).pid))
  {
    hide Resolve, DropMail, Queue, FaultStep;
    var u := Curr(s);
    var d := DropMail(s, u);
    var x, y := Resolve(s, read, u.pid), HeadSender(s, u.pid);
    if x != y {
      if x != NOBODY && y != NOBODY {
        assert (d.sched.ring + [x])[|d.sched.ring|] == x;
        assert (d.sched.ring + [y])[|d.sched.ring|] == y;
      } else if x != NOBODY {
        assert |d.sched.ring + [x]| == |d.sched.ring| + 1;
      } else {
        assert |d.sched.ring + [y]| == |d.sched.ring| + 1;
      }
    }
  }

  /** With zeros there, a main thread never releases the sender whose message it drops. */
  lemma NullDropMisses(s: State, mapped: bool)
    requires Inv(s) && s.sched.ring != [] && Curr(s).tid == 0 && HeadSender(s, Curr(s).pid) != NOBODY
    ensures NullDropStep(s, mapped, Port(0, 0, 0, 0)) != DropStep(s, true)
  {
    hide Core, Fresh, Queue, DropMail, HeadSender, Live, RunOf, PortOf, FaultStep, StatesOk;
    CoreStates(s);
    CurrLive(s);
    HeadSenderBlocked(s, Curr(s).pid);
    NullDropExactly(s, mapped, Port(0, 0, 0, 0));
  }
}
