/** How each kernel step moves mail and changes thread states. */
module KernelSteps {
  import opened Ports
  import opened RunQueue
  import opened Mail
  import opened KernelState
  import opened KernelInvariant

  /** The one change a step makes to the queues. */
  datatype Move =
    | Nothing
    | Arrival(to: Uid, m: Message, front: bool)
    | Departure(of: Uid)
    | Reorder(of: Uid, w: Port)

  function Moved(move: Move, v: Uid, q: seq<Message>): seq<Message> {
    match move
    case Nothing => q
    case Arrival(to, m, front) => if v != to then q else if front then [m] + q else q + [m]
    case Departure(of) => if v == of && q != [] then q[1..] else q
    case Reorder(of, w) => if v == of then Promote(q, w) else q
  }

  function Sent(s: State, r: Outgoing): Message {
    Message(PortOf(s, Curr(s)), r.code, r.args, r.size > 0)
  }

  /** The state in which the receiver is looked at: a sender that blocks has done so already. */
  function AtPost(s: State, r: Outgoing): State {
    if r.buf == 0 then Ret(s, ENONE)
    else Blocked(Ret(s, ENONE), Curr(s), Sending, ThreadAt(s, Curr(s)).waitFor, r.buf, r.size)
  }

  function MoveOf(s: State, e: Event): Move {
    match e
    case Send(out, mapped, bufMapped) =>
      if SendError(s, out, mapped, bufMapped) != ENONE then Nothing
      else
        var target := Resolve(s, out.to, Curr(s).pid);
        Arrival(target, Sent(s, out), Woken(AtPost(s, out), target, PortOf(s, Curr(s))))
    case KernelSend(port, code, args) =>
      var target := Resolve(s, port, 0);
      Arrival(target, Message(IPORT_KERNEL, code, args, false), Woken(s, target, IPORT_KERNEL))
    case Recv(mapped, bufSize, bufMapped) =>
      if RecvError(s, mapped, bufSize, bufMapped) != ENONE then Nothing else Departure(Curr(s))
    case Drop(mapped) =>
      if mapped then Departure(Curr(s)) else Nothing
    case Wait(w) =>
      if Found(s, w) then Reorder(Curr(s), w) else Nothing
    case Run(_) => Nothing
    case Timer => Nothing
    case Yield => Nothing
    case Spawn(_) => Nothing
    case Launch(_, _) => Nothing
    case Dispatch(_, _, _) => Nothing
    case Kill(_) => Nothing
    case Fault => Nothing
  }

  /** The thread a step creates, or nobody. */
  function Newborn(s: State, e: Event): Uid {
    match e
    case Launch(pid, _) => if LaunchError(s, pid) == ENONE then Uid(pid, 0) else NOBODY
    case Dispatch(tid, _, _) => Uid(Curr(s).pid, tid)
    case _ => NOBODY
  }

  /** Threads alive before and after a step keep their port, and their queue makes the step's move. */
  ghost predicate Follows(s: State, t: State, move: Move) {
    forall v :: Live(s, v) && Live(t, v) ==>
      PortOf(t, v) == PortOf(s, v) && Queue(t, v) == Moved(move, v, Queue(s, v))
  }

  /** A step that neither creates nor destroys a thread. */
  ghost predicate Quiet(s: State, t: State, move: Move) {
    SamePeople(s, t) && forall v :: Queue(t, v) == Moved(move, v, Queue(s, v))
  }

  lemma QuietFollows(s: State, t: State, move: Move)
    requires Quiet(s, t, move)
    ensures Follows(s, t, move) && forall v :: Live(t, v) == Live(s, v)
  {
    hide Moved, PortOf, Queue;
    SamePeopleTable(s, t);
  }

  lemma SchedOnly(s: State, t: State)
    requires t.procs == s.procs && t.pvers == s.pvers
    ensures Quiet(s, t, Nothing)
  {}

  lemma QuietThen(s: State, a: State, t: State, move: Move)
    requires Quiet(s, a, move) && t.procs == a.procs && t.pvers == a.pvers
    ensures Quiet(s, t, move)
  {
    hide Moved, ThreadAt;
    SamePeopleVia(s, a, t);
    SameProcs(a, t);
  }

  lemma RetStates(s: State)
    requires StatesOk(s)
    ensures StatesOk(Ret(s, ENONE))
  {}

  lemma AtPostEffect(s: State, r: Outgoing)
    requires StatesOk(s) && s.sched.ring != []
    ensures
      var b := AtPost(s, r);
      && SamePeople(s, b) && StatesOk(b)
      && (forall v :: Queue(b, v) == Queue(s, v))
      && (forall v :: ThreadAt(b, v).waitFor == ThreadAt(s, v).waitFor)
      && (forall v :: RunOf(b, v) == if r.buf != 0 && v == Curr(s) then Sending else RunOf(s, v))
      && b.sched.ring == (if r.buf != 0 then s.sched.ring[1..] else s.sched.ring)
  {
    hide Blocked, SamePeople, ThreadAt, StatesOk, Live;
    var a, u := Ret(s, ENONE), Curr(s);
    RetStates(s);
    SameProcs(s, a);
    SchedOnly(s, a);
    if r.buf != 0 {
      BlockEffect(a, u, Sending, ThreadAt(s, u).waitFor, r.buf, r.size);
      BlockedStates(a, u, ThreadAt(s, u).waitFor, r.buf, r.size);
      SamePeopleTrans(s, a, AtPost(s, r));
    }
  }

  lemma SendQuiet(s: State, r: Outgoing, mapped: bool, bufMapped: bool)
    requires StatesOk(s) && s.sched.ring != []
    ensures Quiet(s, SendStep(s, r, mapped, bufMapped), MoveOf(s, Send(r, mapped, bufMapped)))
  {
    hide Compare, Post, PortOf, Resolve, AtPost, SamePeople, ThreadAt, StatesOk, SendError, Live, Queue, Woken;
    var error := SendError(s, r, mapped, bufMapped);
    if error != ENONE {
      SchedOnly(s, Ret(s, error));
    } else {
      var target, b, m := Resolve(s, r.to, Curr(s).pid), AtPost(s, r), Sent(s, r);
      AtPostEffect(s, r);
      SamePeopleTable(s, b);
      SendIsPost(s, r, mapped, bufMapped);
      PostEffect(b, target, m);
      PeopleTrans(s, b, Post(b, target, m));
      QuietThen(s, Post(b, target, m), SendStep(s, r, mapped, bufMapped), MoveOf(s, Send(r, mapped, bufMapped)));
    }
  }

  lemma SendIsPost(s: State, r: Outgoing, mapped: bool, bufMapped: bool)
    requires SendError(s, r, mapped, bufMapped) == ENONE
    ensures
      var t := Post(AtPost(s, r), Resolve(s, r.to, Curr(s).pid), Sent(s, r));
      SendStep(s, r, mapped, bufMapped) == if r.buf == 0 then t else Continue(t)
    ensures Live(s, Resolve(s, r.to, Curr(s).pid))
  {
    hide Post, Resolve, PortOf, ThreadAt;
  }

  lemma PeopleTrans(s: State, a: State, t: State)
    requires SamePeople(s, a) && SamePeople(a, t)
    ensures SamePeople(s, t)
  {}

  lemma BlockedStates(s: State, u: Uid, w: Port, addr: nat, size: nat)
    requires StatesOk(s) && s.sched.ring != [] && u == Curr(s)
    ensures StatesOk(Blocked(s, u, Sending, w, addr, size))
  {
    hide Blocked, SamePeople, QueueOk;
    BlockEffect(s, u, Sending, w, addr, size);
    SamePeopleTable(s, Blocked(s, u, Sending, w, addr, size));
  }

  lemma KernelSendQuiet(s: State, port: Port, code: nat, args: seq<nat>)
    requires StatesOk(s) && Live(s, Resolve(s, port, 0))
    ensures Quiet(s, KernelSendStep(s, port, code, args), MoveOf(s, KernelSend(port, code, args)))
  {
    hide Compare, Post, Resolve, SamePeople, ThreadAt, StatesOk, Live, Queue, Woken;
    PostEffect(s, Resolve(s, port, 0), Message(IPORT_KERNEL, code, args, false));
  }

  lemma TakeQuiet(s: State, sender: Uid, code: int)
    requires StatesOk(s) && Queue(s, Curr(s)) != [] && Addable(s, sender)
    ensures Quiet(s, Ret(Taken(s, Curr(s), sender), code), Departure(Curr(s)))
  {
    hide Taken, SamePeople, ThreadAt, StatesOk, Live, Queue, Addable;
    var u := Curr(s);
    CurrLive(s);
    TakenEffect(s, u, sender);
    QuietThen(s, Taken(s, u, sender), Ret(Taken(s, u, sender), code), Departure(u));
  }

  lemma RecvQuiet(s: State, mapped: bool, bufSize: nat, bufMapped: bool)
    requires StatesOk(s) && Enabled(s, Recv(mapped, bufSize, bufMapped))
    ensures Quiet(s, RecvStep(s, mapped, bufSize, bufMapped), MoveOf(s, Recv(mapped, bufSize, bufMapped)))
  {
    hide StatesOk, HeadSender, DropMail, Add, ThreadAt, Queue, Quiet, Addable;
    var u, sender := Curr(s), HeadSender(s, 0);
    var error := RecvError(s, mapped, bufSize, bufMapped);
    if error != ENONE {
      SchedOnly(s, Ret(s, error));
    } else {
      TakenEitherOrder(s, u, sender);
      TakeQuiet(s, sender, if sender != NOBODY then ThreadAt(s, sender).paySize else 0);
    }
  }

  lemma DropQuiet(s: State, mapped: bool)
    requires StatesOk(s) && Enabled(s, Drop(mapped))
    ensures Quiet(s, DropStep(s, mapped), MoveOf(s, Drop(mapped)))
  {
    hide StatesOk, HeadSender, DropMail, Add, ThreadAt, Queue, Addable;
    var u := Curr(s);
    SchedOnly(s, Ret(s, EPARAM));
    SchedOnly(s, Ret(s, ENOTAVAIL));
    if mapped && Queue(s, u) != [] {
      TakeQuiet(s, HeadSender(s, u.pid), ENONE);
    }
  }

  lemma WaitQuiet(s: State, w: Port)
    requires StatesOk(s) && s.sched.ring != []
    ensures Quiet(s, WaitStep(s, w), MoveOf(s, Wait(w)))
  {
    hide Compare, FindMail, SamePeople, ThreadAt, StatesOk, Live, Queue, Found, WaitError, Promote, Suspend, Request;
    var u, th, a := Curr(s), ThreadAt(s, Curr(s)), Ret(s, ENONE);
    CurrLive(s);
    if Found(s, w) {
      FindMailEffect(s, u, w);
      QuietThen(s, FindMail(s, u, w), Ret(FindMail(s, u, w), ENONE), Reorder(u, w));
    } else if WaitError(s, w) != ENONE {
      SchedOnly(s, Ret(s, WaitError(s, w)));
    } else {
      RetStates(s);
      var b := Blocked(a, u, Waiting, w, th.payAddr, th.paySize);
      BlockEffect(a, u, Waiting, w, th.payAddr, th.paySize);
      SchedOnly(s, a);
      SamePeopleTrans(s, a, b);
      QuietThen(s, b, Continue(b), Nothing);
    }
  }

  ghost predicate Change(s: State, t: State, move: Move, newborn: Uid) {
    && Follows(s, t, move)
    && (forall v :: Live(t, v) && !Live(s, v) ==> v == newborn && Queue(t, v) == [])
  }

  /** No port is forgotten, and nobody gets one that was handed out before. */
  ghost predicate PortsFollow(s: State, t: State) {
    PortsKept(s, t) && forall v :: Live(t, v) && !Live(s, v) ==> !KnownPort(s, PortOf(t, v))
  }

  lemma QuietChange(s: State, t: State, move: Move)
    requires Quiet(s, t, move)
    ensures Change(s, t, move, NOBODY) && PortsFollow(s, t)
  {
    hide Moved, PortOf, Queue, KnownPort, Live;
    QuietFollows(s, t, move);
    SamePeopleTable(s, t);
  }

  lemma SurvivorsChange(s: State, a: State, t: State)
    requires Survivors(s, a) && t.procs == a.procs && t.pvers == a.pvers
    ensures Change(s, t, Nothing, NOBODY)
    ensures PortsKept(s, a) ==> PortsFollow(s, t)
  {
    hide ThreadAt, PortOf, KnownPort, Live;
    SameProcs(a, t);
  }

  lemma StartChange(s: State, u: Uid, entry: nat, stack: nat, fallback: nat, code: int)
    requires TableOk(s) && CanOpen(s, u) && !Live(s, u)
    ensures Change(s, Ret(StartThread(s, u, entry, stack, fallback), code), Nothing, u)
    ensures s.procs[u.pid].tvers[u.tid] < 255 ==> PortsFollow(s, Ret(StartThread(s, u, entry, stack, fallback), code))
  {
    hide ThreadAt, PortOf, KnownPort, Live, StartThread, TableOk, Versioned;
    var a := StartThread(s, u, entry, stack, fallback);
    StartTable(s, u, entry, stack, fallback);
    SameProcs(a, Ret(a, code));
    if s.procs[u.pid].tvers[u.tid] < 255 {
      StartPorts(s, u, entry, stack, fallback);
    }
  }

  lemma LockSurvivors(s: State, a: State)
    requires Survivors(s.(sched := Lock(s.sched)), a)
    ensures Survivors(s, a)
    ensures PortsKept(s.(sched := Lock(s.sched)), a) ==> PortsKept(s, a)
  {
    hide ThreadAt, PortOf, KnownPort, Live;
    SameProcs(s, s.(sched := Lock(s.sched)));
  }

  lemma KillChange(s: State, pid: nat)
    requires TableOk(s)
    ensures Change(s, KillStep(s, pid), Nothing, NOBODY) && PortsFollow(s, KillStep(s, pid))
  {
    hide TableOk, Survivors, PortsKept, PortsFollow, Versioned, Change, Lock, Unlock, Return;
    var target, error, locked := KillTarget(s, pid), KillError(s, pid), s.(sched := Lock(s.sched));
    if error != ENONE {
      SchedOnly(s, Ret(s, error));
      QuietChange(s, Ret(s, error), Nothing);
    } else if target == Curr(s).pid {
      SameProcs(s, locked);
      EndProcessTable(locked, target);
      LockSurvivors(s, EndProcess(locked, target));
      SurvivorsChange(s, EndProcess(locked, target), KillStep(s, pid));
    } else {
      EndProcessTable(s, target);
      SurvivorsChange(s, EndProcess(s, target), KillStep(s, pid));
    }
  }

  lemma FaultChange(s: State)
    requires TableOk(s) && Live(s, Curr(s))
    ensures Change(s, FaultStep(s), Nothing, NOBODY) && PortsFollow(s, FaultStep(s))
  {
    hide TableOk, Survivors, PortsKept, PortsFollow, Versioned, Change, Lock, Unlock, Return;
    var u, locked := Curr(s), s.(sched := Lock(s.sched));
    SameProcs(s, locked);
    if u.tid == 0 {
      EndProcessTable(locked, u.pid);
      LockSurvivors(s, EndProcess(locked, u.pid));
      SurvivorsChange(s, EndProcess(locked, u.pid), FaultStep(s));
    } else {
      EndThreadTable(locked, u);
      LockSurvivors(s, EndThread(locked, u));
      SurvivorsChange(s, EndThread(locked, u), FaultStep(s));
    }
  }

  /** The effect of any step on mail and population, and of a step that wraps no version on ports. */
  lemma StepChange(s: State, e: Event)
    requires Core(s) && Enabled(s, e)
    ensures Change(s, Step(s, e), MoveOf(s, e), Newborn(s, e))
    ensures NoWrap(s, e) ==> PortsFollow(s, Step(s, e))
  {
    hide StatesOk, TableOk, NoLostWakeup, SendStep, RecvStep, DropStep, WaitStep, KernelSendStep, SpawnStep,
      StartThread, KillStep, FaultStep, Change, Quiet, Next, Tick, Survivors, PortsKept, PortsFollow, Versioned,
      HeadSender;
    CurrLive(s);
    var t := Step(s, e);
    match e {
      case Run(_) => SchedOnly(s, t); QuietChange(s, t, Nothing);
      case Timer => SchedOnly(s, t); QuietChange(s, t, Nothing);
      case Yield => SchedOnly(s, t); QuietChange(s, t, Nothing);
      case Send(out, mapped, bufMapped) => SendQuiet(s, out, mapped, bufMapped); QuietChange(s, t, MoveOf(s, e));
      case Recv(mapped, bufSize, bufMapped) =>
        RecvQuiet(s, mapped, bufSize, bufMapped);
        QuietChange(s, t, MoveOf(s, e));
      case Drop(mapped) => DropQuiet(s, mapped); QuietChange(s, t, MoveOf(s, e));
      case Wait(w) => WaitQuiet(s, w); QuietChange(s, t, MoveOf(s, e));
      case KernelSend(port, code, args) => KernelSendQuiet(s, port, code, args); QuietChange(s, t, MoveOf(s, e));
      case Spawn(pid) =>
        CurrOwner(s);
        SpawnTable(s, pid);
        SurvivorsChange(s, t, t);
      case Launch(pid, entry) =>
        if LaunchError(s, pid) == ENONE {
          StartChange(s, Uid(pid, 0), 0, 0, entry, ENONE);
        } else {
          SchedOnly(s, t);
          QuietChange(s, t, Nothing);
        }
      case Dispatch(tid, entry, stack) =>
        StartChange(s, Uid(Curr(s).pid, tid), entry, stack, s.procs[Curr(s).pid].entry, tid);
      case Kill(pid) => KillChange(s, pid);
      case Fault => FaultChange(s);
    }
  }

  // ----- Thread states -----

  /** A system call that completes by blocking its caller. */
  predicate Blocks(s: State, e: Event) {
    match e
    case Send(out, mapped, bufMapped) => SendError(s, out, mapped, bufMapped) == ENONE && out.buf != 0
    case Wait(w) => WaitBlocks(s, w)
    case _ => false
  }

  /** The thread a receiver lets go, normally the blocked sender of its message, or nobody. */
  function Released(s: State, e: Event): Uid {
    match e
    case Recv(mapped, bufSize, bufMapped) =>
      if RecvError(s, mapped, bufSize, bufMapped) == ENONE then HeadSender(s, 0) else NOBODY
    case Drop(mapped) => if mapped then HeadSender(s, Curr(s).pid) else NOBODY
    case _ => NOBODY
  }

  /** What a thread that survives the step is doing afterwards. */
  function NextState(s: State, e: Event, v: Uid): RunState {
    var move := MoveOf(s, e);
    if Blocks(s, e) && v == Curr(s) then (if e.Send? then Sending else Waiting)
    else if move.Arrival? && move.front && v == move.to then Active
    else if Released(s, e) != NOBODY && v == Released(s, e) then Active
    else RunOf(s, v)
  }

  function NextWaitFor(s: State, e: Event, v: Uid): Port {
    if e.Wait? && Blocks(s, e) && v == Curr(s) then e.port else ThreadAt(s, v).waitFor
  }

  ghost predicate StatesFollow(s: State, t: State, e: Event) {
    forall v :: Live(s, v) && Live(t, v) ==>
      RunOf(t, v) == NextState(s, e, v) && ThreadAt(t, v).waitFor == NextWaitFor(s, e, v)
  }

  /** Nobody's state or wish has changed. */
  ghost predicate SameRuns(s: State, t: State) {
    && (forall v :: RunOf(t, v) == RunOf(s, v))
    && (forall v :: ThreadAt(t, v).waitFor == ThreadAt(s, v).waitFor)
  }

  lemma QuietStates(s: State, t: State, e: Event)
    requires SameRuns(s, t) && !Blocks(s, e) && !MoveOf(s, e).Arrival? && Released(s, e) == NOBODY
    ensures StatesFollow(s, t, e)
  {
    hide MoveOf, Blocks, Released, RunOf, ThreadAt, Live;
  }

  /** The survivors' states and wishes are as before. */
  lemma OthersStates(s: State, t: State, e: Event)
    requires !Blocks(s, e) && !MoveOf(s, e).Arrival? && Released(s, e) == NOBODY
    requires forall v :: Live(s, v) && Live(t, v) ==> RunOf(t, v) == RunOf(s, v)
    requires forall v :: Live(s, v) && Live(t, v) ==> ThreadAt(t, v).waitFor == ThreadAt(s, v).waitFor
    ensures StatesFollow(s, t, e)
  {
    hide MoveOf, Blocks, Released, RunOf, ThreadAt, Live;
  }

  lemma SameRunsTrans(s: State, a: State, t: State)
    requires SameRuns(s, a) && SameRuns(a, t)
    ensures SameRuns(s, t)
  {
    hide RunOf, ThreadAt;
  }

  lemma SchedRuns(s: State, t: State)
    requires t.procs == s.procs && t.pvers == s.pvers && t.sched.run == s.sched.run
    ensures SameRuns(s, t)
  {
    hide ThreadAt;
    SameProcs(s, t);
  }

  lemma RetRuns(s: State, code: int)
    ensures SameRuns(s, Ret(s, code))
  {
    SchedRuns(s, Ret(s, code));
  }

  lemma ContinueRuns(s: State)
    ensures SameRuns(s, Continue(s))
  {
    SchedRuns(s, Continue(s));
  }

  lemma SendRuns(s: State, r: Outgoing, mapped: bool, bufMapped: bool)
    requires StatesOk(s) && s.sched.ring != [] && SendError(s, r, mapped, bufMapped) == ENONE
    ensures
      var t, target := SendStep(s, r, mapped, bufMapped), Resolve(s, r.to, Curr(s).pid);
      && (forall v :: ThreadAt(t, v).waitFor == ThreadAt(s, v).waitFor)
      && (forall v :: RunOf(t, v) == if r.buf != 0 && v == Curr(s) then Sending
                                     else if Woken(AtPost(s, r), target, PortOf(s, Curr(s))) && v == target then Active
                                     else RunOf(s, v))
  {
    hide Compare, Post, PortOf, Resolve, AtPost, SamePeople, StatesOk, SendError, Live, Queue, ThreadAt, Woken, RunOf,
      SendStep, Continue;
    var target, b, m := Resolve(s, r.to, Curr(s).pid), AtPost(s, r), Sent(s, r);
    AtPostEffect(s, r);
    SamePeopleTable(s, b);
    SendIsPost(s, r, mapped, bufMapped);
    PostEffect(b, target, m);
    ContinueRuns(Post(b, target, m));
    WokenIsWaiting(b, target, m.from);
  }

  lemma SendStates(s: State, r: Outgoing, mapped: bool, bufMapped: bool)
    requires StatesOk(s) && s.sched.ring != []
    ensures StatesFollow(s, SendStep(s, r, mapped, bufMapped), Send(r, mapped, bufMapped))
  {
    hide PortOf, Resolve, AtPost, StatesOk, SendError, Live, ThreadAt, Woken, RunOf, Ret;
    var error := SendError(s, r, mapped, bufMapped);
    if error != ENONE {
      RetRuns(s, error);
      QuietStates(s, Ret(s, error), Send(r, mapped, bufMapped));
    } else {
      hide SendStep;
      SendRuns(s, r, mapped, bufMapped);
    }
  }

  lemma WokenIsWaiting(s: State, u: Uid, p: Port)
    ensures Woken(s, u, p) ==> RunOf(s, u) == Waiting
  {}

  lemma CurrRuns(s: State)
    requires StatesOk(s) && s.sched.ring != []
    ensures RunOf(s, Curr(s)) == Active
  {}

  lemma KernelSendStates(s: State, port: Port, code: nat, args: seq<nat>)
    requires StatesOk(s) && Live(s, Resolve(s, port, 0))
    ensures StatesFollow(s, KernelSendStep(s, port, code, args), KernelSend(port, code, args))
  {
    hide Compare, Post, Resolve, SamePeople, ThreadAt, StatesOk, Live, Queue, Woken;
    PostEffect(s, Resolve(s, port, 0), Message(IPORT_KERNEL, code, args, false));
  }

  lemma TakeStates(s: State, e: Event, code: int)
    requires StatesOk(s) && Queue(s, Curr(s)) != [] && (e.Recv? || e.Drop?) && Addable(s, Released(s, e))
    ensures StatesFollow(s, Ret(Taken(s, Curr(s), Released(s, e)), code), e)
  {
    hide Taken, Released, SamePeople, ThreadAt, StatesOk, Live, Queue, Addable;
    var u, sender := Curr(s), Released(s, e);
    CurrLive(s);
    TakenEffect(s, u, sender);
    SameProcs(Taken(s, u, sender), Ret(Taken(s, u, sender), code));
    assert forall v :: RunOf(Ret(Taken(s, u, sender), code), v) == RunOf(Taken(s, u, sender), v);
  }

  lemma SchedStates(s: State, t: State, e: Event)
    requires t.procs == s.procs && t.pvers == s.pvers && t.sched.run == s.sched.run
    requires !Blocks(s, e) && !MoveOf(s, e).Arrival? && Released(s, e) == NOBODY
    ensures StatesFollow(s, t, e)
  {
    hide ThreadAt, Live;
    SameProcs(s, t);
  }

  lemma RecvStates(s: State, mapped: bool, bufSize: nat, bufMapped: bool)
    requires StatesOk(s) && Enabled(s, Recv(mapped, bufSize, bufMapped))
    ensures StatesFollow(s, RecvStep(s, mapped, bufSize, bufMapped), Recv(mapped, bufSize, bufMapped))
  {
    hide StatesOk, HeadSender, DropMail, Add, ThreadAt, Queue, StatesFollow, Addable;
    var e, u, sender := Recv(mapped, bufSize, bufMapped), Curr(s), HeadSender(s, 0);
    var error := RecvError(s, mapped, bufSize, bufMapped);
    if error != ENONE {
      SchedStates(s, Ret(s, error), e);
    } else {
      TakenEitherOrder(s, u, sender);
      TakeStates(s, e, if sender != NOBODY then ThreadAt(s, sender).paySize else 0);
    }
  }

  lemma DropStates(s: State, mapped: bool)
    requires StatesOk(s) && Enabled(s, Drop(mapped))
    ensures StatesFollow(s, DropStep(s, mapped), Drop(mapped))
  {
    hide StatesOk, DropMail, Add, ThreadAt, Queue, StatesFollow, Resolve, Addable;
    var u := Curr(s);
    if !mapped {
      SchedStates(s, Ret(s, EPARAM), Drop(mapped));
    } else if Queue(s, u) == [] {
      SchedStates(s, Ret(s, ENOTAVAIL), Drop(mapped));
    } else {
      TakeStates(s, Drop(mapped), ENONE);
    }
  }

  /** The wait ends at once. */
  lemma WaitFoundStates(s: State, w: Port)
    requires StatesOk(s) && s.sched.ring != [] && Found(s, w)
    ensures StatesFollow(s, WaitStep(s, w), Wait(w))
  {
    hide StatesOk, Live, Found, FindMail, SamePeople, ThreadAt, RunOf, Queue, Promote, Ret;
    var u := Curr(s);
    CurrLive(s);
    FindMailEffect(s, u, w);
    SameSched(s, FindMail(s, u, w));
    RetRuns(FindMail(s, u, w), ENONE);
    SameRunsTrans(s, FindMail(s, u, w), WaitStep(s, w));
    QuietStates(s, WaitStep(s, w), Wait(w));
  }

  lemma WaitBlockedStates(s: State, w: Port)
    requires StatesOk(s) && s.sched.ring != [] && WaitBlocks(s, w)
    ensures StatesFollow(s, WaitStep(s, w), Wait(w))
  {
    hide StatesOk, Live, Found, SamePeople, ThreadAt, RunOf, Queue, WaitError, Ret, Blocked, Continue;
    var u, th, a := Curr(s), ThreadAt(s, Curr(s)), Ret(s, ENONE);
    CurrLive(s);
    RetStates(s);
    RetRuns(s, ENONE);
    RetCurr(s);
    var b := Blocked(a, u, Waiting, w, th.payAddr, th.paySize);
    BlockEffect(a, u, Waiting, w, th.payAddr, th.paySize);
    ContinueRuns(b);
    WaitIsBlock(s, w);
    hide WaitStep;
  }

  lemma RetCurr(s: State)
    ensures Curr(Ret(s, ENONE)) == Curr(s) && Ret(s, ENONE).sched.ring == s.sched.ring
  {}

  lemma WaitIsBlock(s: State, w: Port)
    requires WaitBlocks(s, w)
    ensures
      var u, th := Curr(s), ThreadAt(s, Curr(s));
      WaitStep(s, w) == Continue(Blocked(Ret(s, ENONE), u, Waiting, w, th.payAddr, th.paySize))
  {
    hide Found, WaitError, ThreadAt, Ret, Suspend, Request;
  }

  lemma WaitStates(s: State, w: Port)
    requires StatesOk(s) && s.sched.ring != []
    ensures StatesFollow(s, WaitStep(s, w), Wait(w))
  {
    hide StatesOk, Found, WaitError, StatesFollow, FindMail, Suspend, Request, Ret;
    if Found(s, w) {
      WaitFoundStates(s, w);
    } else if WaitError(s, w) != ENONE {
      RetRuns(s, WaitError(s, w));
      QuietStates(s, Ret(s, WaitError(s, w)), Wait(w));
    } else {
      WaitBlockedStates(s, w);
    }
  }

  /** Ending threads changes nothing about the others. */
  lemma EndStates(s: State, a: State, t: State, e: Event)
    requires e.Kill? || e.Fault? || e.Spawn?
    requires Survivors(s, a) && t.procs == a.procs && t.pvers == a.pvers && t.sched.run == a.sched.run
    requires forall v :: v in a.sched.run ==> v in s.sched.run && a.sched.run[v] == s.sched.run[v]
    requires StatesOk(a)
    ensures StatesFollow(s, t, e)
  {
    hide PortOf, KnownPort, QueueOk, ThreadAt, StatesFollow, Live;
    SameProcs(a, t);
    SurvivorsRun(s, a);
    SchedRuns(a, t);
    OthersStates(s, t, e);
  }

  lemma SurvivorsRun(s: State, a: State)
    requires Survivors(s, a) && StatesOk(a)
    requires forall v :: v in a.sched.run ==> v in s.sched.run && a.sched.run[v] == s.sched.run[v]
    ensures forall v :: Live(a, v) ==> RunOf(a, v) == RunOf(s, v) && ThreadAt(a, v) == ThreadAt(s, v)
  {
    hide PortOf, KnownPort, QueueOk, ThreadAt;
  }

  lemma EndProcessRun(s: State, pid: nat)
    requires Core(s) && pid in s.procs
    ensures
      var a := EndProcess(s.(sched := Lock(s.sched)), pid);
      && StatesOk(a) && StatesOk(EndProcess(s, pid)) && a.sched.run == EndProcess(s, pid).sched.run
      && a.procs == EndProcess(s, pid).procs && a.pvers == s.pvers
      && (forall v :: v in a.sched.run ==> v in s.sched.run && a.sched.run[v] == s.sched.run[v])
      && a.sched.ring == EndProcess(s, pid).sched.ring == Keep(s.sched.ring, ThreadsIn(s, pid))
  {
    hide Core, Fresh, StatesOk, QueueOk, Keep, Leave, RemoveAll, Lock;
    var locked, gone := s.(sched := Lock(s.sched)), ThreadsIn(s, pid);
    LockKeeps(s);
    EndProcessKeeps(s, pid);
    EndProcessKeeps(locked, pid);
    CoreStates(s);
    CoreStates(EndProcess(s, pid));
    CoreStates(EndProcess(locked, pid));
    LockLeaves(s.sched, gone);
    LeaveKeepsQueue(s.sched, gone);
  }

  lemma CoreStates(s: State)
    requires Core(s)
    ensures StatesOk(s) && QueueOk(s.sched)
  {}

  lemma CoreTable(s: State)
    requires Core(s)
    ensures TableOk(s)
  {}

  lemma LockLeaves(s: Sched, gone: set<Uid>)
    ensures Lock(s).run == s.run && Lock(s).ring == s.ring
    ensures Leave(RemoveAll(Lock(s), gone), gone).run == Leave(RemoveAll(s, gone), gone).run
    ensures Leave(RemoveAll(Lock(s), gone), gone).ring == Leave(RemoveAll(s, gone), gone).ring
  {}

  lemma EndThreadRun(s: State, u: Uid)
    requires Core(s) && Live(s, u)
    ensures
      var a := EndThread(s.(sched := Lock(s.sched)), u);
      && StatesOk(a) && a.procs == EndThread(s, u).procs
      && (forall v :: v in a.sched.run ==> v in s.sched.run && a.sched.run[v] == s.sched.run[v])
      && a.sched.ring == Keep(s.sched.ring, {u})
  {
    hide Core, Fresh, StatesOk, QueueOk, Keep, Leave, RemoveAll, Lock, Live, Versioned;
    var locked := s.(sched := Lock(s.sched));
    LockKeeps(s);
    SameProcs(s, locked);
    EndThreadKeeps(locked, u);
    CoreStates(s);
    CoreStates(EndThread(locked, u));
    LockLeaves(s.sched, {u});
    LeaveKeepsQueue(s.sched, {u});
  }

  lemma KillStates(s: State, pid: nat)
    requires Core(s)
    ensures StatesFollow(s, KillStep(s, pid), Kill(pid))
  {
    hide StatesOk, TableOk, NoLostWakeup, Survivors, PortsKept, Versioned, StatesFollow, Lock, Unlock,
      Return, EndProcess;
    var target, error, locked := KillTarget(s, pid), KillError(s, pid), s.(sched := Lock(s.sched));
    if error != ENONE {
      RunSame(s, error);
      SchedStates(s, Ret(s, error), Kill(pid));
    } else {
      EndProcessRun(s, target);
      EndProcessTable(s, target);
      SameProcs(s, locked);
      EndProcessTable(locked, target);
      LockSurvivors(s, EndProcess(locked, target));
      RunSame(EndProcess(s, target), ENONE);
      ContinueSame(EndProcess(locked, target));
      EndStates(s, EndProcess(locked, target), Continue(EndProcess(locked, target)), Kill(pid));
      EndStates(s, EndProcess(s, target), Ret(EndProcess(s, target), ENONE), Kill(pid));
    }
  }

  lemma RunSame(s: State, code: int)
    ensures Ret(s, code).sched.run == s.sched.run && Ret(s, code).sched.ring == s.sched.ring
  {}

  lemma ContinueSame(s: State)
    ensures Continue(s).sched.run == s.sched.run && Continue(s).sched.ring == s.sched.ring
  {}

  lemma FaultStates(s: State)
    requires Core(s) && Live(s, Curr(s))
    ensures StatesFollow(s, FaultStep(s), Fault)
  {
    hide StatesOk, TableOk, NoLostWakeup, Survivors, PortsKept, Versioned, StatesFollow, Lock, Unlock,
      Return, EndProcess, EndThread;
    var u, locked := Curr(s), s.(sched := Lock(s.sched));
    SameProcs(s, locked);
    if u.tid == 0 {
      EndProcessRun(s, u.pid);
      EndProcessTable(locked, u.pid);
      LockSurvivors(s, EndProcess(locked, u.pid));
      ContinueSame(EndProcess(locked, u.pid));
      EndStates(s, EndProcess(locked, u.pid), FaultStep(s), Fault);
    } else {
      EndThreadRun(s, u);
      EndThreadTable(locked, u);
      LockSurvivors(s, EndThread(locked, u));
      ContinueSame(EndThread(locked, u));
      EndStates(s, EndThread(locked, u), FaultStep(s), Fault);
    }
  }

  lemma StartStates(s: State, u: Uid, entry: nat, stack: nat, fallback: nat, code: int, e: Event)
    requires Core(s) && CanOpen(s, u) && !Live(s, u)
    requires e.Launch? || e.Dispatch?
    ensures StatesFollow(s, Ret(StartThread(s, u, entry, stack, fallback), code), e)
  {
    hide TableOk, StatesOk, Live, NoLostWakeup, ThreadAt, PortOf, Queue, StatesFollow, RunOf, StartThread, Ret;
    var a := StartThread(s, u, entry, stack, fallback);
    StartTable(s, u, entry, stack, fallback);
    StartRun(s, u, entry, stack, fallback);
    RetRuns(a, code);
    RetLive(a, code);
    OthersStates(s, Ret(a, code), e);
  }

  lemma StartRun(s: State, u: Uid, entry: nat, stack: nat, fallback: nat)
    requires CanOpen(s, u)
    ensures forall v :: v != u ==> RunOf(StartThread(s, u, entry, stack, fallback), v) == RunOf(s, v)
  {}

  lemma RetLive(s: State, code: int)
    ensures forall v :: Live(Ret(s, code), v) == Live(s, v)
  {}

  /** The effect of any step on what the threads are doing. */
  lemma StepStates(s: State, e: Event)
    requires Core(s) && Enabled(s, e)
    ensures StatesFollow(s, Step(s, e), e)
  {
    hide StatesOk, TableOk, NoLostWakeup, Fresh, SendStep, RecvStep, DropStep, WaitStep, KernelSendStep, SpawnStep,
      StartThread, KillStep, FaultStep, StatesFollow, Survivors, PortsKept, Versioned, HeadSender;
    CurrLive(s);
    var t := Step(s, e);
    match e {
      case Run(_) => SchedStates(s, t, e);
      case Timer => SchedStates(s, t, e);
      case Yield => SchedStates(s, t, e);
      case Send(out, mapped, bufMapped) => SendStates(s, out, mapped, bufMapped);
      case Recv(mapped, bufSize, bufMapped) => RecvStates(s, mapped, bufSize, bufMapped);
      case Drop(mapped) => DropStates(s, mapped);
      case Wait(w) => WaitStates(s, w);
      case KernelSend(port, code, args) => KernelSendStates(s, port, code, args);
      case Spawn(pid) =>
        CurrOwner(s);
        SpawnTable(s, pid);
        SpawnKeeps(s, pid);
        SpawnRun(s, pid);
        EndStates(s, t, t, e);
      case Launch(pid, entry) =>
        if LaunchError(s, pid) == ENONE {
          StartStates(s, Uid(pid, 0), 0, 0, entry, ENONE, e);
        } else {
          SchedStates(s, t, e);
        }
      case Dispatch(tid, entry, stack) =>
        StartStates(s, Uid(Curr(s).pid, tid), entry, stack, s.procs[Curr(s).pid].entry, tid, e);
      case Kill(pid) => KillStates(s, pid);
      case Fault => FaultStates(s);
    }
  }

  lemma SpawnRun(s: State, pid: nat)
    requires pid < |s.pvers| && s.pvers[pid] < 256
    ensures SpawnStep(s, pid).sched.run == s.sched.run && SpawnStep(s, pid).sched.ring == s.sched.ring
  {}
}
