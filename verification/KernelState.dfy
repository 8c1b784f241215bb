/** The kernel as a state machine: processes, threads, mail and the run queue.

    Interrupts are off inside the kernel, so every system call, kernel message and timer
    interrupt is one atomic step.  The step functions follow the system calls in
    kernel/core/system; whether a user pointer is mapped is a parameter of a step. */
module KernelState {
  import opened Ports
  import opened RunQueue
  import opened Mail

  datatype State = State(
    pvers: seq<nat>,          // version counter of every process slot
    procs: map<nat, Proc>,    // live processes
    sched: Sched
  )

  const ENONE := 0
  const EPARAM := -1
  const EPRIV := -2
  const EADDR := -3
  const ESIZE := -4
  const EALIGN := -5
  const ENOTAVAIL := -6
  const EINVALID := -7
  const ENORES := -8

  // ----- Reading the state -----

  predicate Live(s: State, u: Uid) {
    u.pid in s.procs && u.tid in s.procs[u.pid].threads
  }

  function ThreadAt(s: State, u: Uid): Thread {
    if Live(s, u) then s.procs[u.pid].threads[u.tid] else Thread(0, Port(0, 0, 0, 0), 0, 0, [])
  }

  function Queue(s: State, u: Uid): seq<Message> {
    ThreadAt(s, u).queue
  }

  function RunOf(s: State, u: Uid): RunState {
    if u in s.sched.run then s.sched.run[u] else Old
  }

  /** The calling thread: the head of the run queue. */
  function Curr(s: State): Uid {
    if s.sched.ring == [] then NOBODY else s.sched.ring[0]
  }

  function PortOf(s: State, u: Uid): Port {
    if Live(s, u) then Port(u.pid, s.procs[u.pid].version, u.tid, ThreadAt(s, u).version) else Port(0, 0, 0, 0)
  }

  /** The thread a port leads to, or nobody. */
  function Resolve(s: State, port: Port, parent: nat): Uid {
    if port == IPORT_ANY || port == IPORT_KERNEL then
      Uid(1, port.tid)
    else if port.Unversioned() then
      if port.pid == 0 then Uid(parent, port.tid) else Uid(port.pid, 0)
    else
      var u := Uid(port.pid, port.tid);
      if !Live(s, u) || s.procs[u.pid].version != port.pvn || ThreadAt(s, u).version != port.tvn then NOBODY else u
  }

  function Room(s: State, pid: nat): bool {
    pid in s.procs && s.procs[pid].used < PROCESS_MESSAGE_MAX
  }

  // ----- Small changes -----

  function SetProc(s: State, pid: nat, p: Proc): State {
    s.(procs := s.procs[pid := p])
  }

  function Ret(s: State, code: int): State {
    s.(sched := Return(s.sched, code))
  }

  function AddMail(s: State, u: Uid, m: Message, head: bool): State {
    if Live(s, u) then SetProc(s, u.pid, Deliver(s.procs[u.pid], u.tid, m, head)) else s
  }

  function DropMail(s: State, u: Uid): State {
    if Live(s, u) then SetProc(s, u.pid, TakeFirst(s.procs[u.pid], u.tid)) else s
  }

  function FindMail(s: State, u: Uid, w: Port): State {
    if Live(s, u) then SetProc(s, u.pid, SetQueue(s.procs[u.pid], u.tid, Promote(Queue(s, u), w))) else s
  }

  function Request(s: State, u: Uid, waitFor: Port, addr: nat, size: nat): State {
    if Live(s, u) then SetProc(s, u.pid, SetRequest(s.procs[u.pid], u.tid, waitFor, addr, size)) else s
  }

  function Wake(s: State, u: Uid): State {
    s.(sched := Add(s.sched, u))
  }

  /** Take the running thread out of the queue, saving its registers. */
  function Suspend(s: State, u: Uid, why: RunState): State {
    s.(sched := Block(Remove(Lock(s.sched), u), u, why))
  }

  function Continue(s: State): State {
    s.(sched := Unlock(s.sched))
  }

  // ----- Sending -----

  datatype Outgoing = Outgoing(to: Port, code: nat, args: seq<nat>, buf: nat, size: nat)

  function SendError(s: State, r: Outgoing, mapped: bool, bufMapped: bool): (code: int) {
    var target := Resolve(s, r.to, Curr(s).pid);
    if !mapped || Compare(r.to, PortOf(s, Curr(s))) then EPARAM
    else if target.pid == 0 then EINVALID
    else if !Live(s, target) then ENOTAVAIL
    else if !Room(s, target.pid) then ENORES
    else if r.buf != 0 && r.size == 0 then ESIZE
    else if r.buf != 0 && !bufMapped then EADDR
    else ENONE
  }

  function Woken(s: State, target: Uid, from: Port): bool {
    RunOf(s, target) == Waiting && Compare(ThreadAt(s, target).waitFor, from)
  }

  /** A message reaches `target`: in front if that wakes it up, else at the end. */
  function Post(s: State, target: Uid, m: Message): State {
    var woken := Woken(s, target, m.from);
    var posted := AddMail(s, target, m, woken);
    if woken then Wake(posted, target) else posted
  }

  function SendStep(s: State, r: Outgoing, mapped: bool, bufMapped: bool): State {
    var error := SendError(s, r, mapped, bufMapped);
    if error != ENONE then
      Ret(s, error)
    else
      var caller, target := Curr(s), Resolve(s, r.to, Curr(s).pid);
      var m := Message(PortOf(s, caller), r.code, r.args, r.size > 0);
      if r.buf == 0 then
        Post(Ret(s, ENONE), target, m)
      else
        var blocked := Request(Suspend(Ret(s, ENONE), caller, Sending),
                               caller, ThreadAt(s, caller).waitFor, r.buf, r.size);
        Continue(Post(blocked, target, m))
  }

  function KernelSendStep(s: State, port: Port, code: nat, args: seq<nat>): State {
    Post(s, Resolve(s, port, 0), Message(IPORT_KERNEL, code, args, false))
  }

  // ----- Receiving -----

  /** The blocked sender whose payload waits at the head of the caller's queue, or nobody. */
  function HeadSender(s: State, parent: nat): Uid {
    var q := Queue(s, Curr(s));
    if q != [] && q[0].payload then Resolve(s, q[0].from, parent) else NOBODY
  }

  function RecvError(s: State, mapped: bool, bufSize: nat, bufMapped: bool): (code: int) {
    var sender := HeadSender(s, 0);
    if !mapped then EPARAM
    else if Queue(s, Curr(s)) == [] then ENOTAVAIL
    else if sender != NOBODY && (bufSize == 0 || bufSize < ThreadAt(s, sender).paySize) then ESIZE
    else if sender != NOBODY && !bufMapped then EADDR
    else ENONE
  }

  function RecvStep(s: State, mapped: bool, bufSize: nat, bufMapped: bool): State {
    var error, sender := RecvError(s, mapped, bufSize, bufMapped), HeadSender(s, 0);
    if error != ENONE then
      Ret(s, error)
    else
      var woken := if sender != NOBODY then Wake(s, sender) else s;
      Ret(DropMail(woken, Curr(s)), if sender != NOBODY then ThreadAt(s, sender).paySize else 0)
  }

  function DropStep(s: State, mapped: bool): State {
    if !mapped then Ret(s, EPARAM)
    else if Queue(s, Curr(s)) == [] then Ret(s, ENOTAVAIL)
    else
      var sender := HeadSender(s, Curr(s).pid);
      var dropped := DropMail(s, Curr(s));
      Ret(if sender != NOBODY then Wake(dropped, sender) else dropped, ENONE)
  }

  // ----- Waiting -----

  function WaitError(s: State, w: Port): (code: int) {
    var target := Resolve(s, w, Curr(s).pid);
    if target == NOBODY then EINVALID
    else if target.pid == 0 && !Live(s, Uid(Curr(s).pid, target.tid)) then ENOTAVAIL
    else if target.pid > 1 && !Live(s, target) then ENOTAVAIL
    else ENONE
  }

  predicate Found(s: State, w: Port) {
    FirstMatch(Queue(s, Curr(s)), w) < |Queue(s, Curr(s))|
  }

  predicate WaitBlocks(s: State, w: Port) {
    !Found(s, w) && WaitError(s, w) == ENONE
  }

  function WaitStep(s: State, w: Port): State {
    var u := Curr(s);
    if Found(s, w) then
      Ret(FindMail(s, u, w), ENONE)
    else if WaitError(s, w) != ENONE then
      Ret(s, WaitError(s, w))
    else
      var th := ThreadAt(s, u);
      Continue(Request(Suspend(Ret(s, ENONE), u, Waiting), u, w, th.payAddr, th.paySize))
  }

  // ----- Threads and processes -----

  /** A process without threads in slot `pid`, as a child of `owner`. */
  function NewProcess(s: State, pid: nat, owner: nat): State
    requires pid < |s.pvers| && s.pvers[pid] < 256
  {
    var version, known := NextVersion(s.pvers[pid]), owner in s.procs;
    var p := Proc(version, if known then owner else 0, if known then s.procs[owner].priv else 2,
                  0, seq(PROCESS_THREAD_MAX, _ => 0), map[], 0);
    SetProc(s, pid, p).(pvers := s.pvers[pid := version])
  }

  function SpawnStep(s: State, pid: nat): State
    requires pid < |s.pvers| && s.pvers[pid] < 256
  {
    Ret(NewProcess(s, pid, Curr(s).pid), pid)
  }

  predicate CanOpen(s: State, u: Uid) {
    u.pid in s.procs && u.tid < |s.procs[u.pid].tvers| && s.procs[u.pid].tvers[u.tid] < 256
  }

  /** Create thread `u` and make it runnable.  Without an entry point of its own it starts at
      that of its process, which is `fallback` from now on. */
  function StartThread(s: State, u: Uid, entry: nat, stack: nat, fallback: nat): State
    requires CanOpen(s, u)
  {
    var created := SetProc(s, u.pid, AddThread(s.procs[u.pid], u.tid).(entry := fallback));
    created.(sched := Add(Enter(s.sched, u, if entry != 0 then entry else fallback, stack), u))
  }

  function LaunchError(s: State, pid: nat): (code: int) {
    var owner := Curr(s).pid;
    if pid !in s.procs then ENOTAVAIL
    else if s.procs[pid].threads != map[] then EINVALID
    else if s.procs[pid].parent != owner && owner in s.procs && s.procs[owner].priv == 0 then EPRIV
    else ENONE
  }

  function LaunchStep(s: State, pid: nat, entry: nat): State
    requires LaunchError(s, pid) == ENONE ==> CanOpen(s, Uid(pid, 0))
  {
    if LaunchError(s, pid) != ENONE then Ret(s, LaunchError(s, pid))
    else Ret(StartThread(s, Uid(pid, 0), 0, 0, entry), ENONE)
  }

  function DispatchStep(s: State, tid: nat, entry: nat, stack: nat): State
    requires CanOpen(s, Uid(Curr(s).pid, tid))
  {
    Ret(StartThread(s, Uid(Curr(s).pid, tid), entry, stack, s.procs[Curr(s).pid].entry), tid)
  }

  /** The live threads of a process. */
  function ThreadsIn(s: State, pid: nat): set<Uid> {
    set u | u in s.sched.run && u.pid == pid
  }

  /** Take the threads of `pid` out of the queue and destroy the process. */
  function EndProcess(s: State, pid: nat): State {
    var gone := ThreadsIn(s, pid);
    s.(procs := s.procs - {pid}, sched := Leave(RemoveAll(s.sched, gone), gone))
  }

  function EndThread(s: State, u: Uid): State {
    var left := if u.pid in s.procs then SetProc(s, u.pid, RemoveThread(s.procs[u.pid], u.tid)) else s;
    left.(sched := Leave(Remove(s.sched, u), {u}))
  }

  function KillTarget(s: State, pid: nat): nat {
    if pid == 0 then Curr(s).pid else pid
  }

  function KillError(s: State, pid: nat): (code: int) {
    var owner, target := Curr(s).pid, KillTarget(s, pid);
    if target !in s.procs then ENOTAVAIL
    else if owner in s.procs && s.procs[owner].priv < s.procs[target].priv then EPRIV
    else ENONE
  }

  function KillStep(s: State, pid: nat): State {
    var target := KillTarget(s, pid);
    if KillError(s, pid) != ENONE then
      Ret(s, KillError(s, pid))
    else if target == Curr(s).pid then
      Continue(EndProcess(s.(sched := Lock(s.sched)), target))
    else
      Ret(EndProcess(s, target), ENONE)
  }

  /** The running thread faults: its main thread takes the whole process with it. */
  function FaultStep(s: State): State {
    var u, locked := Curr(s), s.(sched := Lock(s.sched));
    Continue(if u.tid == 0 then EndProcess(locked, u.pid) else EndThread(locked, u))
  }

  // ----- Runs -----

  datatype Event =
    | Run(frame: Frame)            // the running thread computes
    | Timer
    | Yield
    | Send(out: Outgoing, mapped: bool, bufMapped: bool)
    | Recv(mapped: bool, bufSize: nat, bufMapped: bool)
    | Drop(mapped: bool)
    | Wait(port: Port)
    | KernelSend(port: Port, code: nat, args: seq<nat>)
    | Spawn(pid: nat)
    | Launch(pid: nat, entry: nat)
    | Dispatch(tid: nat, entry: nat, stack: nat)
    | Kill(pid: nat)
    | Fault

  /** The kernel lets go of `x` only if it is alive and not in the run queue already. */
  predicate Addable(s: State, x: Uid) {
    x != NOBODY ==> Live(s, x) && RunOf(s, x) != Active
  }

  /** What the kernel needs to carry out a step: its own assertions hold, some thread is left to run, and
      the sender that a receive looks up is there. */
  predicate Enabled(s: State, e: Event) {
    && s.sched.ring != []
    && match e
       case Send(out, mapped, bufMapped) => SendStep(s, out, mapped, bufMapped).sched.ring != []
       case Recv(mapped, bufSize, bufMapped) =>
         var x := HeadSender(s, 0);
         && (mapped && x != NOBODY ==> Live(s, x))
         && (RecvError(s, mapped, bufSize, bufMapped) == ENONE ==> Addable(s, x))
       case Drop(mapped) => mapped ==> Addable(s, HeadSender(s, Curr(s).pid))
       case Wait(port) => WaitBlocks(s, port) ==> |s.sched.ring| > 1
       case KernelSend(port, _, _) =>
         var t := Resolve(s, port, 0);
         Live(s, t) && Room(s, t.pid)
       case Spawn(pid) => 2 <= pid < PROCESS_MAX && pid !in s.procs && pid < |s.pvers| && s.pvers[pid] < 256
       case Launch(pid, _) => LaunchError(s, pid) == ENONE ==> CanOpen(s, Uid(pid, 0))
       case Dispatch(tid, _, _) => CanOpen(s, Uid(Curr(s).pid, tid)) && !Live(s, Uid(Curr(s).pid, tid))
       case Kill(pid) => KillStep(s, pid).sched.ring != []
       case Fault => FaultStep(s).sched.ring != []
       case Run(_) => true
       case Timer => true
       case Yield => true
  }

  function Step(s: State, e: Event): State
    requires Enabled(s, e)
  {
    match e
    case Run(frame) => s.(sched := s.sched.(frame := frame))
    case Timer => s.(sched := Tick(s.sched))
    case Yield => s.(sched := Next(Return(s.sched, ENONE)))
    case Send(out, mapped, bufMapped) => SendStep(s, out, mapped, bufMapped)
    case Recv(mapped, bufSize, bufMapped) => RecvStep(s, mapped, bufSize, bufMapped)
    case Drop(mapped) => DropStep(s, mapped)
    case Wait(port) => WaitStep(s, port)
    case KernelSend(port, code, args) => KernelSendStep(s, port, code, args)
    case Spawn(pid) => SpawnStep(s, pid)
    case Launch(pid, entry) => LaunchStep(s, pid, entry)
    case Dispatch(tid, entry, stack) => DispatchStep(s, tid, entry, stack)
    case Kill(pid) => KillStep(s, pid)
    case Fault => FaultStep(s)
  }

  ghost predicate Runs(s: State, events: seq<Event>)
    decreases |events|
  {
    events == [] || (Enabled(s, events[0]) && Runs(Step(s, events[0]), events[1..]))
  }

  ghost function After(s: State, events: seq<Event>): State
    requires Runs(s, events)
    decreases |events|
  {
    if events == [] then s else After(Step(s, events[0]), events[1..])
  }

  // ----- Orderly runs -----

  /** The step wraps no version counter. */
  predicate NoWrap(s: State, e: Event)
    requires Enabled(s, e)
  {
    match e
    case Spawn(pid) => s.pvers[pid] < 255
    case Launch(pid, _) => LaunchError(s, pid) == ENONE ==> s.procs[pid].tvers[0] < 255
    case Dispatch(tid, _, _) => s.procs[Curr(s).pid].tvers[tid] < 255
    case _ => true
  }

  ghost predicate NoWrapRun(s: State, events: seq<Event>)
    decreases |events|
  {
    events == []
    || (Enabled(s, events[0]) && NoWrap(s, events[0]) && NoWrapRun(Step(s, events[0]), events[1..]))
  }

  /** Nor does it send a payload size without a buffer. */
  predicate Orderly(s: State, e: Event)
    requires Enabled(s, e)
  {
    && NoWrap(s, e)
    && (e.Send? && SendError(s, e.out, e.mapped, e.bufMapped) == ENONE && e.out.buf == 0 ==> e.out.size == 0)
  }

  ghost predicate OrderlyRun(s: State, events: seq<Event>)
    decreases |events|
  {
    events == []
    || (Enabled(s, events[0]) && Orderly(s, events[0]) && OrderlyRun(Step(s, events[0]), events[1..]))
  }
}
