/** What every system call does and answers, as a caller sees it: queues, thread states, records and the
    return value, with the conditions on the state before the call written out
    (kernel/core/system). */
module KernelAnswers {
  import opened Ports
  import opened RunQueue
  import opened Mail
  import opened KernelState
  import opened KernelInvariant
  import opened KernelSteps
  import opened KernelContext

  // ----- Whom a port leads to -----

  /** Seen from process `home`, the port belongs to the live thread `u`: without versions it names a
      process's main thread or a thread of `home`, with versions exactly one thread. */
  ghost predicate Leads(s: State, p: Port, home: nat, u: Uid) {
    && Live(s, u)
    && if p.pvn == 0 && p.tvn == 0 then u == if p.pid == 0 then Uid(home, p.tid) else Uid(p.pid, 0)
       else
         && u == Uid(p.pid, p.tid)
         && s.procs[p.pid].version == p.pvn && s.procs[p.pid].threads[p.tid].version == p.tvn
  }

  ghost predicate Reachable(s: State, p: Port, home: nat) {
    exists u :: Leads(s, p, home, u)
  }

  lemma LeadsExactly(s: State, p: Port, home: nat, u: Uid)
    requires TableOk(s)
    ensures Leads(s, p, home, u) <==> Live(s, u) && Resolve(s, p, home) == u
  {
    if u.pid in s.procs {
      assert ProcOk(s.pvers, u.pid, s.procs[u.pid]);
    }
  }

  lemma ReachableExactly(s: State, p: Port, home: nat)
    requires TableOk(s)
    ensures Reachable(s, p, home) <==> Live(s, Resolve(s, p, home))
    ensures !Reachable(s, p, home) ==>
      (Resolve(s, p, home) == NOBODY <==> !(p.pvn == 0 && p.tvn == 0) || p.pid == home == p.tid == 0)
    ensures home > 0 ==> (Resolve(s, p, home).pid == 0 <==> !(p.pvn == 0 && p.tvn == 0) && !Reachable(s, p, home))
  {
    LeadsExactly(s, p, home, Resolve(s, p, home));
    if Reachable(s, p, home) {
      var u :| Leads(s, p, home, u);
      LeadsExactly(s, p, home, u);
      assert ProcOk(s.pvers, u.pid, s.procs[u.pid]);
    }
  }

  /** The port leads to a thread whose process has a free message slot. */
  ghost predicate HasRoom(s: State, p: Port, home: nat) {
    exists u :: Leads(s, p, home, u) && s.procs[u.pid].used < 1024
  }

  lemma RoomExactly(s: State, p: Port, home: nat)
    requires TableOk(s)
    ensures HasRoom(s, p, home) <==> Live(s, Resolve(s, p, home)) && Room(s, Resolve(s, p, home).pid)
  {
    hide Resolve;
    LeadsExactly(s, p, home, Resolve(s, p, home));
    if HasRoom(s, p, home) {
      var u :| Leads(s, p, home, u) && s.procs[u.pid].used < 1024;
      LeadsExactly(s, p, home, u);
    }
  }

  // ----- How little a call changes -----

  /** Nothing but the return value. */
  ghost predicate Answered(s: State, t: State, code: int) {
    t == s.(sched := s.sched.(frame := s.sched.frame.(eax := code)))
  }

  /** The same processes and threads; the slots in use change by `delta` in process `pid`. */
  ghost predicate SameRecords(s: State, t: State, pid: nat, delta: int) {
    && t.pvers == s.pvers && t.procs.Keys == s.procs.Keys
    && (forall u :: Live(t, u) <==> Live(s, u))
    && forall p :: p in s.procs ==>
         t.procs[p] == s.procs[p].(
           used := s.procs[p].used + (if p == pid then delta else 0), threads := t.procs[p].threads)
  }

  /** The thread that was running has been put aside with 0 as its return value, the threads of
      `woken` have joined the queue, and the next one has been resumed for a whole turn. */
  ghost predicate PutAside(s: Sched, t: Sched, why: RunState, woken: seq<Uid>) {
    && s.ring != [] && s.ring[0] in s.tasks && t.ring != [] && t.ring[0] in t.tasks
    && t.ring == s.ring[1..] + woken && t.slice == 5
    && t.tasks == s.tasks[s.ring[0] := s.tasks[s.ring[0]].(frame := s.frame.(eax := 0))]
    && t.run.Keys == s.run.Keys
    && (forall u :: u in s.run ==> t.run[u] == if u in woken then Active else if u == s.ring[0] then why else s.run[u])
    && t.loaded == t.ring[0].pid && Resumed(t.tasks[t.ring[0]], t.frame)
  }

  /** Only the threads of `woken` have joined the queue. */
  ghost predicate Joined(s: Sched, t: Sched, woken: seq<Uid>) {
    && t == s.(ring := s.ring + woken, run := t.run, frame := t.frame) && t.run.Keys == s.run.Keys
    && (forall u :: u in s.run ==> t.run[u] == if u in woken then Active else s.run[u])
  }

  // ----- Building blocks -----

  lemma AddExactly(s: State, v: Uid, m: Message, head: bool)
    requires Live(s, v)
    ensures
      var t := AddMail(s, v, m, head);
      && SameRecords(s, t, v.pid, 1) && t.sched == s.sched
      && (forall x :: ThreadAt(t, x) ==
            if x != v then ThreadAt(s, x)
            else ThreadAt(s, x).(queue := if head then [m] + Queue(s, x) else Queue(s, x) + [m]))
  {}

  lemma PostExactly(s: State, v: Uid, m: Message)
    requires Live(s, v)
    ensures
      var t, woken := Post(s, v, m), RunOf(s, v) == Waiting && Compare(ThreadAt(s, v).waitFor, m.from);
      && SameRecords(s, t, v.pid, 1)
      && (forall x :: ThreadAt(t, x) ==
            if x != v then ThreadAt(s, x)
            else ThreadAt(s, x).(queue := if woken then [m] + Queue(s, x) else Queue(s, x) + [m]))
      && t.sched == if woken then Add(s.sched, v) else s.sched
  {
    hide Compare, AddMail, SameRecords, Live, ThreadAt;
    var head := Woken(s, v, m.from);
    AddExactly(s, v, m, head);
    var a := AddMail(s, v, m, head);
    RecordsStay(s, a, Post(s, v, m), v.pid, 1);
    SameProcs(a, Post(s, v, m));
  }

  lemma RequestExactly(s: State, u: Uid, w: Port, addr: nat, size: nat)
    requires Live(s, u)
    ensures
      var t := Request(s, u, w, addr, size);
      && SameRecords(s, t, 0, 0) && t.sched == s.sched
      && (forall x :: ThreadAt(t, x) ==
            if x != u then ThreadAt(s, x) else ThreadAt(s, x).(waitFor := w, payAddr := addr, paySize := size))
  {}

  lemma DropExactlyOne(s: State, u: Uid)
    requires Live(s, u) && Queue(s, u) != []
    ensures
      var t := DropMail(s, u);
      && SameRecords(s, t, u.pid, -1) && t.sched == s.sched
      && (forall x :: ThreadAt(t, x) == if x != u then ThreadAt(s, x) else ThreadAt(s, x).(queue := Queue(s, x)[1..]))
  {}

  lemma SuspendExactly(s: Sched, why: RunState)
    requires QueueOk(s) && s.ring != [] && why != Active
    ensures
      var u := s.ring[0];
      Block(Remove(Lock(s), u), u, why) ==
        s.(ring := s.ring[1..], slice := 5, run := s.run[u := why],
           tasks := s.tasks[u := s.tasks[u].(frame := s.frame)])
  {
    hide QueueOk;
    LockKeepsQueue(s);
    RemoveHead(Lock(s));
    InTasks(s);
  }

  lemma InTasks(s: Sched)
    requires QueueOk(s)
    ensures forall u :: u in s.ring ==> u in s.tasks && u in s.run
    ensures s.tasks.Keys == s.run.Keys
  {}

  /** A thread blocks with 0 as its return value, and the queue goes on. */
  lemma AsideAlone(s: Sched, why: RunState)
    requires QueueOk(s) && |s.ring| > 1 && why != Active
    ensures
      var a := Return(s, 0);
      PutAside(s, Unlock(Block(Remove(Lock(a), a.ring[0]), a.ring[0], why)), why, [])
  {
    hide QueueOk, Lock, Remove;
    RetQueue(s);
    InTasks(s);
    SuspendExactly(Return(s, 0), why);
    assert s.ring[1..] + [] == s.ring[1..];
    assert s.ring[1] in s.ring;
  }

  /** The same when another thread is woken up in between. */
  lemma AsideWaking(s: Sched, why: RunState, v: Uid)
    requires QueueOk(s) && s.ring != [] && why != Active && v in s.run && v != s.ring[0]
    ensures
      var a := Return(s, 0);
      PutAside(s, Unlock(Add(Block(Remove(Lock(a), a.ring[0]), a.ring[0], why), v)), why, [v])
  {
    hide QueueOk, Lock, Remove, PutAside, Unlock;
    RetQueue(s);
    InTasks(s);
    SuspendExactly(Return(s, 0), why);
    var b := Block(Remove(Lock(Return(s, 0)), s.ring[0]), s.ring[0], why);
    assert Add(b, v).slice == 5;
    HeadOf(s.ring[1..], v);
    WokenAside(s, Add(b, v), why, v);
  }

  lemma HeadOf(ring: seq<Uid>, v: Uid)
    ensures (ring + [v])[0] == if ring == [] then v else ring[0]
  {}

  lemma WokenAside(s: Sched, c: Sched, why: RunState, v: Uid)
    requires s.ring != [] && s.ring[0] in s.tasks && v in s.run && s.tasks.Keys == s.run.Keys && v != s.ring[0]
    requires c.ring == s.ring[1..] + [v] && c.ring[0] in s.tasks && c.slice == 5
    requires c.tasks == s.tasks[s.ring[0] := s.tasks[s.ring[0]].(frame := s.frame.(eax := 0))]
    requires c.run == s.run[s.ring[0] := why][v := Active] && s.ring[0] in s.run
    ensures PutAside(s, Unlock(c), why, [v])
  {}

  // ----- Sending -----

  /** A send that goes through: the request can be read, it is not for the caller itself, it leads to a
      live thread in whose process a message slot is left, and a payload has a size and can be read. */
  ghost predicate Deliverable(s: State, r: Outgoing, mapped: bool, bufMapped: bool) {
    && mapped && !Compare(r.to, PortOf(s, Curr(s)))
    && HasRoom(s, r.to, Curr(s).pid)
    && (r.buf != 0 ==> r.size > 0 && bufMapped)
  }

  /** The code for the first thing that is wrong with a send. */
  ghost function SendCode(s: State, r: Outgoing, mapped: bool): int {
    if !mapped || Compare(r.to, PortOf(s, Curr(s))) then -1
    else if !Reachable(s, r.to, Curr(s).pid) then (if r.to.pvn == 0 && r.to.tvn == 0 then -6 else -7)
    else if !HasRoom(s, r.to, Curr(s).pid) then -8
    else if r.size == 0 then -4
    else -3
  }

  lemma SendErrorIs(s: State, r: Outgoing, mapped: bool, bufMapped: bool)
    requires TableOk(s) && Curr(s).pid > 0
    ensures SendError(s, r, mapped, bufMapped) ==
      if Deliverable(s, r, mapped, bufMapped) then 0 else SendCode(s, r, mapped)
    ensures SendError(s, r, mapped, bufMapped) <= 0
  {
    hide Compare, PortOf, Leads, Resolve, Live, TableOk, HasRoom, Reachable;
    var home, v := Curr(s).pid, Resolve(s, r.to, Curr(s).pid);
    ReachableExactly(s, r.to, home);
    LeadsExactly(s, r.to, home, v);
    RoomExactly(s, r.to, home);
  }

  /** Thread `v` waits for mail of the caller. */
  ghost predicate Awaits(s: State, v: Uid, from: Port) {
    RunOf(s, v) == Waiting && Compare(ThreadAt(s, v).waitFor, from)
  }

  /** A message is in the queue of `v`, and the buffer of a blocking sender is remembered. */
  ghost predicate MailKept(s: State, t: State, r: Outgoing, v: Uid) {
    var u, m := Curr(s), Message(PortOf(s, Curr(s)), r.code, r.args, r.size > 0);
    && SameRecords(s, t, v.pid, 1)
    && (forall x :: Queue(t, x) ==
          if x != v then Queue(s, x) else if Awaits(s, v, m.from) then [m] + Queue(s, x) else Queue(s, x) + [m])
    && (forall x :: ThreadAt(t, x) == ThreadAt(s, x).(
          queue := Queue(t, x),
          payAddr := if x == u && r.buf != 0 then r.buf else ThreadAt(s, x).payAddr,
          paySize := if x == u && r.buf != 0 then r.size else ThreadAt(s, x).paySize))
  }

  /** A message goes out: who has it, what else is remembered, and who runs. */
  ghost predicate MailOut(s: State, t: State, r: Outgoing, v: Uid) {
    var joined := if Awaits(s, v, PortOf(s, Curr(s))) then [v] else [];
    && MailKept(s, t, r, v)
    && if r.buf == 0 then Joined(s.sched, t.sched, joined) && t.sched.frame == s.sched.frame.(eax := 0)
       else PutAside(s.sched, t.sched, Sending, joined)
  }

  lemma PlainMail(s: State, r: Outgoing, v: Uid)
    requires StatesOk(s) && s.sched.ring != [] && Live(s, v) && r.buf == 0
    ensures
      var m := Message(PortOf(s, Curr(s)), r.code, r.args, r.size > 0);
      MailOut(s, Post(Ret(s, 0), v, m), r, v)
  {
    hide Compare, StatesOk, Post, SameRecords, Live;
    var a, m := Ret(s, 0), Message(PortOf(s, Curr(s)), r.code, r.args, r.size > 0);
    RetStates(s);
    SameProcs(s, a);
    PostExactly(a, v, m);
    RecordsVia(s, a, Post(a, v, m), v.pid, 1);
    WaitingRuns(s, v);
    assert s.sched.ring + [] == s.sched.ring;
  }

  lemma WaitingRuns(s: State, v: Uid)
    requires StatesOk(s) && Live(s, v)
    ensures v in s.sched.run && (s.sched.ring != [] ==> RunOf(s, Curr(s)) == Active && Curr(s) in s.sched.run)
  {}

  lemma RecordsVia(s: State, a: State, t: State, pid: nat, delta: int)
    requires a.procs == s.procs && a.pvers == s.pvers && SameRecords(a, t, pid, delta)
    ensures SameRecords(s, t, pid, delta)
  {}

  lemma RecordsTwice(s: State, a: State, t: State, pid: nat, delta: int)
    requires SameRecords(s, a, 0, 0) && SameRecords(a, t, pid, delta)
    ensures SameRecords(s, t, pid, delta)
  {}

  lemma RecordsStay(s: State, a: State, t: State, pid: nat, delta: int)
    requires SameRecords(s, a, pid, delta) && t.procs == a.procs && t.pvers == a.pvers
    ensures SameRecords(s, t, pid, delta)
  {}

  lemma LiveSame(s: State, t: State, pid: nat, delta: int)
    requires SameRecords(s, t, pid, delta)
    ensures forall u :: Live(t, u) <==> Live(s, u)
  {}

  lemma QueueFine(s: State)
    requires StatesOk(s)
    ensures QueueOk(s.sched)
  {}

  lemma BlockedExactly(s: State, u: Uid, why: RunState, w: Port, addr: nat, size: nat)
    requires StatesOk(s) && s.sched.ring != [] && u == Curr(s) && why in {Sending, Waiting}
    ensures
      var b, a := Blocked(Ret(s, 0), u, why, w, addr, size), Return(s.sched, 0);
      && SameRecords(s, b, 0, 0) && b.sched == Block(Remove(Lock(a), u), u, why) && b.sched.ring == s.sched.ring[1..]
      && (forall x :: ThreadAt(b, x) ==
            if x != u then ThreadAt(s, x) else ThreadAt(s, x).(waitFor := w, payAddr := addr, paySize := size))
      && (forall v :: RunOf(b, v) == if v == u then why else RunOf(s, v))
  {
    hide StatesOk, SameRecords, Live, Request, Remove, Lock, RunOf, ThreadAt;
    var a := Ret(s, 0);
    RetStates(s);
    SameProcs(s, a);
    SameRun(s, a);
    CurrLive(s);
    var c := Suspend(a, u, why);
    SameProcs(s, c);
    RequestExactly(c, u, w, addr, size);
    RecordsVia(s, c, Request(c, u, w, addr, size), 0, 0);
    BlockEffect(a, u, why, w, addr, size);
  }

  lemma SameRun(s: State, t: State)
    requires t.sched.run == s.sched.run
    ensures forall v :: RunOf(t, v) == RunOf(s, v)
  {}

  /** With a payload the sender blocks first, and is remembered with its buffer. */
  lemma PayloadMail(s: State, r: Outgoing, v: Uid)
    requires StatesOk(s) && s.sched.ring != [] && Live(s, v) && r.buf != 0
    requires
      var w, m := ThreadAt(s, Curr(s)).waitFor, Message(PortOf(s, Curr(s)), r.code, r.args, r.size > 0);
      Post(Blocked(Ret(s, 0), Curr(s), Sending, w, r.buf, r.size), v, m).sched.ring != []
    ensures
      var w, m := ThreadAt(s, Curr(s)).waitFor, Message(PortOf(s, Curr(s)), r.code, r.args, r.size > 0);
      MailOut(s, Continue(Post(Blocked(Ret(s, 0), Curr(s), Sending, w, r.buf, r.size), v, m)), r, v)
  {
    hide Compare, StatesOk, Post, SameRecords, Live, PutAside, PortOf, Remove, Lock, Unlock, Blocked, RunOf, ThreadAt;
    var u, a, w := Curr(s), Ret(s, 0), ThreadAt(s, Curr(s)).waitFor;
    var m := Message(PortOf(s, u), r.code, r.args, r.size > 0);
    var b := Blocked(a, u, Sending, w, r.buf, r.size);
    RetStates(s);
    BlockedExactly(s, u, Sending, w, r.buf, r.size);
    BlockedStates(a, u, w, r.buf, r.size);
    LiveSame(s, b, 0, 0);
    PostExactly(b, v, m);
    var p := Post(b, v, m);
    RecordsTwice(s, b, p, v.pid, 1);
    RecordsStay(s, p, Continue(p), v.pid, 1);
    SameProcs(p, Continue(p));
    WaitingRuns(s, v);
    QueueFine(s);
    if Awaits(s, v, m.from) {
      AsideWaking(s.sched, Sending, v);
    } else {
      AsideAlone(s.sched, Sending);
    }
  }

  /** Some queue is one message longer. */
  ghost predicate OneMore(s: State, t: State) {
    exists v :: |Queue(t, v)| == |Queue(s, v)| + 1
  }

  lemma MailCounts(s: State, t: State, r: Outgoing, v: Uid)
    requires StatesOk(s) && s.sched.ring != [] && MailOut(s, t, r, v)
    ensures OneMore(s, t) && (RunOf(t, Curr(s)) == Sending <==> r.buf != 0)
  {
    hide SameRecords, ThreadAt, Compare;
    assert |Queue(t, v)| == |Queue(s, v)| + 1;
    WaitingOnly(s);
  }

  lemma WaitingOnly(s: State)
    requires StatesOk(s) && s.sched.ring != []
    ensures RunOf(s, Curr(s)) == Active && Curr(s) in s.sched.run
  {}

  lemma AnsweredOnly(s: State, t: State, code: int)
    requires Answered(s, t, code)
    ensures !OneMore(s, t) && forall v :: RunOf(t, v) == RunOf(s, v)
  {
    SameProcs(s, t);
    hide ThreadAt;
  }

  /** A send is carried out if and only if nothing is wrong with it, and blocks its caller if and only
      if it has a buffer in addition; otherwise only the code of the first fault comes back. */
  lemma SendExactly(s: State, r: Outgoing, mapped: bool, bufMapped: bool)
    requires Core(s) && Enabled(s, Send(r, mapped, bufMapped))
    ensures
      var t, ok := Step(s, Send(r, mapped, bufMapped)), Deliverable(s, r, mapped, bufMapped);
      && (OneMore(s, t) <==> ok)
      && (RunOf(t, Curr(s)) == Sending <==> ok && r.buf != 0)
      && (ok ==> exists v :: Leads(s, r.to, Curr(s).pid, v) && MailOut(s, t, r, v))
      && (!ok ==> Answered(s, t, SendCode(s, r, mapped)))
  {
    hide Compare, PortOf, Leads, Resolve, Live, TableOk, StatesOk, Post, Deliverable, SendCode, MailOut, OneMore, RunOf,
      SendError, Suspend, Request, ThreadAt;
    CoreStates(s);
    CurrLive(s);
    CoreTable(s);
    CurrNumber(s);
    WaitingOnly(s);
    SendErrorIs(s, r, mapped, bufMapped);
    var t, v := Step(s, Send(r, mapped, bufMapped)), Resolve(s, r.to, Curr(s).pid);
    if Deliverable(s, r, mapped, bufMapped) {
      SendIsPost(s, r, mapped, bufMapped);
      LeadsExactly(s, r.to, Curr(s).pid, v);
      if r.buf == 0 {
        PlainMail(s, r, v);
      } else {
        UnlockRing(Post(AtPost(s, r), v, Sent(s, r)).sched);
        PayloadMail(s, r, v);
      }
      MailCounts(s, t, r, v);
    } else {
      SendCodeNegative(s, r, mapped);
      AnsweredOnly(s, t, SendCode(s, r, mapped));
    }
  }

  lemma SendCodeNegative(s: State, r: Outgoing, mapped: bool)
    ensures SendCode(s, r, mapped) < 0
  {}

  lemma UnlockRing(s: Sched)
    ensures Unlock(s).ring == s.ring
  {}

  lemma CurrNumber(s: State)
    requires TableOk(s) && Live(s, Curr(s))
    ensures Curr(s).pid >= 2 && Curr(s).pid in s.procs
  {
    assert ProcOk(s.pvers, Curr(s).pid, s.procs[Curr(s).pid]);
  }

  /** A message of the kernel is in the queue of `v`. */
  ghost predicate KernelMail(s: State, t: State, code: nat, args: seq<nat>, v: Uid) {
    var m := Message(Port(1, 0, 1, 0), code, args, false);
    && SameRecords(s, t, v.pid, 1)
    && (forall x :: ThreadAt(t, x) ==
          if x != v then ThreadAt(s, x)
          else ThreadAt(s, x).(queue := if Awaits(s, v, m.from) then [m] + Queue(s, x) else Queue(s, x) + [m]))
    && Joined(s.sched, t.sched, if Awaits(s, v, m.from) then [v] else []) && t.sched.frame == s.sched.frame
  }

  lemma KernelPost(s: State, code: nat, args: seq<nat>, v: Uid)
    requires StatesOk(s) && s.sched.ring != [] && Live(s, v)
    ensures KernelMail(s, Post(s, v, Message(IPORT_KERNEL, code, args, false)), code, args, v)
  {
    hide Compare, StatesOk, Post, SameRecords, Live, ThreadAt;
    PostExactly(s, v, Message(IPORT_KERNEL, code, args, false));
    WaitingRuns(s, v);
    assert s.sched.ring + [] == s.sched.ring;
  }

  /** A message of the kernel arrives as it is, and disturbs nobody but a thread that waits for it. */
  lemma KernelSendExactly(s: State, port: Port, code: nat, args: seq<nat>)
    requires Core(s) && Enabled(s, KernelSend(port, code, args))
    ensures exists v ::
      && Leads(s, port, 0, v) && s.procs[v.pid].used < 1024
      && KernelMail(s, Step(s, KernelSend(port, code, args)), code, args, v)
  {
    hide Compare, Leads, Resolve, TableOk, StatesOk, Post, KernelMail;
    CoreStates(s);
    CoreTable(s);
    var v := Resolve(s, port, 0);
    LeadsExactly(s, port, 0, v);
    KernelPost(s, code, args, v);
  }

  // ----- Receiving -----

  /** The message at the head of the caller's queue has a payload, and its sender `x` is alive. */
  ghost predicate Offers(s: State, home: nat, x: Uid) {
    Queue(s, Curr(s)) != [] && Queue(s, Curr(s))[0].payload && Leads(s, Queue(s, Curr(s))[0].from, home, x)
  }

  lemma OffersExactly(s: State, home: nat, x: Uid)
    requires TableOk(s) && (HeadSender(s, home) != NOBODY ==> Live(s, HeadSender(s, home)))
    ensures Offers(s, home, x) <==> x != NOBODY && x == HeadSender(s, home)
  {
    hide Leads, Resolve, ThreadAt;
    if Queue(s, Curr(s)) != [] {
      LeadsExactly(s, Queue(s, Curr(s))[0].from, home, x);
      NobodyDead(s);
    }
  }

  lemma NobodyDead(s: State)
    requires TableOk(s)
    ensures !Live(s, NOBODY)
  {
    assert 0 in s.procs ==> ProcOk(s.pvers, 0, s.procs[0]);
  }

  /** The head message is gone, with its slot. */
  ghost predicate HeadGone(s: State, t: State) {
    var u := Curr(s);
    && Queue(s, u) != [] && SameRecords(s, t, u.pid, -1)
    && (forall x :: ThreadAt(t, x) == if x != u then ThreadAt(s, x) else ThreadAt(s, x).(queue := Queue(s, x)[1..]))
  }

  lemma HeadGoes(s: State, t: State)
    requires Live(s, Curr(s)) && Queue(s, Curr(s)) != [] && t.procs == DropMail(s, Curr(s)).procs && t.pvers == s.pvers
    ensures HeadGone(s, t) && Queue(t, Curr(s)) != Queue(s, Curr(s))
  {
    hide Live, ThreadAt, SameRecords, DropMail;
    var a := DropMail(s, Curr(s));
    DropExactlyOne(s, Curr(s));
    SameProcs(a, t);
    RecordsStay(s, a, t, Curr(s).pid, -1);
  }

  /** There is a message, and where a live sender has a payload for it, the buffer is large enough
      and mapped. */
  ghost predicate Takes(s: State, mapped: bool, bufSize: nat, bufMapped: bool) {
    && mapped && Queue(s, Curr(s)) != []
    && forall x :: Offers(s, 0, x) ==> 0 < bufSize && ThreadAt(s, x).paySize <= bufSize && bufMapped
  }

  /** The code for the first thing that is wrong with a receive. */
  ghost function RecvCode(s: State, mapped: bool, bufSize: nat): int {
    if !mapped then -1
    else if Queue(s, Curr(s)) == [] then -6
    else if exists x :: Offers(s, 0, x) && (bufSize == 0 || bufSize < ThreadAt(s, x).paySize) then -4
    else -3
  }

  lemma RecvErrorIs(s: State, mapped: bool, bufSize: nat, bufMapped: bool)
    requires TableOk(s) && (mapped && HeadSender(s, 0) != NOBODY ==> Live(s, HeadSender(s, 0)))
    ensures RecvError(s, mapped, bufSize, bufMapped) ==
      if Takes(s, mapped, bufSize, bufMapped) then 0 else RecvCode(s, mapped, bufSize)
    ensures RecvCode(s, mapped, bufSize) < 0
  {
    hide Offers, ThreadAt, TableOk, HeadSender, Queue, Live;
    if mapped {
      OffersExactly(s, 0, HeadSender(s, 0));
      forall x | Offers(s, 0, x) ensures x == HeadSender(s, 0) {
        OffersExactly(s, 0, x);
      }
      NobodyOffers(s, 0);
    }
  }

  lemma NobodyOffers(s: State, home: nat)
    requires TableOk(s)
    ensures !Offers(s, home, NOBODY)
  {
    NobodyDead(s);
  }

  /** The sender of the payload, if there is one, has joined the queue; the call returns the size of the
      payload if `sized`, and otherwise 0. */
  ghost predicate SenderFreed(s: State, t: State, home: nat, sized: bool) {
    && (forall x :: Offers(s, home, x) ==>
          && Joined(s.sched, t.sched, [x])
          && t.sched.frame == s.sched.frame.(eax := if sized then ThreadAt(s, x).paySize else 0))
    && ((forall x :: !Offers(s, home, x)) ==> t.sched == s.sched.(frame := s.sched.frame.(eax := 0)))
  }

  lemma WakeJoins(s: State, x: Uid, code: int)
    requires StatesOk(s) && s.sched.ring != [] && Live(s, x)
    ensures Joined(s.sched, Return(Add(s.sched, x), code), [x])
  {
    WaitingRuns(s, x);
  }

  lemma Freed(s: State, t: State, home: nat, sized: bool)
    requires StatesOk(s) && TableOk(s) && s.sched.ring != []
    requires HeadSender(s, home) != NOBODY ==> Live(s, HeadSender(s, home))
    requires
      var x := HeadSender(s, home);
      t.sched == if x == NOBODY then Return(s.sched, 0)
                 else Return(Add(s.sched, x), if sized then ThreadAt(s, x).paySize else 0)
    ensures SenderFreed(s, t, home, sized) && t.sched.frame.eax >= 0
  {
    hide Offers, ThreadAt, TableOk, HeadSender, Live, StatesOk, Joined;
    var x := HeadSender(s, home);
    OffersExactly(s, home, x);
    NobodyOffers(s, home);
    forall y | Offers(s, home, y) ensures y == x {
      OffersExactly(s, home, y);
    }
    if x != NOBODY {
      WakeJoins(s, x, if sized then ThreadAt(s, x).paySize else 0);
    }
  }

  /** A receive takes the message if and only if it can, returns the size of its payload or 0, and lets
      the sender go; otherwise only the code of the first fault, a negative one, comes back. */
  lemma RecvExactly(s: State, mapped: bool, bufSize: nat, bufMapped: bool)
    requires Core(s) && Enabled(s, Recv(mapped, bufSize, bufMapped))
    ensures
      var t := Step(s, Recv(mapped, bufSize, bufMapped));
      && (t.sched.frame.eax >= 0 <==> Takes(s, mapped, bufSize, bufMapped))
      && (t.sched.frame.eax < 0 <==> Queue(t, Curr(s)) == Queue(s, Curr(s)))
      && (t.sched.frame.eax >= 0 ==> HeadGone(s, t) && SenderFreed(s, t, 0, true))
      && (t.sched.frame.eax < 0 ==> Answered(s, t, RecvCode(s, mapped, bufSize)))
  {
    hide ThreadAt, TableOk, HeadSender, Live, StatesOk, Takes, RecvCode, SenderFreed, HeadGone, RecvError, DropMail;
    CoreStates(s);
    CoreTable(s);
    CurrLive(s);
    var t := Step(s, Recv(mapped, bufSize, bufMapped));
    RecvErrorIs(s, mapped, bufSize, bufMapped);
    if Takes(s, mapped, bufSize, bufMapped) {
      TakesSome(s, mapped, bufSize, bufMapped);
      DropLater(s, HeadSender(s, 0));
      Freed(s, t, 0, true);
      HeadGoes(s, t);
    } else {
      SameProcs(s, t);
    }
  }

  lemma TakesSome(s: State, mapped: bool, bufSize: nat, bufMapped: bool)
    requires Takes(s, mapped, bufSize, bufMapped)
    ensures mapped && Queue(s, Curr(s)) != []
  {}

  lemma DropLater(s: State, x: Uid)
    ensures DropMail(Wake(s, x), Curr(s)).procs == DropMail(s, Curr(s)).procs
    ensures DropMail(Wake(s, x), Curr(s)).pvers == s.pvers == DropMail(s, Curr(s)).pvers
    ensures DropMail(Wake(s, x), Curr(s)).sched == Add(s.sched, x)
    ensures DropMail(s, Curr(s)).sched == s.sched
  {}

  /** A drop takes whatever is at the head, lets its sender go, and returns 0. */
  lemma DropExactly(s: State, mapped: bool)
    requires Core(s) && Enabled(s, Drop(mapped))
    ensures
      var t, q := Step(s, Drop(mapped)), Queue(s, Curr(s));
      && (mapped && q != [] ==> HeadGone(s, t) && SenderFreed(s, t, Curr(s).pid, false))
      && (!(mapped && q != []) ==> Answered(s, t, if !mapped then -1 else -6))
  {
    hide ThreadAt, TableOk, HeadSender, Live, StatesOk, SenderFreed, HeadGone, DropMail;
    CoreStates(s);
    CoreTable(s);
    CurrLive(s);
    var t := Step(s, Drop(mapped));
    if mapped && Queue(s, Curr(s)) != [] {
      DropLater(s, HeadSender(s, Curr(s).pid));
      Freed(s, t, Curr(s).pid, false);
      HeadGoes(s, t);
    }
  }

  // ----- Waiting -----

  /** Message `k` is the first that a wait for `w` accepts. */
  ghost predicate FirstOf(q: seq<Message>, w: Port, k: nat) {
    k < |q| && Compare(w, q[k].from) && forall i :: 0 <= i < k ==> !Compare(w, q[i].from)
  }

  /** There is somebody to wait for: anybody, the kernel, or a thread that is alive. */
  ghost predicate Awaitable(s: State, w: Port) {
    (w.pid == 1 && w.pvn == 0 && w.tvn == 0) || Reachable(s, w, Curr(s).pid)
  }

  lemma WaitErrorIs(s: State, w: Port)
    requires TableOk(s) && Curr(s).pid >= 2
    ensures WaitError(s, w) == if Awaitable(s, w) then 0 else if w.pvn == 0 && w.tvn == 0 then -6 else -7
  {
    var home, v := Curr(s).pid, Resolve(s, w, Curr(s).pid);
    ReachableExactly(s, w, home);
    assert 1 in s.procs ==> ProcOk(s.pvers, 1, s.procs[1]);
    hide Reachable, TableOk;
  }

  lemma FoundExactly(s: State, w: Port)
    ensures Found(s, w) <==> exists k :: FirstOf(Queue(s, Curr(s)), w, k)
  {
    hide Queue;
    var q := Queue(s, Curr(s));
    if Found(s, w) {
      assert FirstOf(q, w, FirstMatch(q, w));
    } else if k :| FirstOf(q, w, k) {
      MatchAt(q, w, k);
    }
  }

  /** The caller's queue has its message `k` in front, and the call returns 0. */
  ghost predicate Fetched(s: State, t: State, k: nat) {
    var u, q := Curr(s), Queue(s, Curr(s));
    && k < |q| && SameRecords(s, t, 0, 0) && t.sched == s.sched.(frame := s.sched.frame.(eax := 0))
    && (forall x :: ThreadAt(t, x) ==
          if x != u then ThreadAt(s, x) else ThreadAt(s, x).(queue := [q[k]] + q[..k] + q[k + 1..]))
  }

  lemma FetchExactly(s: State, w: Port, k: nat)
    requires Live(s, Curr(s)) && FirstOf(Queue(s, Curr(s)), w, k)
    ensures Found(s, w) && Fetched(s, Ret(FindMail(s, Curr(s), w), 0), k)
  {
    hide Compare;
    MatchAt(Queue(s, Curr(s)), w, k);
    hide FirstMatch, Promote;
  }

  /** The caller has been put aside to wait for `w`. */
  ghost predicate Sleeping(s: State, t: State, w: Port) {
    && SameRecords(s, t, 0, 0) && PutAside(s.sched, t.sched, Waiting, [])
    && (forall x :: ThreadAt(t, x) == if x != Curr(s) then ThreadAt(s, x) else ThreadAt(s, x).(waitFor := w))
  }

  lemma SleepExactly(s: State, w: Port)
    requires StatesOk(s) && |s.sched.ring| > 1
    ensures
      var u, th := Curr(s), ThreadAt(s, Curr(s));
      Sleeping(s, Continue(Request(Suspend(Ret(s, 0), u, Waiting), u, w, th.payAddr, th.paySize)), w)
  {
    hide StatesOk, SameRecords, Live, Request, Suspend, Unlock, RunOf, ThreadAt, PutAside;
    var u, th := Curr(s), ThreadAt(s, Curr(s));
    var b := Blocked(Ret(s, 0), u, Waiting, w, th.payAddr, th.paySize);
    BlockedExactly(s, u, Waiting, w, th.payAddr, th.paySize);
    RecordsStay(s, b, Continue(b), 0, 0);
    SameProcs(b, Continue(b));
    QueueFine(s);
    AsideAlone(s.sched, Waiting);
  }

  /** A wait brings the first message it accepts to the front; without one it blocks if and only if there
      is somebody to wait for. */
  lemma WaitExactly(s: State, w: Port)
    requires Core(s) && Enabled(s, Wait(w))
    ensures
      var t, q := Step(s, Wait(w)), Queue(s, Curr(s));
      && (forall k :: FirstOf(q, w, k) ==> Fetched(s, t, k))
      && ((forall k :: !FirstOf(q, w, k)) ==>
            if Awaitable(s, w) then Sleeping(s, t, w) else Answered(s, t, if w.pvn == 0 && w.tvn == 0 then -6 else -7))
      && (RunOf(t, Curr(s)) == Waiting <==> (forall k :: !FirstOf(q, w, k)) && Awaitable(s, w))
  {
    hide ThreadAt, TableOk, Live, StatesOk, Awaitable, Fetched, Sleeping, FirstOf, Suspend, Request, FindMail,
      RunOf, Found, WaitError;
    CoreStates(s);
    CoreTable(s);
    CurrLive(s);
    CurrNumber(s);
    WaitErrorIs(s, w);
    FoundExactly(s, w);
    var t, q := Step(s, Wait(w)), Queue(s, Curr(s));
    forall k | FirstOf(q, w, k) ensures Fetched(s, t, k) {
      FetchExactly(s, w, k);
    }
    if Found(s, w) {
      var k :| FirstOf(q, w, k);
      FetchedRuns(s, t, k);
    } else if Awaitable(s, w) {
      SleepExactly(s, w);
      SleepingRuns(s, t, w);
    } else {
      SameRun(s, t);
    }
  }

  lemma FetchedRuns(s: State, t: State, k: nat)
    requires Fetched(s, t, k)
    ensures RunOf(t, Curr(s)) == RunOf(s, Curr(s))
  {}

  lemma SleepingRuns(s: State, t: State, w: Port)
    requires Sleeping(s, t, w) && StatesOk(s) && s.sched.ring != []
    ensures RunOf(t, Curr(s)) == Waiting
  {
    WaitingOnly(s);
  }
}
