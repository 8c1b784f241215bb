/** A concrete starting state, and concrete runs that show where the kernel's promises end. */
module KernelBoot {
  import opened Ports
  import opened RunQueue
  import opened Mail
  import opened KernelState
  import opened KernelInvariant
  import opened KernelSteps
  import opened KernelMail
  import opened KernelRendezvous
  import opened KernelContext
  import opened KernelPorts

  const FIRST := Uid(2, 0)
  const SECOND := Uid(3, 0)
  const THIRD := Uid(4, 0)

  function OneThread(parent: nat): Proc {
    Proc(1, parent, 2, 0, seq(PROCESS_THREAD_MAX, i => if i == 0 then 1 else 0),
         map[0 := Thread(1, Port(0, 0, 0, 0), 0, 0, [])], 0x1000)
  }

  /** Three boot modules, each a process with its main thread, ready to run. */
  function Boot(): State {
    var task := Task(0x1000, 0x8000, ZERO_FRAME);
    State(seq(PROCESS_MAX, i => if 2 <= i <= 4 then 1 else 0),
          map[2 := OneThread(0), 3 := OneThread(0), 4 := OneThread(0)],
          Sched([FIRST, SECOND, THIRD], TIMESLICE,
                map[FIRST := Active, SECOND := Active, THIRD := Active],
                map[FIRST := task, SECOND := task, THIRD := task],
                Frame(0x1000, 0x8000, 0, []), 2))
  }

  lemma BootLive(u: Uid)
    ensures Live(Boot(), u) <==> u in {FIRST, SECOND, THIRD}
    ensures Live(Boot(), u) ==> RunOf(Boot(), u) == Active
    ensures Queue(Boot(), u) == []
  {}

  lemma BootTable()
    ensures TableOk(Boot())
  {}

  lemma BootVersioned()
    ensures Versioned(Boot())
  {}

  lemma BootQueue()
    ensures QueueOk(Boot().sched) && Boot().sched.run.Keys == {FIRST, SECOND, THIRD} && LoadedOk(Boot())
  {}

  /** The starting state meets every invariant, so all the results about runs apply to it. */
  lemma BootOk()
    ensures Inv(Boot()) && Paired(Boot()) && LoadedOk(Boot()) && InOrder(Ledger(map[], map[]), Boot())
  {
    hide Boot, QueueOk, TableOk, Versioned, LoadedOk, Live, RunOf, Queue, PortOf, KnownPort, Pending, From;
    var s := Boot();
    BootTable();
    BootVersioned();
    BootQueue();
    forall u ensures (u in s.sched.run <==> Live(s, u)) && (Live(s, u) ==> RunOf(s, u) == Active) && Queue(s, u) == [] {
      BootLive(u);
    }
    BootRun();
    assert StatesOk(s);
    forall u, p ensures Held(s, u, p) == 0 {
      PendingOfEmpty(p);
    }
    forall p ensures From([], p) == [] {
      FromNobody([], p);
    }
  }

  lemma BootRun()
    ensures forall u :: RunOf(Boot(), u) == if u in {FIRST, SECOND, THIRD} then Active else Old
  {}

  // ----- A size without a buffer -----

  /** To the second process's main thread, by its full port. */
  function ToSecond(buf: nat, size: nat): Outgoing {
    Outgoing(Port(3, 1, 0, 1), 0, [], buf, size)
  }

  lemma ToSecondAccepted(buf: nat, size: nat)
    requires buf != 0 ==> size != 0
    ensures SendError(Boot(), ToSecond(buf, size), true, true) == ENONE
    ensures Resolve(Boot(), Port(3, 1, 0, 1), 2) == SECOND && Curr(Boot()) == FIRST
  {}

  /** The very first system call can leave a payload message behind whose sender runs on. */
  lemma SizeWithoutBufferBreaks()
    ensures !SendersBlocked(SendStep(Boot(), ToSecond(0, 1), true, true))
  {
    hide Boot, Core, Fresh, SendersBlocked, SendStep, SendError;
    BootOk();
    BootQueue();
    BootRing();
    ToSecondAccepted(0, 1);
    SendKeepsBlockedExactly(Boot(), ToSecond(0, 1), true, true);
  }

  lemma BootRing()
    ensures Boot().sched.ring == [FIRST, SECOND, THIRD]
  {}

  // ----- A kill that strands a sender -----

  lemma BlockFirst() returns (s: State)
    ensures Enabled(Boot(), Send(ToSecond(1, 1), true, true)) && s == Step(Boot(), Send(ToSecond(1, 1), true, true))
    ensures Inv(s) && Paired(s) && s.sched.ring == [SECOND, THIRD]
    ensures Live(s, FIRST) && RunOf(s, FIRST) == Sending && Held(s, SECOND, PortOf(s, FIRST)) > 0
    ensures s.procs.Keys == {2, 3, 4}
  {
    hide Boot, Core, Fresh, SendError, Step, Held, PortOf, Live, RunOf, SendStep, Paired, Resolve, Released,
      Newborn, Follows;
    var b, e := Boot(), Send(ToSecond(1, 1), true, true);
    BootOk();
    ToSecondAccepted(1, 1);
    BootRing();
    SendRing();
    s := Step(b, e);
    StepIsSend(b, ToSecond(1, 1));
    StepKeeps(b, e);
    StepKeepsPaired(b, e);
    BlockingSendCarries(b, e);
    BootLive(FIRST);
    BootLive(SECOND);
    NobodyDies(b, e, FIRST);
    NobodyDies(b, e, SECOND);
    StepStates(b, e);
    StepChange(b, e);
    SamePort(b, s, MoveOf(b, e), FIRST);
    HeldMoved(b, e, SECOND, PortOf(b, FIRST));
  }

  lemma SamePort(s: State, t: State, move: Move, u: Uid)
    requires Follows(s, t, move) && Live(s, u) && Live(t, u)
    ensures PortOf(t, u) == PortOf(s, u)
  {}

  lemma StepIsSend(s: State, r: Outgoing)
    requires Enabled(s, Send(r, true, true))
    ensures Step(s, Send(r, true, true)) == SendStep(s, r, true, true)
  {}

  lemma SendRing()
    ensures SendStep(Boot(), ToSecond(1, 1), true, true).sched.ring == [SECOND, THIRD]
    ensures SendStep(Boot(), ToSecond(1, 1), true, true).procs.Keys == {2, 3, 4}
  {
    var s, r := Boot(), ToSecond(1, 1);
    BootOk();
    ToSecondAccepted(1, 1);
    BootLive(SECOND);
    BootLive(FIRST);
    BootRing();
    hide Boot, SendError, Post, AtPost, PortOf, SamePeople, Live, Queue, ThreadAt, TableOk, NoLostWakeup, HeldKnown,
      SendersBlocked, OneEach, StatesOk;
    SendIsPost(s, r, true, true);
    AtPostEffect(s, r);
    SamePeopleTable(s, AtPost(s, r));
    PostEffect(AtPost(s, r), SECOND, Sent(s, r));
    WokenIsWaiting(AtPost(s, r), SECOND, PortOf(s, FIRST));
    SameKeys(s, AtPost(s, r), Post(AtPost(s, r), SECOND, Sent(s, r)));
    BootKeys();
  }

  lemma SameKeys(s: State, a: State, t: State)
    requires SamePeople(s, a) && SamePeople(a, t)
    ensures t.procs.Keys == s.procs.Keys
  {}

  lemma BootKeys()
    ensures Boot().procs.Keys == {2, 3, 4}
  {}

  /** The second process kills itself while the first one's payload waits in its queue:
      the first one stays blocked, with no message left that could ever release it. */
  lemma KillStrandsSender()
    ensures
      var run := [Send(ToSecond(1, 1), true, true), Kill(0)];
      Runs(Boot(), run) && Paired(Boot()) && !Paired(After(Boot(), run))
  {
    hide Core, Fresh, Paired, Enabled, Step, PortOf, Held, Live, RunOf, Boot, KillError, KillTarget;
    BootOk();
    var s := BlockFirst();
    KillSecond(s);
    KillKeepsPairedExactly(s, Kill(0));
    assert Dies(s, Kill(0), SECOND) && !Dies(s, Kill(0), FIRST);
    TwoSteps(Boot(), Send(ToSecond(1, 1), true, true), Kill(0));
  }

  lemma TwoSteps(s: State, d: Event, e: Event)
    requires Enabled(s, d) && Enabled(Step(s, d), e)
    ensures Runs(s, [d, e]) && After(s, [d, e]) == Step(Step(s, d), e)
  {
    hide Enabled, Step;
    assert [d, e][1..] == [e] && [e][1..] == [];
    assert Runs(Step(Step(s, d), e), []);
    assert Runs(Step(s, d), [e]) && After(Step(s, d), [e]) == Step(Step(s, d), e);
  }

  lemma KillSecond(s: State)
    requires Inv(s) && s.sched.ring == [SECOND, THIRD] && s.procs.Keys == {2, 3, 4}
    ensures Enabled(s, Kill(0)) && KillError(s, 0) == ENONE && KillTarget(s, 0) == 3
  {
    hide Core, Fresh, Lock, Unlock, QueueOk, StatesOk, EndProcess, Keep;
    EndProcessRun(s, 3);
    KeepMembers(s.sched.ring, ThreadsIn(s, 3));
    ContinueSame(EndProcess(s.(sched := Lock(s.sched)), 3));
    assert THIRD in s.sched.ring;
  }

  // ----- A wait for a local port -----

  /** The first thread of the caller's own process, as a local port. */
  const LOCAL := Port(0, 0, 0, 0)

  lemma LocalWaitAccepted()
    ensures Resolve(Boot(), LOCAL, FIRST.pid) == FIRST && !Compare(LOCAL, PortOf(Boot(), FIRST))
    ensures WaitBlocks(Boot(), LOCAL) && Enabled(Boot(), Wait(LOCAL))
  {
    BootQueueEmpty();
  }

  lemma BootQueueEmpty()
    ensures Queue(Boot(), Curr(Boot())) == [] && Curr(Boot()) == FIRST && FirstMatch([], LOCAL) == 0
  {}

  /** The very first system call can be a wait that is accepted and that no message ever ends,
      not even one from the thread the port leads to. */
  lemma LocalWaitSleeps(events: seq<Event>)
    requires
      && Enabled(Boot(), Wait(LOCAL)) && OrderlyRun(Step(Boot(), Wait(LOCAL)), events)
      && Runs(Step(Boot(), Wait(LOCAL)), events) && LivesThrough(Step(Boot(), Wait(LOCAL)), events, FIRST)
    ensures RunOf(After(Step(Boot(), Wait(LOCAL)), events), FIRST) == Waiting
  {
    var s := Boot();
    hide Boot, Core, Fresh, Enabled, Step, RunOf, Runs, OrderlyRun, WaitBlocks, ThreadAt;
    BootOk();
    LocalWaitAccepted();
    BootQueueEmpty();
    WaitOrderly(s, LOCAL);
    StepKeeps(s, Wait(LOCAL));
    BootLive(FIRST);
    NobodyDies(s, Wait(LOCAL), FIRST);
    StepStates(s, Wait(LOCAL));
    LocalWaitNeverEnds(Step(s, Wait(LOCAL)), events, FIRST);
  }

  // ----- Stopped at address zero -----

  const AT_ZERO := Frame(0, 0x8000, 7, [])

  function Ticks(n: nat): seq<Event> {
    if n == 0 then [] else [Timer] + Ticks(n - 1)
  }

  /** Ticks within a time slice change nothing else. */
  lemma {:induction false} TicksRun(s: State, n: nat)
    requires s.sched.ring != [] && n < s.sched.slice
    ensures Runs(s, Ticks(n)) && After(s, Ticks(n)) == s.(sched := s.sched.(slice := s.sched.slice - n))
    decreases n
  {
    if n > 0 {
      var t := Step(s, Timer);
      assert t == s.(sched := s.sched.(slice := s.sched.slice - 1));
      TicksRun(t, n - 1);
      assert Ticks(n)[0] == Timer && Ticks(n)[1..] == Ticks(n - 1);
    }
  }

  /** The first thread is at address zero when its time is up; the others give way at once. */
  function AroundOnce(): seq<Event> {
    [Run(AT_ZERO)] + (Ticks(4) + ([Timer] + [Yield, Yield]))
  }

  /** Its next turn takes it back to its entry point. */
  lemma RestartedFromZero()
    ensures Runs(Boot(), AroundOnce())
    ensures
      var t := After(Boot(), AroundOnce());
      && Curr(t) == FIRST && FIRST in t.sched.tasks && t.sched.tasks[FIRST].frame == AT_ZERO
      && t.sched.frame.eip == 0x1000 == t.sched.tasks[FIRST].entry
  {
    hide Boot;
    BootRing();
    BootTasks();
    var s := Boot();
    var a := Step(s, Run(AT_ZERO));
    var b := a.(sched := a.sched.(slice := 1));
    TicksRun(a, 4);
    OneTurn(b);
    RunsConcat(a, Ticks(4), [Timer] + [Yield, Yield]);
    OneRun(s, Run(AT_ZERO));
    RunsConcat(s, [Run(AT_ZERO)], Ticks(4) + ([Timer] + [Yield, Yield]));
  }

  lemma BootTasks()
    ensures Boot().sched.slice == 5 && Boot().sched.tasks.Keys == {FIRST, SECOND, THIRD}
    ensures forall u :: u in Boot().sched.tasks ==> Boot().sched.tasks[u] == Task(0x1000, 0x8000, ZERO_FRAME)
  {}

  lemma OneRun(s: State, e: Event)
    requires Enabled(s, e)
    ensures Runs(s, [e]) && After(s, [e]) == Step(s, e)
  {
    hide Enabled, Step;
    assert [e][1..] == [];
  }

  /** The turn passes to the next thread. */
  lemma TurnTo(s: State, e: Event, next: Uid, others: seq<Uid>)
    requires (e == Timer && s.sched.slice == 1) || e == Yield
    requires |s.sched.ring| >= 2 && s.sched.ring[1..] == [next] + others
    requires s.sched.ring[0] in s.sched.tasks && next in s.sched.tasks && next != s.sched.ring[0]
    ensures Enabled(s, e)
    ensures
      var t, u := Step(s, e).sched, s.sched.ring[0];
      && t.ring == [next] + others + [u] && t.tasks.Keys == s.sched.tasks.Keys && t.slice == TIMESLICE
      && (forall v :: v in t.tasks && v != u ==> t.tasks[v] == s.sched.tasks[v])
      && t.tasks[u] == s.sched.tasks[u].(frame := StopFrame(s, e))
      && t.frame == Resume(s.sched.tasks[next], StopFrame(s, e))
  {}

  lemma OneTurn(s: State)
    requires s.sched.ring == [FIRST, SECOND, THIRD] && s.sched.slice == 1 && s.sched.frame == AT_ZERO
    requires s.sched.tasks.Keys == {FIRST, SECOND, THIRD}
    requires forall u :: u in s.sched.tasks ==> s.sched.tasks[u] == Task(0x1000, 0x8000, ZERO_FRAME)
    ensures Runs(s, [Timer] + [Yield, Yield])
    ensures
      var t := After(s, [Timer] + [Yield, Yield]);
      && Curr(t) == FIRST && FIRST in t.sched.tasks && t.sched.tasks[FIRST].frame == AT_ZERO
      && t.sched.frame.eip == 0x1000 == t.sched.tasks[FIRST].entry
  {
    hide Step, Enabled;
    TurnTo(s, Timer, SECOND, [THIRD]);
    var a := Step(s, Timer);
    TurnTo(a, Yield, THIRD, [FIRST]);
    var b := Step(a, Yield);
    TurnTo(b, Yield, FIRST, [SECOND]);
    OneRun(s, Timer);
    TwoSteps(a, Yield, Yield);
    RunsConcat(s, [Timer], [Yield, Yield]);
  }

  // ----- Versions that have come round to zero -----

  const WORN := Uid(2, 1)

  /** The first process is the 256th in its slot, and its second thread the 256th in its own. */
  function Worn(): State {
    var task := Task(0x1000, 0x8000, ZERO_FRAME);
    var threads := map[0 := Thread(1, Port(0, 0, 0, 0), 0, 0, []), 1 := Thread(0, Port(1, 0, 0, 0), 0, 0, [])];
    var p := Proc(0, 0, 2, 0, seq(PROCESS_THREAD_MAX, i => if i == 0 then 1 else 0), threads, 0x1000);
    State(seq(PROCESS_MAX, _ => 0), map[2 := p],
          Sched([FIRST], TIMESLICE, map[FIRST := Active, WORN := Waiting], map[FIRST := task, WORN := task],
                Frame(0x1000, 0x8000, 0, []), 2))
  }

  lemma WornTable()
    ensures TableOk(Worn())
  {}

  lemma WornLive(u: Uid)
    ensures Live(Worn(), u) <==> u in {FIRST, WORN}
    ensures RunOf(Worn(), u) == if u == FIRST then Active else if u == WORN then Waiting else Old
    ensures Queue(Worn(), u) == []
  {}

  lemma WornQueue()
    ensures QueueOk(Worn().sched) && Worn().sched.run.Keys == {FIRST, WORN}
  {}

  /** Its port leads to the main thread instead. */
  lemma WornPortMisleads()
    ensures Core(Worn()) && Live(Worn(), WORN) && VersionOf(256) == 0
    ensures Resolve(Worn(), PortOf(Worn(), WORN), 0) == FIRST != WORN
  {
    hide Worn, TableOk, QueueOk, Live, RunOf, Queue, Resolve, PortOf, VersionOf;
    VersionsArePeriodic(256);
    WornTable();
    WornQueue();
    WornPort();
    forall u ensures (Live(Worn(), u) <==> u in {FIRST, WORN}) && Queue(Worn(), u) == []
                     && RunOf(Worn(), u) == if u == FIRST then Active else if u == WORN then Waiting else Old
    {
      WornLive(u);
    }
  }

  lemma WornPort()
    ensures Resolve(Worn(), PortOf(Worn(), WORN), 0) == FIRST
  {}
}
