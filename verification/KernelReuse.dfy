/** A concrete run in which the port of a dead thread comes to mean a new one. */
module KernelReuse {
  import opened Ports
  import opened RunQueue
  import opened Mail
  import opened KernelState
  import opened KernelInvariant
  import opened KernelSteps
  import opened KernelPorts
  import opened KernelBoot
  import opened KernelContext

  const SLOT := 5
  const REUSED := Uid(5, 0)

  /** Slot 5 is free, and the caller, of another process, may create and kill there. */
  ghost predicate Ready(s: State) {
    Core(s) && s.sched.ring != [] && SLOT !in s.procs
  }

  /** A process is created in slot 5 and killed at once. */
  const ROUND := [Spawn(SLOT), Kill(SLOT)]

  function Rounds(n: nat): seq<Event> {
    if n == 0 then [] else ROUND + Rounds(n - 1)
  }

  lemma CallerKnown(s: State)
    requires Ready(s)
    ensures Curr(s).pid in s.procs && Curr(s).pid != SLOT && |s.pvers| == PROCESS_MAX && s.pvers[SLOT] < 256
    ensures Enabled(s, Spawn(SLOT)) && ThreadsIn(s, SLOT) == {}
  {
    CurrLive(s);
    assert forall u :: u in s.sched.run ==> Live(s, u);
  }

  /** Killing a process without threads leaves the run queue alone. */
  lemma KillEmpty(s: State, pid: nat)
    requires s.sched.ring != [] && pid in s.procs && pid != 0 && Curr(s).pid in s.procs && Curr(s).pid != pid
    requires ThreadsIn(s, pid) == {} && s.procs[Curr(s).pid].priv >= s.procs[pid].priv
    ensures Enabled(s, Kill(pid)) && Step(s, Kill(pid)).procs == s.procs - {pid} && Step(s, Kill(pid)).pvers == s.pvers
  {
    KeepAll(s.sched.ring, {});
  }

  lemma RoundRuns(s: State)
    requires Ready(s)
    ensures Runs(s, ROUND) && Ready(After(s, ROUND))
    ensures |After(s, ROUND).pvers| == |s.pvers| == PROCESS_MAX && s.pvers[SLOT] < 256
    ensures After(s, ROUND).pvers[SLOT] == NextVersion(s.pvers[SLOT])
  {
    CallerKnown(s);
    var a := Step(s, Spawn(SLOT));
    SpawnFacts(s);
    KillEmpty(a, SLOT);
    TwoSteps(s, Spawn(SLOT), Kill(SLOT));
    hide Core, Fresh, Enabled, Step, Runs, After;
    StepKeeps(s, Spawn(SLOT));
    StepKeeps(a, Kill(SLOT));
    KillRing(a);
  }

  lemma SpawnFacts(s: State)
    requires Ready(s) && Enabled(s, Spawn(SLOT)) && Curr(s).pid in s.procs && ThreadsIn(s, SLOT) == {}
    ensures
      var a := Step(s, Spawn(SLOT));
      && a.sched.ring == s.sched.ring && a.procs.Keys == s.procs.Keys + {SLOT} && ThreadsIn(a, SLOT) == {}
      && a.procs[Curr(s).pid].priv == a.procs[SLOT].priv && a.procs - {SLOT} == s.procs
      && a.pvers == s.pvers[SLOT := NextVersion(s.pvers[SLOT])]
  {}

  lemma KillRing(s: State)
    requires Enabled(s, Kill(SLOT))
    ensures Step(s, Kill(SLOT)).sched.ring != []
  {}

  /** Any number of rounds can be run, and each advances the slot's version. */
  lemma {:induction false} RoundsRun(s: State, n: nat, g: nat)
    requires Ready(s) && |s.pvers| == PROCESS_MAX && s.pvers[SLOT] == VersionOf(g)
    ensures Runs(s, Rounds(n)) && Ready(After(s, Rounds(n)))
    ensures |After(s, Rounds(n)).pvers| == PROCESS_MAX && After(s, Rounds(n)).pvers[SLOT] == VersionOf(g + n)
    decreases n
  {
    hide Ready, VersionOf, Enabled, Step;
    if n > 0 {
      hide Runs, After;
      RoundRuns(s);
      NextGeneration(g);
      RoundsRun(After(s, ROUND), n - 1, g + 1);
      RunsConcat(s, ROUND, Rounds(n - 1));
    }
  }

  const ENTRY := 0x1000

  /** A process is created in slot 5, and its main thread started. */
  const MINT := [Spawn(SLOT), Launch(SLOT, ENTRY)]

  lemma MintRuns(s: State)
    requires Ready(s) && |s.pvers| == PROCESS_MAX && s.pvers[SLOT] < 256
    ensures Runs(s, MINT) && Core(After(s, MINT)) && Live(After(s, MINT), REUSED)
    ensures PortOf(After(s, MINT), REUSED) == Port(SLOT, NextVersion(s.pvers[SLOT]), 0, 1)
    ensures
      var t := After(s, MINT);
      && t.pvers == s.pvers[SLOT := NextVersion(s.pvers[SLOT])] && t.sched.ring != [] && Curr(t) == Curr(s)
      && SLOT in t.procs && Curr(t).pid in t.procs && Curr(t).pid != SLOT
      && t.procs[Curr(t).pid].priv == t.procs[SLOT].priv
  {
    CallerKnown(s);
    SpawnFacts(s);
    var a := Step(s, Spawn(SLOT));
    LaunchFacts(s);
    TwoSteps(s, Spawn(SLOT), Launch(SLOT, ENTRY));
    hide Core, Fresh, Enabled, Step, Runs, After, Live, PortOf;
    StepKeeps(s, Spawn(SLOT));
    StepKeeps(a, Launch(SLOT, ENTRY));
  }

  lemma LaunchFacts(s: State)
    requires Ready(s) && Enabled(s, Spawn(SLOT)) && Curr(s).pid in s.procs && Curr(s).pid != SLOT
    ensures
      var a := Step(s, Spawn(SLOT));
      && Enabled(a, Launch(SLOT, ENTRY))
      && var t := Step(a, Launch(SLOT, ENTRY));
         && Live(t, REUSED) && PortOf(t, REUSED) == Port(SLOT, NextVersion(s.pvers[SLOT]), 0, 1)
         && t.pvers == a.pvers && t.sched.ring != [] && Curr(t) == Curr(s)
         && SLOT in t.procs && Curr(t).pid in t.procs && t.procs[Curr(t).pid].priv == t.procs[SLOT].priv
  {
    hide Core, Fresh;
  }

  lemma KillAgain(s: State)
    requires Core(s) && s.sched.ring != [] && SLOT in s.procs && Curr(s).pid in s.procs && Curr(s).pid != SLOT
    requires s.procs[Curr(s).pid].priv >= s.procs[SLOT].priv
    ensures Enabled(s, Kill(SLOT)) && Ready(Step(s, Kill(SLOT))) && Step(s, Kill(SLOT)).pvers == s.pvers
  {
    CoreStates(s);
    HeadStaysPut(s, SLOT);
    KillAgainSteps(s);
    StepKeeps(s, Kill(SLOT));
  }

  lemma KillAgainSteps(s: State)
    requires SLOT in s.procs && Curr(s).pid in s.procs && Curr(s).pid != SLOT && s.sched.ring != []
    requires s.procs[Curr(s).pid].priv >= s.procs[SLOT].priv && EndProcess(s, SLOT).sched.ring != []
    ensures Enabled(s, Kill(SLOT))
    ensures
      var t := Step(s, Kill(SLOT));
      SLOT !in t.procs && t.pvers == s.pvers && t.sched.ring != []
  {
    hide RemoveAll, Leave;
  }

  /** The thread is killed, the slot is used 255 times, and then once more for a new thread. */
  function Reuse(): seq<Event> {
    [Kill(SLOT)] + (Rounds(255) + MINT)
  }

  /** From the starting state: a thread is created and killed, its port leads to nobody; 256
      processes later in the same slot, the old port leads to the new thread there. */
  lemma StalePortReached()
    ensures Runs(Boot(), MINT)
    ensures
      var s := After(Boot(), MINT);
      && Live(s, REUSED) && Enabled(s, Kill(SLOT)) && Runs(s, Reuse())
      && Resolve(Step(s, Kill(SLOT)), PortOf(s, REUSED), 0) == NOBODY
      && Resolve(After(s, Reuse()), PortOf(s, REUSED), 0) == REUSED
  {
    hide Ready, Runs, After, VersionOf, Enabled, Step, Boot, Live, PortOf, Resolve, Rounds, Core, Fresh;
    BootReady();
    MintRuns(Boot());
    var s := After(Boot(), MINT);
    KillAgain(s);
    var b := Step(s, Kill(SLOT));
    FirstVersions();
    RoundsRun(b, 255, 1);
    var c := After(b, Rounds(255));
    MintRuns(c);
    OneRun(s, Kill(SLOT));
    RunsConcat(b, Rounds(255), MINT);
    RunsConcat(s, [Kill(SLOT)], Rounds(255) + MINT);
    var t := After(s, Reuse());
    GonePort(b, PortOf(s, REUSED));
    SamePortAgain(t, REUSED);
  }

  lemma BootReady()
    ensures Ready(Boot()) && |Boot().pvers| == PROCESS_MAX && Boot().pvers[SLOT] == 0
  {
    BootOk();
  }

  lemma FirstVersions()
    ensures VersionOf(1) == 1 && VersionOf(256) == 0 && NextVersion(0) == 1
  {
    hide VersionOf;
    VersionsArePeriodic(1);
    VersionsArePeriodic(256);
  }

  lemma GonePort(s: State, p: Port)
    requires Ready(s) && p.pid == SLOT && !p.Unversioned()
    ensures Resolve(s, p, 0) == NOBODY
  {}

  lemma SamePortAgain(t: State, u: Uid)
    requires Live(t, u) && u.pid >= 2 && !PortOf(t, u).Unversioned()
    ensures Resolve(t, PortOf(t, u), 0) == u
  {}
}
