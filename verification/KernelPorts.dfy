/** Ports over whole runs: whom they lead to, whom they match, and what becomes of them when their
    slots are used again. */
module KernelPorts {
  import opened Ports
  import opened RunQueue
  import opened Mail
  import opened KernelState
  import opened KernelInvariant
  import opened KernelSteps
  import opened KernelMail

  // ----- Ports of dead threads -----

  /** A port that leads to nobody keeps doing so, even when its slots are used again. */
  lemma DeadPortStep(s: State, e: Event, p: Port, parent: nat)
    requires Core(s) && Enabled(s, e) && NoWrap(s, e) && KnownPort(s, p) && Resolve(s, p, parent) == NOBODY
    ensures KnownPort(Step(s, e), p) && Resolve(Step(s, e), p, parent) == NOBODY
  {
    hide Enabled, Step, MoveOf, Newborn, Moved, StatesOk, NoLostWakeup, Fresh, TableOk, KnownPort, Resolve,
      PortOf, Live, NoWrap;
    StepChange(s, e);
    StepKeeps(s, e);
    ResolveIsOwner(s, p, parent);
    ResolveIsOwner(Step(s, e), p, parent);
  }

  /** In every run in which no version counter wraps, a port never comes to mean another thread. */
  lemma {:induction false} DeadPortsStayDead(s: State, events: seq<Event>, p: Port, parent: nat)
    requires Core(s) && NoWrapRun(s, events) && KnownPort(s, p) && Resolve(s, p, parent) == NOBODY
    ensures Runs(s, events) && Resolve(After(s, events), p, parent) == NOBODY
    decreases |events|
  {
    NoWrapRunRuns(s, events);
    if events != [] {
      StepKeeps(s, events[0]);
      DeadPortStep(s, events[0], p, parent);
      hide Core, Fresh, Enabled, Step, KnownPort, Resolve, NoWrap;
      DeadPortsStayDead(Step(s, events[0]), events[1..], p, parent);
    }
  }

  /** Going from a live thread to its port and back fails exactly when both 8-bit versions
      have reached zero and the thread is not the main one. */
  lemma PortRoundTripExactly(s: State, u: Uid, parent: nat)
    requires Live(s, u) && u.pid >= 2
    ensures Resolve(s, PortOf(s, u), parent) == u <==>
              !(s.procs[u.pid].version == 0 && ThreadAt(s, u).version == 0) || u.tid == 0
  {}

  // ----- Versions count creations -----

  /** How often a run creates a process in slot `pid`. */
  function Spawns(events: seq<Event>, pid: nat): nat {
    if events == [] then 0 else (if events[0] == Spawn(pid) then 1 else 0) + Spawns(events[1..], pid)
  }

  /** How often thread slot `u` has been used since its process was created, `n` times before the run. */
  ghost function Opens(s: State, events: seq<Event>, u: Uid, n: nat): nat
    requires Runs(s, events)
    decreases |events|
  {
    if events == [] then n
    else
      var e := events[0];
      Opens(Step(s, e), events[1..], u, if e == Spawn(u.pid) then 0 else if Newborn(s, e) == u then n + 1 else n)
  }

  /** The version counter of a thread slot; zero if there is no process to hold it. */
  function Counter(s: State, u: Uid): nat {
    if u.pid in s.procs && u.tid < |s.procs[u.pid].tvers| then s.procs[u.pid].tvers[u.tid] else 0
  }

  lemma QuietCounters(s: State, t: State, u: Uid)
    requires SamePeople(s, t)
    ensures t.pvers == s.pvers && Counter(t, u) == Counter(s, u) && (u.pid in t.procs <==> u.pid in s.procs)
  {}

  lemma StartCounters(s: State, v: Uid, entry: nat, stack: nat, fallback: nat, u: Uid)
    requires CanOpen(s, v)
    ensures
      var t := StartThread(s, v, entry, stack, fallback);
      && t.pvers == s.pvers && (u.pid in t.procs <==> u.pid in s.procs)
      && (v == u ==> Counter(s, u) < 256)
      && Counter(t, u) == if v == u then NextVersion(Counter(s, u)) else Counter(s, u)
  {
    hide Enter, Add;
  }

  /** What a step does to the counters of slot `u`. */
  ghost predicate CountersFollow(s: State, t: State, e: Event, u: Uid) {
    && (e == Spawn(u.pid) ==>
          u.pid < |s.pvers| && s.pvers[u.pid] < 256 && t.pvers == s.pvers[u.pid := NextVersion(s.pvers[u.pid])])
    && (e != Spawn(u.pid) && u.pid < |s.pvers| ==> |t.pvers| == |s.pvers| && t.pvers[u.pid] == s.pvers[u.pid])
    && (u.pid in t.procs && e == Spawn(u.pid) ==> Counter(t, u) == 0)
    && (u.pid in t.procs && e != Spawn(u.pid) ==>
          && u.pid in s.procs && Counter(s, u) < 256
          && Counter(t, u) == if Newborn(s, e) == u then NextVersion(Counter(s, u)) else Counter(s, u))
  }

  lemma CounterSmall(s: State, u: Uid)
    requires TableOk(s)
    ensures Counter(s, u) < 256
  {
    if u.pid in s.procs {
      assert ProcOk(s.pvers, u.pid, s.procs[u.pid]);
    }
  }

  lemma EndCounters(s: State, e: Event, u: Uid)
    requires Core(s) && Enabled(s, e) && (e.Kill? || e.Fault?) && u.pid in Step(s, e).procs
    ensures u.pid in s.procs && Counter(Step(s, e), u) == Counter(s, u)
  {
    hide Leave, RemoveAll, Lock, Unlock, Core;
  }

  lemma SpawnCounters(s: State, pid: nat, u: Uid)
    requires pid < |s.pvers| && s.pvers[pid] < 256
    ensures
      var t := SpawnStep(s, pid);
      && t.pvers == s.pvers[pid := NextVersion(s.pvers[pid])]
      && (u.pid in t.procs <==> u.pid in s.procs || u.pid == pid)
      && Counter(t, u) == if u.pid == pid then 0 else Counter(s, u)
  {}

  lemma StepCounters(s: State, e: Event, u: Uid)
    requires Core(s) && Enabled(s, e) && u.pid >= 2
    ensures CountersFollow(s, Step(s, e), e, u)
  {
    hide Counter, StatesOk, TableOk, NoLostWakeup, SendStep, RecvStep, DropStep, WaitStep, KernelSendStep, SpawnStep,
      StartThread, SamePeople, HeadSender, CanOpen, KillStep, FaultStep;
    CounterSmall(s, u);
    CurrLive(s);
    var t := Step(s, e);
    match e {
      case Run(_) => QuietCounters(s, t, u) by { SchedOnly(s, t); }
      case Timer => QuietCounters(s, t, u) by { SchedOnly(s, t); }
      case Yield => QuietCounters(s, t, u) by { SchedOnly(s, t); }
      case Send(out, mapped, bufMapped) => SendQuiet(s, out, mapped, bufMapped); QuietCounters(s, t, u);
      case Recv(mapped, bufSize, bufMapped) => RecvQuiet(s, mapped, bufSize, bufMapped); QuietCounters(s, t, u);
      case Drop(mapped) => DropQuiet(s, mapped); QuietCounters(s, t, u);
      case Wait(w) => WaitQuiet(s, w); QuietCounters(s, t, u);
      case KernelSend(port, code, args) => KernelSendQuiet(s, port, code, args); QuietCounters(s, t, u);
      case Spawn(pid) => SpawnCounters(s, pid, u);
      case Launch(pid, entry) =>
        if LaunchError(s, pid) == ENONE {
          var a := StartThread(s, Uid(pid, 0), 0, 0, entry);
          StartCounters(s, Uid(pid, 0), 0, 0, entry, u);
          SameCounter(a, t, u);
        } else {
          SchedOnly(s, t);
          QuietCounters(s, t, u);
        }
      case Dispatch(tid, entry, stack) =>
        var v, fallback := Uid(Curr(s).pid, tid), s.procs[Curr(s).pid].entry;
        StartCounters(s, v, entry, stack, fallback, u);
        SameCounter(StartThread(s, v, entry, stack, fallback), t, u);
      case Kill(pid) => EndVersions(s, e); if u.pid in t.procs { EndCounters(s, e, u); }
      case Fault => EndVersions(s, e); if u.pid in t.procs { EndCounters(s, e, u); }
    }
  }

  lemma SameCounter(s: State, t: State, u: Uid)
    requires t.procs == s.procs
    ensures Counter(t, u) == Counter(s, u)
  {}

  lemma EndVersions(s: State, e: Event)
    requires Enabled(s, e) && (e.Kill? || e.Fault?)
    ensures Step(s, e).pvers == s.pvers
  {}

  lemma NextGeneration(g: nat)
    ensures NextVersion(VersionOf(g)) == VersionOf(g + 1)
  {}

  lemma GenerationStep(s: State, e: Event, u: Uid, g: nat, n: nat)
    requires Core(s) && Enabled(s, e) && 2 <= u.pid < |s.pvers|
    requires s.pvers[u.pid] == VersionOf(g) && (u.pid in s.procs ==> Counter(s, u) == VersionOf(n))
    ensures
      var t := Step(s, e);
      && |t.pvers| == |s.pvers| && t.pvers[u.pid] == VersionOf(if e == Spawn(u.pid) then g + 1 else g)
      && (u.pid in t.procs ==>
            Counter(t, u) == VersionOf(if e == Spawn(u.pid) then 0 else if Newborn(s, e) == u then n + 1 else n))
  {
    hide Core, Fresh, Enabled, Step, Newborn, Counter, VersionOf, NextVersion;
    StepCounters(s, e, u);
    NextGeneration(g);
    NextGeneration(n);
    FirstVersion();
  }

  /** After any run the counters of a slot are its numbers of creations, modulo 256. */
  lemma {:induction false} VersionsCountCreations(s: State, events: seq<Event>, u: Uid, g: nat, n: nat)
    requires Core(s) && Runs(s, events) && 2 <= u.pid < |s.pvers|
    requires s.pvers[u.pid] == VersionOf(g) && (u.pid in s.procs ==> Counter(s, u) == VersionOf(n))
    ensures
      var t := After(s, events);
      && |t.pvers| == |s.pvers| && t.pvers[u.pid] == VersionOf(g + Spawns(events, u.pid))
      && (u.pid in t.procs ==> Counter(t, u) == VersionOf(Opens(s, events, u, n)))
    decreases |events|
  {
    hide Core, Fresh, Enabled, Step, Newborn, Counter, VersionOf;
    if events != [] {
      var e := events[0];
      StepKeeps(s, e);
      GenerationStep(s, e, u, g, n);
      var m := if e == Spawn(u.pid) then 0 else if Newborn(s, e) == u then n + 1 else n;
      VersionsCountCreations(Step(s, e), events[1..], u, if e == Spawn(u.pid) then g + 1 else g, m);
    }
  }

  lemma FirstVersion()
    ensures VersionOf(0) == 0
  {}

  /** A live thread's versions are its slot's counters. */
  lemma LiveCounters(s: State, u: Uid)
    requires TableOk(s) && Live(s, u)
    ensures 2 <= u.pid < |s.pvers| && s.procs[u.pid].version == s.pvers[u.pid] < 256
    ensures ThreadAt(s, u).version == Counter(s, u) < 256
  {
    assert ProcOk(s.pvers, u.pid, s.procs[u.pid]);
  }

  lemma SmallVersion(v: nat)
    requires v < 256
    ensures VersionOf(v) == v
  {
    VersionsArePeriodic(v);
  }

  /** A versioned port leads to whoever lives in its slot exactly if the versions are the same. */
  lemma VersionsDecide(t: State, u: Uid, p: Port, parent: nat)
    requires Live(t, u) && u.pid >= 2 && p.pid == u.pid && p.tid == u.tid && !p.Unversioned()
    ensures Resolve(t, p, parent) == if p == PortOf(t, u) then u else NOBODY
  {}

  lemma MainPlace(t: State, p: Port, parent: nat)
    requires p.Unversioned() && p.pid >= 2
    ensures Resolve(t, p, parent) == Uid(p.pid, 0)
  {}

  /** The port of a thread leads, after any run, to the thread then living in its slot exactly when
      the process slot was reused a multiple of 256 times and the thread slot's number of uses since
      then agrees modulo 256.  Otherwise it leads to nobody; and a port without versions, which
      a thread has whose counters are both zero, always leads to the main thread's place. */
  lemma StalePortExactly(s: State, events: seq<Event>, u: Uid, parent: nat)
    requires Core(s) && Runs(s, events) && Live(s, u) && Live(After(s, events), u)
    ensures
      var t, now := After(s, events), Opens(s, events, u, ThreadAt(s, u).version);
      Resolve(t, PortOf(s, u), parent) ==
        if PortOf(s, u).Unversioned() then Uid(u.pid, 0)
        else if Spawns(events, u.pid) % 256 == 0 && now % 256 == ThreadAt(s, u).version then u else NOBODY
  {
    hide Runs, After, Opens, Spawns, VersionOf, Resolve, StatesOk, TableOk, NoLostWakeup, Counter, ThreadAt;
    var t, g, n := After(s, events), s.procs[u.pid].version, ThreadAt(s, u).version;
    RunsKeep(s, events);
    LiveCounters(s, u);
    LiveCounters(t, u);
    SmallVersion(g);
    SmallVersion(n);
    VersionsCountCreations(s, events, u, g, n);
    if PortOf(s, u).Unversioned() {
      MainPlace(t, PortOf(s, u), parent);
    } else {
      VersionsDecide(t, u, PortOf(s, u), parent);
    }
    VersionsArePeriodic(Opens(s, events, u, n));
    VersionCollision(g, g + Spawns(events, u.pid));
  }

  // ----- Matching and leading -----

  /** Comparing a port with a live thread's port agrees with where the port leads, except exactly:
      the wildcard matches everybody and leads to nobody; a local port leads to a thread of the
      caller and matches nobody; an unversioned port with a thread number matches that thread and
      leads to the main one; and a versioned port matches a thread whose own versions are zero. */
  lemma CompareAgreesExactly(s: State, w: Port, u: Uid, parent: nat)
    requires TableOk(s) && Live(s, u)
    ensures (Compare(w, PortOf(s, u)) <==> Resolve(s, w, parent) == u) <==>
      !(|| w == IPORT_ANY
        || (w.Unversioned() && w.pid == 0 && u == Uid(parent, w.tid))
        || (w.Unversioned() && w.pid >= 2 && w.tid != 0 && u.pid == w.pid && (u.tid == w.tid || u.tid == 0))
        || (!w.Unversioned() && PortOf(s, u).Unversioned() && u == Uid(w.pid, w.tid)))
  {
    assert ProcOk(s.pvers, u.pid, s.procs[u.pid]);
  }

  // ----- Waiting for a local port -----

  predicate Local(w: Port) {
    w.Unversioned() && w.pid == 0
  }

  lemma CoreTables(s: State)
    requires Core(s)
    ensures TableOk(s)
  {}

  lemma PortPid(s: State, u: Uid)
    requires Live(s, u)
    ensures PortOf(s, u).pid == u.pid
  {}

  /** Whoever sends, it is a thread of a process numbered 2 or more, or the kernel. */
  lemma SendersAreGlobal(s: State, e: Event)
    requires Core(s) && Enabled(s, e) && MoveOf(s, e).Arrival?
    ensures MoveOf(s, e).m.from.pid >= 1 && MoveOf(s, e).m.from != IPORT_ANY
  {
    hide Resolve, AtPost, Woken, SendError, Enabled, Core, RecvError, Found, Live, ThreadAt;
    CoreStates(s);
    CoreTables(s);
    RingNotEmpty(s, e);
    CurrLive(s);
    LiveCounters(s, Curr(s));
    PortPid(s, Curr(s));
  }

  /** No message ends a wait for a local port. */
  lemma LocalWaitStep(s: State, e: Event, u: Uid)
    requires Core(s) && Enabled(s, e) && Live(s, u) && RunOf(s, u) == Waiting && Local(ThreadAt(s, u).waitFor)
    requires Live(Step(s, e), u)
    ensures ThreadAt(Step(s, e), u).waitFor == ThreadAt(s, u).waitFor
    ensures RunOf(Step(s, e), u) == Waiting || Released(s, e) == u
    ensures Fresh(s) ==> RunOf(Step(s, e), u) == Waiting
  {
    hide Core, Fresh, Enabled, Step, MoveOf, Newborn, PortOf, ThreadAt, Queue, Blocks, Released, RunOf, Live;
    StepStates(s, e);
    CurrOfEnabled(s, e);
    if Fresh(s) {
      ReleasedWasSending(s, e);
    }
    if MoveOf(s, e).Arrival? && MoveOf(s, e).front {
      FrontMeansWoken(s, e);
      SendersAreGlobal(s, e);
    }
  }

  ghost predicate LivesThrough(s: State, events: seq<Event>, u: Uid)
    requires Runs(s, events)
    decreases |events|
  {
    Live(s, u) && (events != [] ==> LivesThrough(Step(s, events[0]), events[1..], u))
  }

  /** In no orderly run does a wait for a local port end before the waiting thread is killed. */
  lemma {:induction false} LocalWaitNeverEnds(s: State, events: seq<Event>, u: Uid)
    requires Inv(s) && OrderlyRun(s, events) && RunOf(s, u) == Waiting && Local(ThreadAt(s, u).waitFor)
    requires Runs(s, events) && LivesThrough(s, events, u)
    ensures RunOf(After(s, events), u) == Waiting
    decreases |events|
  {
    if events != [] {
      StepKeeps(s, events[0]);
      LivesOn(s, events, u);
      LocalWaitStep(s, events[0], u);
      hide Core, Fresh, Enabled, Step, Orderly, ThreadAt, RunOf, Live, Local;
      LocalWaitNeverEnds(Step(s, events[0]), events[1..], u);
    }
  }

  lemma LivesOn(s: State, events: seq<Event>, u: Uid)
    requires Runs(s, events) && LivesThrough(s, events, u) && events != []
    ensures Live(Step(s, events[0]), u)
  {}
}
