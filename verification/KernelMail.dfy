/** Mail over whole runs: delivery in order, and wake-ups that always find their message. */
module KernelMail {
  import opened Ports
  import opened RunQueue
  import opened Mail
  import opened KernelState
  import opened KernelInvariant
  import opened KernelSteps

  // ----- Order of delivery -----

  /** What was sent to each thread, and what it received or dropped, since it was created. */
  datatype Ledger = Ledger(sent: map<Uid, seq<Message>>, got: map<Uid, seq<Message>>)

  function At(m: map<Uid, seq<Message>>, u: Uid): seq<Message> {
    if u in m then m[u] else []
  }

  function Track(l: Ledger, s: State, e: Event): Ledger {
    var born := Newborn(s, e);
    if born != NOBODY then
      Ledger(l.sent[born := []], l.got[born := []])
    else
      match MoveOf(s, e)
      case Arrival(to, m, _) => l.(sent := l.sent[to := At(l.sent, to) + [m]])
      case Departure(of) => if Queue(s, of) == [] then l else l.(got := l.got[of := At(l.got, of) + [Queue(s, of)[0]]])
      case Reorder(_, _) => l
      case Nothing => l
  }

  /** Every sender's messages have been taken out in the order in which they were put in. */
  ghost predicate InOrder(l: Ledger, s: State) {
    forall u, p :: Live(s, u) ==> From(At(l.sent, u), p) == From(At(l.got, u), p) + From(Queue(s, u), p)
  }

  /** A message that goes in front woke its receiver, which was waiting for just that sender. */
  lemma FrontMeansWoken(s: State, e: Event)
    requires Core(s) && Enabled(s, e) && MoveOf(s, e).Arrival? && MoveOf(s, e).front
    ensures
      var move := MoveOf(s, e);
      && RunOf(s, move.to) == Waiting
      && Compare(ThreadAt(s, move.to).waitFor, move.m.from)
      && (forall m :: m in Queue(s, move.to) ==> !Compare(ThreadAt(s, move.to).waitFor, m.from))
  {
    hide Resolve, PortOf, AtPost, ThreadAt, Queue, TableOk, Enabled, StatesOk;
    if e.Send? {
      RingNotEmpty(s, e);
      AtPostEffect(s, e.out);
      CurrRuns(s);
    }
  }

  lemma RingNotEmpty(s: State, e: Event)
    requires Enabled(s, e)
    ensures s.sched.ring != []
  {}

  /** How one queue's share of a sender's messages changes with a move. */
  lemma MoveKeepsOrder(s: State, e: Event, v: Uid, p: Port)
    requires Core(s) && Enabled(s, e)
    ensures
      var q, move := Queue(s, v), MoveOf(s, e);
      && (move.Arrival? ==> From(Moved(move, v, q), p) == From(q, p) + if v == move.to then From([move.m], p) else [])
      && (move.Departure? && v == move.of && q != [] ==> From(q, p) == From([q[0]], p) + From(Moved(move, v, q), p))
      && (move.Departure? && (v != move.of || q == []) ==> Moved(move, v, q) == q)
      && (move.Reorder? ==> From(Moved(move, v, q), p) == From(q, p))
      && (move.Nothing? ==> Moved(move, v, q) == q)
  {
    var q, move := Queue(s, v), MoveOf(s, e);
    hide MoveOf, Enabled, Core, Fresh, Queue, From, Promote, Compare;
    match move {
      case Arrival(to, m, front) =>
        FromConcat(q, [m], p);
        if front && v == to {
          FrontMeansWoken(s, e);
          PrependKeepsOrder(q, m, ThreadAt(s, v).waitFor, p);
        }
      case Departure(of) =>
        if v == of && q != [] {
          FromConcat([q[0]], q[1..], p);
          assert q == [q[0]] + q[1..];
        }
      case Reorder(of, w) => PromoteKeepsOrder(q, w, p);
      case Nothing =>
    }
  }

  lemma NewbornIsNew(s: State, e: Event)
    requires Core(s) && Enabled(s, e)
    ensures Newborn(s, e) != NOBODY ==> !Live(s, Newborn(s, e)) && MoveOf(s, e) == Nothing
  {}

  lemma NobodyIsDead(s: State)
    requires Core(s)
    ensures !Live(s, NOBODY)
  {}

  lemma ArrivalBalance(sent: seq<Message>, got: seq<Message>, q: seq<Message>, m: seq<Message>)
    requires sent == got + q
    ensures sent + m == got + (q + m)
  {}

  lemma DepartureBalance(sent: seq<Message>, got: seq<Message>, h: seq<Message>, rest: seq<Message>)
    requires sent == got + (h + rest)
    ensures sent == (got + h) + rest
  {}

  /** One thread that lives through the step. */
  lemma ThreadInOrder(l: Ledger, s: State, e: Event, u: Uid, p: Port)
    requires Core(s) && Enabled(s, e) && InOrder(l, s) && Live(s, u) && Live(Step(s, e), u)
    ensures
      var l' := Track(l, s, e);
      From(At(l'.sent, u), p) == From(At(l'.got, u), p) + From(Queue(Step(s, e), u), p)
  {
    hide Core, Fresh, Enabled, Step, MoveOf, Newborn, From, Live, PortOf, KnownPort, Queue, Moved;
    var q, move := Queue(s, u), MoveOf(s, e);
    StepChange(s, e);
    NewbornIsNew(s, e);
    MoveKeepsOrder(s, e, u, p);
    var sent, got := At(l.sent, u), At(l.got, u);
    if move.Arrival? && u == move.to {
      FromConcat(sent, [move.m], p);
      ArrivalBalance(From(sent, p), From(got, p), From(q, p), From([move.m], p));
    } else if move.Departure? && u == move.of && q != [] {
      FromConcat(got, [q[0]], p);
      DepartureBalance(From(sent, p), From(got, p), From([q[0]], p), From(Moved(move, u, q), p));
    }
  }

  lemma StepInOrder(l: Ledger, s: State, e: Event)
    requires Core(s) && Enabled(s, e) && InOrder(l, s)
    ensures InOrder(Track(l, s, e), Step(s, e))
  {
    hide Core, Fresh, Enabled, Step, MoveOf, Newborn, From, Live, PortOf, KnownPort, Queue, Follows, InOrder;
    var t, l' := Step(s, e), Track(l, s, e);
    forall u, p | Live(t, u)
      ensures From(At(l'.sent, u), p) == From(At(l'.got, u), p) + From(Queue(t, u), p)
    {
      if Live(s, u) {
        ThreadInOrder(l, s, e, u, p);
      } else {
        StepChange(s, e);
        StepKeeps(s, e);
        NobodyIsDead(t);
        FromNobody([], p);
      }
    }
    Conclude(l', t);
  }

  lemma Conclude(l: Ledger, s: State)
    requires forall u, p :: Live(s, u) ==> From(At(l.sent, u), p) == From(At(l.got, u), p) + From(Queue(s, u), p)
    ensures InOrder(l, s)
  {}

  function Tracked(l: Ledger, s: State, events: seq<Event>): Ledger
    requires Runs(s, events)
    decreases |events|
  {
    if events == [] then l else Tracked(Track(l, s, events[0]), Step(s, events[0]), events[1..])
  }

  /** Over any run, from any state the invariant allows, delivery per sender is first in, first out. */
  lemma {:induction false} RunsInOrder(l: Ledger, s: State, events: seq<Event>)
    requires Core(s) && Runs(s, events) && InOrder(l, s)
    ensures InOrder(Tracked(l, s, events), After(s, events))
    decreases |events|
  {
    if events != [] {
      StepKeeps(s, events[0]);
      StepInOrder(l, s, events[0]);
      hide Core, Fresh, Enabled, Step, InOrder, Track;
      RunsInOrder(Track(l, s, events[0]), Step(s, events[0]), events[1..]);
    }
  }

  /** What a thread got from a sender is always an initial part of what that sender sent to it. */
  lemma ReceivedIsPrefix(l: Ledger, s: State, events: seq<Event>, u: Uid, p: Port)
    requires Core(s) && Runs(s, events) && InOrder(l, s) && Live(After(s, events), u)
    ensures
      var end := Tracked(l, s, events);
      From(At(end.got, u), p) <= From(At(end.sent, u), p)
  {
    RunsInOrder(l, s, events);
  }

  // ----- Waits that succeed -----

  /** The first message in the queue of `u` is one that a wait for `w` accepts. */
  ghost predicate HeadMatches(s: State, u: Uid, w: Port) {
    Queue(s, u) != [] && Compare(w, Queue(s, u)[0].from)
  }

  /** A waiting thread wakes up with what it waits for at the head of its queue, unless a receiver
      lets it go as the supposed sender of a message. */
  lemma WakeFindsMessage(s: State, e: Event, u: Uid)
    requires Core(s) && Enabled(s, e) && Live(s, u) && RunOf(s, u) == Waiting
    requires Live(Step(s, e), u) && RunOf(Step(s, e), u) != Waiting
    ensures RunOf(Step(s, e), u) == Active
    ensures Released(s, e) == u || HeadMatches(Step(s, e), u, ThreadAt(s, u).waitFor)
    ensures Fresh(s) ==> HeadMatches(Step(s, e), u, ThreadAt(s, u).waitFor)
  {
    hide Core, Fresh, Enabled, Step, MoveOf, Newborn, PortOf, KnownPort, ThreadAt, Queue, Blocks, Released,
      Compare, RunOf, Live;
    StepChange(s, e);
    StepStates(s, e);
    CurrOfEnabled(s, e);
    if Fresh(s) {
      ReleasedWasSending(s, e);
    }
    if MoveOf(s, e).Arrival? && MoveOf(s, e).front {
      FrontMeansWoken(s, e);
    }
  }

  lemma CurrOfEnabled(s: State, e: Event)
    requires Core(s) && Enabled(s, e)
    ensures Live(s, Curr(s)) && RunOf(s, Curr(s)) == Active
  {}

  lemma ReleasedWasSending(s: State, e: Event)
    requires Inv(s)
    ensures Released(s, e) != NOBODY ==> Live(s, Released(s, e)) && RunOf(s, Released(s, e)) == Sending
  {
    HeadSenderBlocked(s, 0);
    HeadSenderBlocked(s, Curr(s).pid);
  }

  /** A wait that finds its message at once leaves it at the head. */
  lemma WaitFindsMessage(s: State, w: Port)
    requires Core(s) && Enabled(s, Wait(w)) && Found(s, w)
    ensures HeadMatches(Step(s, Wait(w)), Curr(s), w)
  {
    StepChange(s, Wait(w));
    hide StatesOk, TableOk, NoLostWakeup, Enabled, Step, KnownPort, PortOf;
    CurrOfEnabled(s, Wait(w));
    WaitSurvives(s, w);
  }

  lemma WaitSurvives(s: State, w: Port)
    requires Core(s) && Enabled(s, Wait(w))
    ensures Live(Step(s, Wait(w)), Curr(s))
  {
    RingNotEmpty(s, Wait(w));
    WaitQuiet(s, w);
    QuietFollows(s, WaitStep(s, w), MoveOf(s, Wait(w)));
    CurrOfEnabled(s, Wait(w));
  }

  /** Thread `u` itself changes its queue in this step. */
  predicate TouchesMail(s: State, e: Event, u: Uid) {
    Curr(s) == u && (e.Wait? || e.Recv? || e.Drop?)
  }

  /** Nobody else can disturb the head of a queue while its owner is not waiting. */
  lemma HeadStays(s: State, e: Event, u: Uid, w: Port)
    requires Core(s) && Enabled(s, e) && Live(s, u) && RunOf(s, u) != Waiting && HeadMatches(s, u, w)
    requires !TouchesMail(s, e, u) && Live(Step(s, e), u)
    ensures RunOf(Step(s, e), u) != Waiting && HeadMatches(Step(s, e), u, w)
  {
    hide Core, Fresh, Enabled, Step, Newborn, PortOf, KnownPort, ThreadAt, Queue, Compare, SendError, RecvError,
      WaitBlocks, Found, RunOf, Live, HeadSender, Resolve, AtPost, Woken;
    StepChange(s, e);
    StepStates(s, e);
    if MoveOf(s, e).Arrival? && MoveOf(s, e).front {
      FrontMeansWoken(s, e);
    }
  }

  /** In the whole run, `u` stays alive and does not touch its mail. */
  ghost predicate LeavesMail(s: State, events: seq<Event>, u: Uid)
    requires Runs(s, events)
    decreases |events|
  {
    events != [] ==>
      && !TouchesMail(s, events[0], u)
      && Live(Step(s, events[0]), u)
      && LeavesMail(Step(s, events[0]), events[1..], u)
  }

  /** After a successful wait, the awaited message stays at the head until its owner
      waits, receives or drops again, whatever the rest of the system does. */
  lemma {:induction false} HeadStaysForRuns(s: State, events: seq<Event>, u: Uid, w: Port)
    requires Core(s) && Runs(s, events) && LeavesMail(s, events, u)
    requires Live(s, u) && RunOf(s, u) != Waiting && HeadMatches(s, u, w)
    ensures HeadMatches(After(s, events), u, w)
    decreases |events|
  {
    if events != [] {
      StepKeeps(s, events[0]);
      HeadStays(s, events[0], u, w);
      hide Core, Fresh, Enabled, Step, HeadMatches, Live, RunOf, TouchesMail;
      HeadStaysForRuns(Step(s, events[0]), events[1..], u, w);
    }
  }

  // ----- From a wait to the next mail call -----

  ghost predicate WaitsFor(s: State, u: Uid, w: Port) {
    RunOf(s, u) == Waiting && ThreadAt(s, u).waitFor == w
  }

  /** A waiting thread goes on waiting for the same port, or wakes up with what it waits for. */
  lemma WaitOrWake(s: State, e: Event, u: Uid, w: Port)
    requires Inv(s) && Enabled(s, e) && Live(s, u) && Live(Step(s, e), u) && WaitsFor(s, u, w)
    ensures WaitsFor(Step(s, e), u, w) || (RunOf(Step(s, e), u) != Waiting && HeadMatches(Step(s, e), u, w))
  {
    hide Core, Fresh, Enabled, Step, MoveOf, ThreadAt, Blocks, Released, RunOf, Live, HeadMatches;
    StepStates(s, e);
    CurrOfEnabled(s, e);
    if RunOf(Step(s, e), u) != Waiting {
      WakeFindsMessage(s, e, u);
    }
  }

  lemma {:induction false} WaitsUntilAnswered(s: State, events: seq<Event>, u: Uid, w: Port)
    requires Inv(s) && OrderlyRun(s, events) && Runs(s, events) && LeavesMail(s, events, u)
    requires Live(s, u) && WaitsFor(s, u, w)
    ensures WaitsFor(After(s, events), u, w) || HeadMatches(After(s, events), u, w)
    decreases |events|
  {
    hide Core, Fresh, Enabled, Step, HeadMatches, Live, RunOf, TouchesMail, WaitsFor, Orderly;
    if events != [] {
      var t := Step(s, events[0]);
      StepKeeps(s, events[0]);
      WaitOrWake(s, events[0], u, w);
      if WaitsFor(t, u, w) {
        WaitsUntilAnswered(t, events[1..], u, w);
      } else {
        HeadStaysForRuns(t, events[1..], u, w);
      }
    }
  }

  /** An accepted wait either finds its message or blocks. */
  lemma WaitAccepted(s: State, w: Port)
    requires Core(s) && Enabled(s, Wait(w)) && (Found(s, w) || WaitError(s, w) == ENONE)
    ensures
      var t, u := Step(s, Wait(w)), Curr(s);
      Live(t, u) && (WaitsFor(t, u, w) || (RunOf(t, u) != Waiting && HeadMatches(t, u, w)))
  {
    hide Core, Fresh, Enabled, Step, ThreadAt, RunOf, Live, HeadMatches, Found, WaitError, Released;
    CurrOfEnabled(s, Wait(w));
    WaitSurvives(s, w);
    StepStates(s, Wait(w));
    NobodyReleased(s, w);
    if Found(s, w) {
      WaitFindsMessage(s, w);
    }
  }

  lemma NobodyReleased(s: State, w: Port)
    ensures Released(s, Wait(w)) == NOBODY && !MoveOf(s, Wait(w)).Arrival?
  {}

  /** From an accepted wait on, whatever happens in an orderly run, the caller either still waits or has
      a message that it waited for at the head of its queue; so it has when it runs again, and until
      it next touches its mail. */
  lemma WaitIsAnswered(s: State, w: Port, events: seq<Event>)
    requires Inv(s) && Enabled(s, Wait(w)) && (Found(s, w) || WaitError(s, w) == ENONE)
    requires OrderlyRun(Step(s, Wait(w)), events) && Runs(Step(s, Wait(w)), events)
    requires LeavesMail(Step(s, Wait(w)), events, Curr(s))
    ensures
      var t, u := After(Step(s, Wait(w)), events), Curr(s);
      && (RunOf(t, u) == Waiting || HeadMatches(t, u, w))
      && (t.sched.ring != [] && Curr(t) == u ==> HeadMatches(t, u, w))
  {
    hide Core, Fresh, Enabled, Step, HeadMatches, Live, RunOf, TouchesMail, Orderly, Found, WaitError, StatesOk;
    var a, u := Step(s, Wait(w)), Curr(s);
    WaitAccepted(s, w);
    WaitOrderly(s, w);
    StepKeeps(s, Wait(w));
    if WaitsFor(a, u, w) {
      WaitsUntilAnswered(a, events, u, w);
    } else {
      HeadStaysForRuns(a, events, u, w);
    }
    RunsKeep(a, events);
    CoreStates(After(a, events));
    CurrLive(After(a, events));
  }

  lemma WaitOrderly(s: State, w: Port)
    requires Enabled(s, Wait(w))
    ensures Orderly(s, Wait(w))
  {}
}
