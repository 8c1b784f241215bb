/** What every kernel step keeps: the run queue matches the thread states, a waiting thread
    has no mail it waits for, and blocked senders meet exactly one receiver. */
module KernelInvariant {
  import opened Ports
  import opened RunQueue
  import opened Mail
  import opened KernelState

  // ----- The invariant -----

  /** Version counters, records and thread states agree. */
  ghost predicate ProcOk(pvers: seq<nat>, pid: nat, p: Proc) {
    && 2 <= pid < |pvers|
    && p.version == pvers[pid]
    && p.parent != pid
    && |p.tvers| == PROCESS_THREAD_MAX
    && (forall t :: 0 <= t < |p.tvers| ==> p.tvers[t] < 256)
    && (forall t :: t in p.threads ==> t < |p.tvers| && p.threads[t].version == p.tvers[t])
  }

  ghost predicate TableOk(s: State) {
    && |s.pvers| == PROCESS_MAX
    && (forall pid :: 0 <= pid < |s.pvers| ==> s.pvers[pid] < 256)
    && (forall pid :: pid in s.procs ==> ProcOk(s.pvers, pid, s.procs[pid]))
  }

  ghost predicate StatesOk(s: State) {
    && QueueOk(s.sched)
    && (forall u :: u in s.sched.run <==> Live(s, u))
    && (forall u :: Live(s, u) ==> RunOf(s, u) in {Active, Sending, Waiting})
  }

  /** No lost wake-up: nothing a waiting thread waits for is in its queue. */
  ghost predicate NoLostWakeup(s: State) {
    forall u, m :: RunOf(s, u) == Waiting && m in Queue(s, u) ==> !Compare(ThreadAt(s, u).waitFor, m.from)
  }

  /** How many payload messages of port `p` wait in the queue of `u`. */
  ghost function Held(s: State, u: Uid, p: Port): nat {
    Pending(Queue(s, u), p)
  }

  /** A port that some thread has had, now or in the past. */
  ghost predicate KnownPort(s: State, p: Port) {
    && p.pid < |s.pvers| && p.tid < PROCESS_THREAD_MAX
    && 1 <= p.pvn <= s.pvers[p.pid]
    && 1 <= p.tvn
    && (p.pid in s.procs && s.procs[p.pid].version == p.pvn && p.tid < |s.procs[p.pid].tvers| ==>
          p.tvn <= s.procs[p.pid].tvers[p.tid])
  }

  ghost predicate HeldKnown(s: State) {
    forall u, p :: Held(s, u, p) > 0 ==> KnownPort(s, p)
  }

  /** A queued payload message whose sender is alive has that sender blocked on it. */
  ghost predicate SendersBlocked(s: State) {
    forall u, v :: Live(s, v) && Held(s, u, PortOf(s, v)) > 0 ==> RunOf(s, v) == Sending
  }

  /** No sender has two payload messages under way, in the whole system. */
  ghost predicate OneEach(s: State) {
    && (forall u, p :: Held(s, u, p) <= 1)
    && (forall u, v, p :: Held(s, u, p) > 0 && Held(s, v, p) > 0 ==> u == v)
  }

  /** What every state of every run satisfies. */
  ghost predicate Core(s: State) {
    TableOk(s) && StatesOk(s) && NoLostWakeup(s)
  }

  /** No version counter has wrapped around to zero. */
  ghost predicate Versioned(s: State) {
    forall pid :: pid in s.procs ==>
      s.procs[pid].version >= 1 && forall t :: t in s.procs[pid].threads ==> s.procs[pid].threads[t].version >= 1
  }

  /** What holds as long as versions tell threads apart and payloads have buffers. */
  ghost predicate Fresh(s: State) {
    Versioned(s) && HeldKnown(s) && SendersBlocked(s) && OneEach(s)
  }

  ghost predicate Inv(s: State) {
    Core(s) && Fresh(s)
  }

  // ----- Ports of live threads -----

  /** A live thread's port leads back to it, and to nobody else. */
  lemma PortLeadsBack(s: State, u: Uid, parent: nat)
    requires TableOk(s) && Versioned(s) && Live(s, u)
    ensures Resolve(s, PortOf(s, u), parent) == u && KnownPort(s, PortOf(s, u)) && !PortOf(s, u).Unversioned()
  {
    assert ProcOk(s.pvers, u.pid, s.procs[u.pid]);
  }

  /** A versioned port resolves to a thread exactly when that thread now has that port. */
  lemma ResolveIsOwner(s: State, p: Port, parent: nat)
    requires TableOk(s) && KnownPort(s, p)
    ensures Resolve(s, p, parent) != NOBODY <==> Live(s, Uid(p.pid, p.tid)) && PortOf(s, Uid(p.pid, p.tid)) == p
    ensures Resolve(s, p, parent) != NOBODY ==> Resolve(s, p, parent) == Uid(p.pid, p.tid)
  {
    if Live(s, Uid(p.pid, p.tid)) {
      assert ProcOk(s.pvers, p.pid, s.procs[p.pid]);
    }
  }

  // ----- Same population -----

  /** The same threads with the same ports; only queues, requests and scheduling may differ. */
  ghost predicate SamePeople(s: State, t: State) {
    && t.pvers == s.pvers
    && t.procs.Keys == s.procs.Keys
    && forall pid :: pid in s.procs ==>
         && t.procs[pid].version == s.procs[pid].version
         && t.procs[pid].parent == s.procs[pid].parent
         && t.procs[pid].tvers == s.procs[pid].tvers
         && t.procs[pid].threads.Keys == s.procs[pid].threads.Keys
         && forall x :: x in s.procs[pid].threads ==>
              t.procs[pid].threads[x].version == s.procs[pid].threads[x].version
  }

  lemma SamePeopleVia(s: State, a: State, t: State)
    requires SamePeople(s, a) && t.procs == a.procs && t.pvers == a.pvers
    ensures SamePeople(s, t)
  {}

  lemma SamePeopleTrans(s: State, a: State, t: State)
    requires a.procs == s.procs && a.pvers == s.pvers && SamePeople(a, t)
    ensures SamePeople(s, t)
  {}

  lemma SamePeopleTable(s: State, t: State)
    requires SamePeople(s, t)
    ensures TableOk(s) ==> TableOk(t)
    ensures Versioned(t) == Versioned(s)
    ensures forall u :: Live(t, u) == Live(s, u) && PortOf(t, u) == PortOf(s, u)
    ensures forall p :: KnownPort(t, p) == KnownPort(s, p)
  {
    if TableOk(s) {
      forall pid | pid in t.procs ensures ProcOk(t.pvers, pid, t.procs[pid]) {
        assert ProcOk(s.pvers, pid, s.procs[pid]);
      }
    }
  }

  /** Steps that add no payload message and let a sender go only when none of its own is left. */
  lemma HeldFrame(s: State, t: State)
    requires Fresh(s) && SamePeople(s, t)
    requires forall v, p :: Held(t, v, p) <= Held(s, v, p)
    requires forall v, w :: Live(s, v) && RunOf(s, v) == Sending && Held(t, w, PortOf(s, v)) > 0 ==>
      RunOf(t, v) == Sending
    ensures Fresh(t)
  {
    SamePeopleTable(s, t);
    hide Held, PortOf, KnownPort, SamePeople, RunOf, Versioned;
    forall u, v | Live(t, v) && Held(t, u, PortOf(t, v)) > 0 ensures RunOf(t, v) == Sending {
      assert PortOf(t, v) == PortOf(s, v);
      assert Held(s, u, PortOf(s, v)) > 0;
    }
  }

  /** Nobody starts waiting, and nothing reaches a queue. */
  lemma WakeupFrame(s: State, t: State)
    requires NoLostWakeup(s)
    requires forall v :: RunOf(t, v) == Waiting ==> RunOf(s, v) == Waiting
    requires forall v :: ThreadAt(t, v).waitFor == ThreadAt(s, v).waitFor
    requires forall v, m :: m in Queue(t, v) ==> m in Queue(s, v)
    ensures NoLostWakeup(t)
  {
    hide RunOf, Queue, ThreadAt, Compare;
  }

  // ----- Mail arrives -----

  lemma AddMailEffect(s: State, u: Uid, m: Message, head: bool)
    requires Live(s, u)
    ensures
      var t := AddMail(s, u, m, head);
      && SamePeople(s, t) && t.sched == s.sched
      && (forall v ::
            Queue(t, v) == if v != u then Queue(s, v) else if head then [m] + Queue(s, u) else Queue(s, u) + [m])
      && (forall v :: ThreadAt(t, v).waitFor == ThreadAt(s, v).waitFor)
  {}

  lemma HeldAfterAdd(s: State, u: Uid, m: Message, head: bool)
    requires Live(s, u)
    ensures forall v, p :: Held(AddMail(s, u, m, head), v, p)
                        == Held(s, v, p) + if v == u && m.payload && m.from == p then 1 else 0
  {
    hide AddMail, Queue;
    AddMailEffect(s, u, m, head);
    forall p ensures Pending([m] + Queue(s, u), p) == Pending(Queue(s, u) + [m], p)
                  == Pending(Queue(s, u), p) + if m.payload && m.from == p then 1 else 0
    {
      PendingConcat([m], Queue(s, u), p);
      PendingConcat(Queue(s, u), [m], p);
      assert [m][1..] == [];
    }
  }

  /** A payload message may only be posted by a sender that is blocked and has none under way. */
  ghost predicate MayPost(s: State, m: Message) {
    m.payload ==>
      && KnownPort(s, m.from)
      && (forall u :: Held(s, u, m.from) == 0)
      && (forall v :: Live(s, v) && PortOf(s, v) == m.from ==> RunOf(s, v) == Sending)
  }

  /** Scheduling does not touch mail or ports. */
  lemma SameProcs(s: State, t: State)
    requires t.procs == s.procs && t.pvers == s.pvers
    ensures forall v, p :: Held(t, v, p) == Held(s, v, p)
    ensures forall v :: Live(t, v) == Live(s, v) && PortOf(t, v) == PortOf(s, v) && ThreadAt(t, v) == ThreadAt(s, v)
    ensures forall p :: KnownPort(t, p) == KnownPort(s, p)
    ensures TableOk(t) == TableOk(s) && Versioned(t) == Versioned(s)
  {}

  lemma SameSched(s: State, t: State)
    requires t.sched == s.sched
    ensures forall v :: RunOf(t, v) == RunOf(s, v)
  {}

  /** After a change to the mail only, a thread that is not running is woken up, or nobody. */
  lemma WakeEffect(s: State, a: State, u: Uid, wake: bool)
    requires StatesOk(s) && SamePeople(s, a) && a.sched == s.sched
    requires wake ==> Live(s, u) && RunOf(s, u) != Active
    ensures
      var t := if wake then Wake(a, u) else a;
      && SamePeople(s, t) && StatesOk(t)
      && (forall v :: Queue(t, v) == Queue(a, v)) && (forall v :: ThreadAt(t, v) == ThreadAt(a, v))
      && (forall v :: RunOf(t, v) == if wake && v == u then Active else RunOf(s, v))
      && t.sched.ring == (if wake then s.sched.ring + [u] else s.sched.ring)
  {
    hide SamePeople, PortOf, KnownPort, TableOk, Held, Live, ThreadAt, QueueOk;
    SamePeopleTable(s, a);
    SamePeopleVia(s, a, Wake(a, u));
    SameProcs(a, Wake(a, u));
    if wake {
      AddKeepsQueue(s.sched, u);
    }
  }

  lemma PostEffect(s: State, u: Uid, m: Message)
    requires StatesOk(s) && Live(s, u)
    ensures
      var t := Post(s, u, m);
      && SamePeople(s, t) && StatesOk(t)
      && (forall v :: Queue(t, v) == if v != u then Queue(s, v)
                                     else if Woken(s, u, m.from) then [m] + Queue(s, u) else Queue(s, u) + [m])
      && (forall v :: ThreadAt(t, v).waitFor == ThreadAt(s, v).waitFor)
      && (forall v :: RunOf(t, v) == if v == u && Woken(s, u, m.from) then Active else RunOf(s, v))
      && t.sched.ring == (if Woken(s, u, m.from) then s.sched.ring + [u] else s.sched.ring)
  {
    hide AddMail, StatesOk, SamePeople, ThreadAt, Woken, RunOf, Queue, Live, Wake;
    var head := Woken(s, u, m.from);
    AddMailEffect(s, u, m, head);
    if head {
      WokenWaits(s, u, m.from);
    }
    WakeEffect(s, AddMail(s, u, m, head), u, head);
  }

  lemma WokenWaits(s: State, u: Uid, p: Port)
    requires Woken(s, u, p)
    ensures RunOf(s, u) == Waiting
  {}

  lemma PostHeld(s: State, u: Uid, m: Message)
    requires Live(s, u)
    ensures forall v, p :: Held(Post(s, u, m), v, p)
                        == Held(s, v, p) + if v == u && m.payload && m.from == p then 1 else 0
  {
    hide AddMail, Held;
    HeldAfterAdd(s, u, m, Woken(s, u, m.from));
    SameProcs(AddMail(s, u, m, Woken(s, u, m.from)), Post(s, u, m));
  }

  lemma PostKeeps(s: State, u: Uid, m: Message)
    requires Core(s) && Live(s, u)
    ensures Core(Post(s, u, m))
    ensures Fresh(s) && MayPost(s, m) ==> Fresh(Post(s, u, m))
  {
    hide Post, Held, KnownPort, SamePeople, TableOk, StatesOk, Versioned;
    var t := Post(s, u, m);
    PostEffect(s, u, m);
    PostHeld(s, u, m);
    SamePeopleTable(s, t);
    assert NoLostWakeup(t) by {
      forall v, x | RunOf(t, v) == Waiting && x in Queue(t, v)
        ensures !Compare(ThreadAt(t, v).waitFor, x.from)
      {
        assert x in Queue(s, v) || (v == u && x == m);
      }
    }
    hide NoLostWakeup, Queue, ThreadAt, Compare;
  }

  // ----- A thread blocks -----

  /** The running thread leaves the queue and records what it waits for or offers. */
  function Blocked(s: State, u: Uid, why: RunState, w: Port, addr: nat, size: nat): State {
    Request(Suspend(s, u, why), u, w, addr, size)
  }

  lemma RequestEffect(s: State, u: Uid, w: Port, addr: nat, size: nat)
    requires Live(s, u)
    ensures
      var t := Request(s, u, w, addr, size);
      && SamePeople(s, t) && t.sched == s.sched
      && (forall v :: Queue(t, v) == Queue(s, v))
      && (forall v :: ThreadAt(t, v).waitFor == if v == u then w else ThreadAt(s, v).waitFor)
  {}

  lemma SuspendEffect(s: State, u: Uid, why: RunState)
    requires StatesOk(s) && s.sched.ring != [] && u == Curr(s) && why in {Sending, Waiting}
    ensures
      var t := Suspend(s, u, why);
      && t.procs == s.procs && t.pvers == s.pvers
      && t.sched.ring == s.sched.ring[1..]
      && QueueOk(t.sched) && t.sched.run.Keys == s.sched.run.Keys
      && (forall v :: RunOf(t, v) == if v == u then why else RunOf(s, v))
  {
    SuspendKeepsQueue(s.sched, why);
    hide QueueOk, Lock, Remove;
  }

  lemma BlockEffect(s: State, u: Uid, why: RunState, w: Port, addr: nat, size: nat)
    requires StatesOk(s) && s.sched.ring != [] && u == Curr(s) && why in {Sending, Waiting}
    ensures
      var t := Blocked(s, u, why, w, addr, size);
      && RunOf(s, u) == Active
      && SamePeople(s, t) && QueueOk(t.sched) && t.sched.run.Keys == s.sched.run.Keys
      && t.sched.ring == s.sched.ring[1..]
      && (forall v :: Queue(t, v) == Queue(s, v))
      && (forall v :: ThreadAt(t, v).waitFor == if v == u then w else ThreadAt(s, v).waitFor)
      && (forall v :: RunOf(t, v) == if v == u then why else RunOf(s, v))
  {
    assert RunOf(s, u) == Active;
    hide Suspend, Request, QueueOk, SamePeople, ThreadAt, PortOf, KnownPort, TableOk, Held;
    var a := Suspend(s, u, why);
    SuspendEffect(s, u, why);
    RequestEffect(a, u, w, addr, size);
    SamePeopleTrans(s, a, Request(a, u, w, addr, size));
    SameProcs(s, a);
    SameSched(a, Request(a, u, w, addr, size));
  }

  lemma BlockKeeps(s: State, u: Uid, why: RunState, w: Port, addr: nat, size: nat)
    requires Core(s) && s.sched.ring != [] && u == Curr(s) && why in {Sending, Waiting}
    requires why == Waiting ==> forall m :: m in Queue(s, u) ==> !Compare(w, m.from)
    ensures Core(Blocked(s, u, why, w, addr, size))
    ensures Fresh(s) ==> Fresh(Blocked(s, u, why, w, addr, size))
  {
    hide Blocked, QueueOk, Pending, Compare, SamePeople, TableOk, KnownPort, Versioned;
    var t := Blocked(s, u, why, w, addr, size);
    BlockEffect(s, u, why, w, addr, size);
    SamePeopleTable(s, t);
    HeldSame(s, t);
    if Fresh(s) {
      HeldFrame(s, t);
    }
  }

  lemma HeldSame(s: State, t: State)
    requires forall v :: Queue(t, v) == Queue(s, v)
    ensures forall v, p :: Held(t, v, p) == Held(s, v, p)
  {
    hide Queue, Pending;
  }

  // ----- Mail leaves -----

  lemma DropMailEffect(s: State, u: Uid)
    requires Live(s, u) && Queue(s, u) != []
    ensures
      var t := DropMail(s, u);
      && SamePeople(s, t) && t.sched == s.sched
      && (forall v :: Queue(t, v) == if v == u then Queue(s, u)[1..] else Queue(s, v))
      && (forall v :: ThreadAt(t, v).waitFor == ThreadAt(s, v).waitFor)
  {}

  /** The head message leaves the queue of `u`, and its blocked sender, if any, wakes up. */
  function Taken(s: State, u: Uid, sender: Uid): State {
    if sender != NOBODY then Wake(DropMail(s, u), sender) else DropMail(s, u)
  }

  /** Waking before dropping, as `recv` does, and after, as `drop` does, come to the same. */
  lemma TakenEitherOrder(s: State, u: Uid, sender: Uid)
    ensures DropMail(Wake(s, sender), u) == Wake(DropMail(s, u), sender)
  {}

  lemma TakenEffect(s: State, u: Uid, sender: Uid)
    requires StatesOk(s) && Live(s, u) && Queue(s, u) != []
    requires Addable(s, sender)
    ensures
      var t := Taken(s, u, sender);
      && SamePeople(s, t) && StatesOk(t)
      && (forall v :: Queue(t, v) == if v == u then Queue(s, u)[1..] else Queue(s, v))
      && (forall v :: ThreadAt(t, v).waitFor == ThreadAt(s, v).waitFor)
      && (forall v :: RunOf(t, v) == if v == sender && sender != NOBODY then Active else RunOf(s, v))
      && t.sched.ring == (if sender != NOBODY then s.sched.ring + [sender] else s.sched.ring)
  {
    hide DropMail, StatesOk, SamePeople, ThreadAt, RunOf, Queue, Live, Wake;
    DropMailEffect(s, u);
    AddableMeans(s, sender);
    WakeEffect(s, DropMail(s, u), sender, sender != NOBODY);
  }

  lemma AddableMeans(s: State, u: Uid)
    requires Addable(s, u)
    ensures u != NOBODY ==> Live(s, u) && RunOf(s, u) != Active
  {}

  lemma HeldAfterTake(s: State, u: Uid, sender: Uid)
    requires Live(s, u) && Queue(s, u) != []
    ensures
      var h := Queue(s, u)[0];
      forall v, p :: Held(s, v, p) == Held(Taken(s, u, sender), v, p) +
        if v == u && h.payload && h.from == p then 1 else 0
  {
    hide DropMail, Queue;
    DropMailEffect(s, u);
    SameProcs(DropMail(s, u), Taken(s, u, sender));
  }

  /** The sender found at the head of the queue is alive and blocked on that very message. */
  lemma HeadSenderBlocked(s: State, parent: nat)
    requires Inv(s)
    ensures
      var x := HeadSender(s, parent);
      x != NOBODY ==>
        && Live(s, x) && RunOf(s, x) == Sending
        && Queue(s, Curr(s)) != [] && Queue(s, Curr(s))[0].payload
        && PortOf(s, x) == Queue(s, Curr(s))[0].from
    ensures HeadSender(s, parent) == HeadSender(s, 0)
  {
    var u := Curr(s);
    var q := Queue(s, u);
    if q != [] && q[0].payload {
      assert Held(s, u, q[0].from) > 0;
      ResolveIsOwner(s, q[0].from, parent);
      ResolveIsOwner(s, q[0].from, 0);
    }
  }

  lemma CurrLive(s: State)
    requires StatesOk(s)
    ensures s.sched.ring != [] ==> Live(s, Curr(s)) && RunOf(s, Curr(s)) == Active
    ensures Queue(s, Curr(s)) != [] ==> Live(s, Curr(s))
  {}

  lemma CurrOwner(s: State)
    requires Live(s, Curr(s)) && TableOk(s)
    ensures Curr(s).pid in s.procs && |s.pvers| == PROCESS_MAX
  {}

  /** Taking the head message keeps the core, whoever is let go. */
  lemma TakeCore(s: State, u: Uid, sender: Uid)
    requires Core(s) && u == Curr(s) && Queue(s, u) != [] && Addable(s, sender)
    ensures Core(Taken(s, u, sender))
  {
    hide Taken, Compare, SamePeople, TableOk, PortOf, ThreadAt, Queue, StatesOk, Live, Versioned, KnownPort;
    CurrLive(s);
    var t := Taken(s, u, sender);
    TakenEffect(s, u, sender);
    SamePeopleTable(s, t);
    WakeupFrame(s, t);
  }

  lemma TakeFresh(s: State, u: Uid, sender: Uid)
    requires Inv(s) && u == Curr(s) && Queue(s, u) != [] && sender == HeadSender(s, 0)
    ensures Fresh(Taken(s, u, sender))
  {
    hide Taken, HeadSender, Pending, Compare, SamePeople, TableOk, KnownPort, PortOf, ThreadAt, Queue, StatesOk,
      Held, Live, Versioned;
    HeadSenderBlocked(s, 0);
    CurrLive(s);
    var t, h := Taken(s, u, sender), Queue(s, u)[0];
    TakenEffect(s, u, sender);
    HeldAfterTake(s, u, sender);
    forall v, w | Live(s, v) && RunOf(s, v) == Sending && Held(t, w, PortOf(s, v)) > 0
      ensures RunOf(t, v) == Sending
    {
      assert Held(s, w, PortOf(s, v)) > 0;
      assert Held(s, u, PortOf(s, v)) == Held(t, u, PortOf(s, v)) +
        if h.payload && h.from == PortOf(s, v) then 1 else 0;
    }
    HeldFrame(s, t);
  }

  // ----- Looking for mail -----

  lemma FindKeeps(s: State, u: Uid, w: Port)
    requires Core(s) && Live(s, u) && RunOf(s, u) == Active
    ensures Core(FindMail(s, u, w))
    ensures Fresh(s) ==> Fresh(FindMail(s, u, w))
    ensures SamePeople(s, FindMail(s, u, w)) && FindMail(s, u, w).sched == s.sched
    ensures forall v :: Queue(FindMail(s, u, w), v) == if v == u then Promote(Queue(s, u), w) else Queue(s, v)
  {
    hide FindMail, Pending, Compare, TableOk, KnownPort, PortOf, Promote, SamePeople, QueueOk, ThreadAt,
      Queue, Versioned;
    var t := FindMail(s, u, w);
    FindMailEffect(s, u, w);
    SamePeopleTable(s, t);
    forall p ensures Pending(Promote(Queue(s, u), w), p) == Pending(Queue(s, u), p) {
      PromoteKeepsPending(Queue(s, u), w, p);
    }
    assert forall v, p :: Held(t, v, p) == Held(s, v, p);
    SameSched(s, t);
    PromoteMembers(Queue(s, u), w);
    WakeupFrame(s, t);
    if Fresh(s) {
      HeldFrame(s, t);
    }
  }

  lemma FindMailEffect(s: State, u: Uid, w: Port)
    requires Live(s, u)
    ensures
      var t := FindMail(s, u, w);
      && SamePeople(s, t) && t.sched == s.sched
      && (forall v :: Queue(t, v) == if v == u then Promote(Queue(s, u), w) else Queue(s, v))
      && (forall v :: ThreadAt(t, v).waitFor == ThreadAt(s, v).waitFor)
  {
    hide Promote;
  }

  // ----- Threads and processes come and go -----

  /** Fewer threads, the rest as they were. */
  lemma ShrinkKeeps(s: State, t: State)
    requires Core(s) && TableOk(t) && StatesOk(t) && Survivors(s, t)
    requires forall v :: Live(t, v) ==> RunOf(t, v) == RunOf(s, v)
    ensures Core(t)
    ensures Fresh(s) && Versioned(t) && PortsKept(s, t) ==> Fresh(t)
  {
    hide TableOk, StatesOk, KnownPort, PortOf, Compare, Pending, RunOf, Versioned;
    assert forall v, p :: Held(t, v, p) > 0 ==> Live(t, v) && Held(t, v, p) == Held(s, v, p) by {
      forall v, p | Held(t, v, p) > 0 ensures Live(t, v) && Held(t, v, p) == Held(s, v, p) {
        NothingFromNobody(t, v, p);
      }
    }
    WaitingIsLive(t);
  }

  lemma NothingFromNobody(t: State, v: Uid, p: Port)
    ensures Held(t, v, p) > 0 ==> Live(t, v)
  {}

  lemma WaitingIsLive(t: State)
    requires StatesOk(t)
    ensures forall v :: RunOf(t, v) == Waiting ==> Live(t, v)
  {}

  lemma LeaveKeepsQueue(s: Sched, gone: set<Uid>)
    requires QueueOk(s)
    ensures
      var t := Leave(RemoveAll(s, gone), gone);
      && QueueOk(t) && t.run.Keys == s.run.Keys - gone
      && t.ring == Keep(s.ring, gone)
      && (forall v :: v in t.run ==> t.run[v] == s.run[v])
  {
    RemoveKeepsQueue(s, gone);
    KeepMembers(s.ring, gone);
  }

  /** Whoever is alive afterwards was so before, and is as before. */
  ghost predicate Survivors(s: State, t: State) {
    forall v :: Live(t, v) ==> Live(s, v) && ThreadAt(t, v) == ThreadAt(s, v) && PortOf(t, v) == PortOf(s, v)
  }

  /** No port that was handed out is forgotten. */
  ghost predicate PortsKept(s: State, t: State) {
    forall p :: KnownPort(s, p) ==> KnownPort(t, p)
  }

  lemma EndProcessTable(s: State, pid: nat)
    requires TableOk(s) && pid in s.procs
    ensures
      var t := EndProcess(s, pid);
      && TableOk(t) && Survivors(s, t) && PortsKept(s, t) && (Versioned(s) ==> Versioned(t))
      && (forall v :: Live(t, v) <==> Live(s, v) && v.pid != pid)
  {
    hide Leave, RemoveAll;
  }

  lemma EndProcessKeeps(s: State, pid: nat)
    requires Core(s) && pid in s.procs
    ensures Core(EndProcess(s, pid))
    ensures Fresh(s) ==> Fresh(EndProcess(s, pid))
  {
    hide TableOk, Survivors, QueueOk, Live, Keep, Fresh, NoLostWakeup, PortsKept, Versioned;
    var t, gone := EndProcess(s, pid), ThreadsIn(s, pid);
    EndProcessTable(s, pid);
    LeaveKeepsQueue(s.sched, gone);
    hide Leave, RemoveAll;
    assert StatesOk(t);
    LessKeeps(s, t);
  }

  lemma LessKeeps(s: State, t: State)
    requires Core(s) && TableOk(t) && StatesOk(t) && Survivors(s, t)
    requires forall v :: v in t.sched.run ==> v in s.sched.run && t.sched.run[v] == s.sched.run[v]
    ensures Core(t)
    ensures Fresh(s) ==> Versioned(s)
    ensures Fresh(s) && Versioned(t) && PortsKept(s, t) ==> Fresh(t)
  {
    hide TableOk, QueueOk, KnownPort, PortOf, ThreadAt, Core, Versioned;
    ShrinkKeeps(s, t);
  }

  lemma EndThreadTable(s: State, u: Uid)
    requires TableOk(s) && Live(s, u)
    ensures
      var t := EndThread(s, u);
      && TableOk(t) && Survivors(s, t) && PortsKept(s, t) && (Versioned(s) ==> Versioned(t))
      && (forall v :: Live(t, v) <==> Live(s, v) && v != u)
  {
    hide Leave, RemoveAll;
    var t := EndThread(s, u);
    forall pid | pid in t.procs ensures ProcOk(t.pvers, pid, t.procs[pid]) {
      assert ProcOk(s.pvers, pid, s.procs[pid]);
    }
  }

  lemma EndThreadKeeps(s: State, u: Uid)
    requires Core(s) && Live(s, u)
    ensures Core(EndThread(s, u))
    ensures Fresh(s) ==> Fresh(EndThread(s, u))
  {
    hide TableOk, Survivors, QueueOk, Live, Keep, Fresh, NoLostWakeup, RemoveThread, PortsKept, Versioned;
    var t := EndThread(s, u);
    EndThreadTable(s, u);
    LeaveKeepsQueue(s.sched, {u});
    hide Leave, RemoveAll;
    assert StatesOk(t);
    LessKeeps(s, t);
  }

  lemma SpawnTable(s: State, pid: nat)
    requires TableOk(s) && Curr(s).pid in s.procs && 2 <= pid < PROCESS_MAX && pid !in s.procs
    ensures
      var t := SpawnStep(s, pid);
      && TableOk(t) && Survivors(s, t) && (forall v :: Live(t, v) == Live(s, v))
      && (s.pvers[pid] < 255 ==> PortsKept(s, t) && (Versioned(s) ==> Versioned(t)))
  {
    var t := SpawnStep(s, pid);
    forall q | q in t.procs ensures ProcOk(t.pvers, q, t.procs[q]) {
      if q != pid {
        assert ProcOk(s.pvers, q, s.procs[q]);
      }
    }
  }

  /** A new process has no threads and, unless the counter wraps, a version nobody has seen. */
  lemma SpawnKeeps(s: State, pid: nat)
    requires Core(s) && s.sched.ring != [] && 2 <= pid < PROCESS_MAX && pid !in s.procs
    ensures |s.pvers| == PROCESS_MAX && s.pvers[pid] < 256
    ensures Core(SpawnStep(s, pid))
    ensures Fresh(s) && s.pvers[pid] < 255 ==> Fresh(SpawnStep(s, pid))
  {
    hide TableOk, Survivors, Live, Fresh, NoLostWakeup, PortsKept, Versioned, SpawnStep, StatesOk;
    CurrLive(s);
    CurrOwner(s);
    SpawnPlace(s, pid);
    SpawnTable(s, pid);
    SpawnStates(s, pid);
    LessKeeps(s, SpawnStep(s, pid));
  }

  lemma SpawnPlace(s: State, pid: nat)
    requires TableOk(s) && pid < PROCESS_MAX
    ensures |s.pvers| == PROCESS_MAX && s.pvers[pid] < 256
  {}

  lemma SpawnStates(s: State, pid: nat)
    requires StatesOk(s) && pid < |s.pvers| && s.pvers[pid] < 256
      && forall v :: Live(SpawnStep(s, pid), v) == Live(s, v)
    ensures StatesOk(SpawnStep(s, pid)) && SpawnStep(s, pid).sched.run == s.sched.run
  {
    hide Live;
  }

  lemma StartTable(s: State, u: Uid, entry: nat, stack: nat, fallback: nat)
    requires TableOk(s) && CanOpen(s, u) && !Live(s, u)
    ensures
      var t := StartThread(s, u, entry, stack, fallback);
      && TableOk(t) && Queue(t, u) == []
      && (forall v :: Live(t, v) <==> Live(s, v) || v == u)
      && (forall v :: Live(t, v) && v != u ==> ThreadAt(t, v) == ThreadAt(s, v) && PortOf(t, v) == PortOf(s, v))
  {
    hide Enter, Add;
    var t := StartThread(s, u, entry, stack, fallback);
    assert ProcOk(s.pvers, u.pid, s.procs[u.pid]);
    forall q | q in t.procs ensures ProcOk(t.pvers, q, t.procs[q]) {
      assert ProcOk(s.pvers, q, s.procs[q]);
    }
  }

  /** Unless its counter wraps, a new thread has a port that nobody has seen. */
  lemma StartPorts(s: State, u: Uid, entry: nat, stack: nat, fallback: nat)
    requires TableOk(s) && CanOpen(s, u) && !Live(s, u) && s.procs[u.pid].tvers[u.tid] < 255
    ensures
      var t := StartThread(s, u, entry, stack, fallback);
      !KnownPort(s, PortOf(t, u)) && PortsKept(s, t) && (Versioned(s) ==> Versioned(t))
  {
    hide Enter, Add;
    assert ProcOk(s.pvers, u.pid, s.procs[u.pid]);
  }

  /** A new thread has an empty queue and, unless the counter wraps, a port nobody has seen. */
  lemma StartKeeps(s: State, u: Uid, entry: nat, stack: nat, fallback: nat)
    requires Core(s) && CanOpen(s, u) && !Live(s, u)
    ensures Core(StartThread(s, u, entry, stack, fallback))
    ensures Fresh(s) && s.procs[u.pid].tvers[u.tid] < 255 ==> Fresh(StartThread(s, u, entry, stack, fallback))
  {
    hide TableOk, QueueOk, Live, Fresh, NoLostWakeup, ThreadAt, PortOf, KnownPort, Queue, AddThread,
      PortsKept, Versioned;
    var t := StartThread(s, u, entry, stack, fallback);
    StartTable(s, u, entry, stack, fallback);
    EnterKeepsQueue(s.sched, u, if entry != 0 then entry else fallback, stack);
    hide Enter, Add;
    assert StatesOk(t);
    NewcomerKeeps(s, t, u);
    if s.procs[u.pid].tvers[u.tid] < 255 {
      StartPorts(s, u, entry, stack, fallback);
    }
  }

  lemma EnterKeepsQueue(s: Sched, u: Uid, entry: nat, stack: nat)
    requires QueueOk(s) && u !in s.run
    ensures
      var t := Add(Enter(s, u, entry, stack), u);
      && QueueOk(t) && t.run == s.run[u := Active] && t.ring == s.ring + [u]
  {
    AddKeepsQueue(Enter(s, u, entry, stack), u);
  }

  lemma NewcomerKeeps(s: State, t: State, u: Uid)
    requires Core(s) && TableOk(t) && StatesOk(t) && Queue(t, u) == []
    requires forall v :: Live(t, v) && v != u ==>
      Live(s, v) && ThreadAt(t, v) == ThreadAt(s, v) && PortOf(t, v) == PortOf(s, v)
    requires forall v :: Live(t, v) && v != u ==> RunOf(t, v) == RunOf(s, v)
    ensures Core(t)
    ensures Fresh(s) ==> Versioned(s)
    ensures Fresh(s) && Versioned(t) && PortsKept(s, t) && !KnownPort(s, PortOf(t, u)) ==> Fresh(t)
  {
    hide TableOk, StatesOk, KnownPort, PortOf, Compare, RunOf, Versioned;
    forall v, p | Held(t, v, p) > 0 ensures Live(t, v) && v != u && Held(t, v, p) == Held(s, v, p) {
      NothingFromNobody(t, v, p);
    }
    hide Pending;
    WaitingIsLive(t);
  }

  // ----- Every step keeps the invariant -----

  /** Registers and address spaces do not matter to the invariant. */
  lemma RegistersKeep(s: State, t: State)
    requires Core(s) && t.procs == s.procs && t.pvers == s.pvers
    requires t.sched.run == s.sched.run && t.sched.tasks.Keys == s.sched.tasks.Keys && QueueOk(t.sched)
    ensures Core(t)
    ensures Fresh(s) ==> Fresh(t)
  {
    hide TableOk, KnownPort, PortOf, ThreadAt, Held, QueueOk, Versioned;
    SameProcs(s, t);
    assert forall v :: RunOf(t, v) == RunOf(s, v);
    hide RunOf;
    WakeupFrame(s, t);
  }

  lemma RetKeeps(s: State, code: int)
    requires Core(s)
    ensures Core(Ret(s, code))
    ensures Fresh(s) ==> Fresh(Ret(s, code))
  {
    hide TableOk, NoLostWakeup, Fresh;
    RegistersKeep(s, Ret(s, code));
  }

  lemma ContinueKeeps(s: State)
    requires Core(s)
    ensures Core(Continue(s))
    ensures Fresh(s) ==> Fresh(Continue(s))
  {
    hide TableOk, NoLostWakeup, Fresh;
    RegistersKeep(s, Continue(s));
  }

  lemma LockKeeps(s: State)
    requires Core(s)
    ensures Core(s.(sched := Lock(s.sched)))
    ensures Fresh(s) ==> Fresh(s.(sched := Lock(s.sched)))
  {
    hide TableOk, NoLostWakeup, Fresh;
    RegistersKeep(s, s.(sched := Lock(s.sched)));
  }

  lemma TurnKeeps(s: State, t: Sched)
    requires Core(s) && s.sched.ring != []
    requires t == Next(s.sched) || t == Tick(s.sched)
    ensures Core(s.(sched := t))
    ensures Fresh(s) ==> Fresh(s.(sched := t))
  {
    hide TableOk, NoLostWakeup, Fresh, Live;
    NextKeepsQueue(s.sched);
    RegistersKeep(s, s.(sched := t));
  }

  lemma SendKeeps(s: State, r: Outgoing, mapped: bool, bufMapped: bool)
    requires Core(s) && s.sched.ring != []
    ensures Core(SendStep(s, r, mapped, bufMapped))
    ensures Fresh(s) && (SendError(s, r, mapped, bufMapped) == ENONE && r.buf == 0 ==> r.size == 0)
            ==> Fresh(SendStep(s, r, mapped, bufMapped))
  {
    hide Core, Fresh, Compare, Post, PortOf, Resolve, Ret, ThreadAt, Live;
    var u, target := Curr(s), Resolve(s, r.to, Curr(s).pid);
    var error := SendError(s, r, mapped, bufMapped);
    RetKeeps(s, error);
    if error == ENONE {
      var a, m := Ret(s, ENONE), Message(PortOf(s, u), r.code, r.args, r.size > 0);
      RetEffect(s, ENONE);
      if r.buf == 0 {
        PostKeeps(a, target, m);
      } else {
        var w := ThreadAt(s, u).waitFor;
        var b := Blocked(a, u, Sending, w, r.buf, r.size);
        BlockKeeps(a, u, Sending, w, r.buf, r.size);
        BlockedLives(a, u, Sending, w, r.buf, r.size);
        PostKeeps(b, target, m);
        ContinueKeeps(Post(b, target, m));
        if Fresh(s) {
          SenderMayPost(a, w, r.buf, r.size, m);
        }
      }
    }
  }

  lemma RetEffect(s: State, code: int)
    ensures Ret(s, code).procs == s.procs && Ret(s, code).sched.ring == s.sched.ring && Curr(Ret(s, code)) == Curr(s)
    ensures forall v :: Live(Ret(s, code), v) == Live(s, v) && PortOf(Ret(s, code), v) == PortOf(s, v)
    ensures forall v :: ThreadAt(Ret(s, code), v) == ThreadAt(s, v) && RunOf(Ret(s, code), v) == RunOf(s, v)
  {}

  lemma BlockedLives(s: State, u: Uid, why: RunState, w: Port, addr: nat, size: nat)
    ensures forall v :: Live(s, v) ==> Live(Blocked(s, u, why, w, addr, size), v)
  {}

  /** A thread that has just blocked may post one payload message. */
  lemma SenderMayPost(s: State, w: Port, addr: nat, size: nat, m: Message)
    requires Inv(s) && s.sched.ring != [] && m.from == PortOf(s, Curr(s))
    ensures MayPost(Blocked(s, Curr(s), Sending, w, addr, size), m)
  {
    hide Blocked, NoLostWakeup, HeldKnown, OneEach, SamePeople, TableOk, Held, Versioned;
    var u := Curr(s);
    var t := Blocked(s, u, Sending, w, addr, size);
    CurrLive(s);
    BlockEffect(s, u, Sending, w, addr, size);
    SamePeopleTable(s, t);
    HeldSame(s, t);
    PortLeadsBack(s, u, 0);
    hide KnownPort, StatesOk;
    forall v | Live(t, v) && PortOf(t, v) == m.from ensures RunOf(t, v) == Sending {
      assert v == u;
    }
  }

  lemma RecvKeeps(s: State, mapped: bool, bufSize: nat, bufMapped: bool)
    requires Core(s) && (RecvError(s, mapped, bufSize, bufMapped) == ENONE ==> Addable(s, HeadSender(s, 0)))
    ensures Core(RecvStep(s, mapped, bufSize, bufMapped))
    ensures Fresh(s) ==> Fresh(RecvStep(s, mapped, bufSize, bufMapped))
  {
    hide Core, Fresh, HeadSender, Ret, DropMail, Add, ThreadAt, Addable;
    var u, sender := Curr(s), HeadSender(s, 0);
    var error := RecvError(s, mapped, bufSize, bufMapped);
    RetKeeps(s, error);
    if error == ENONE {
      TakenEitherOrder(s, u, sender);
      TakeCore(s, u, sender);
      RetKeeps(Taken(s, u, sender), if sender != NOBODY then ThreadAt(s, sender).paySize else 0);
      if Fresh(s) {
        TakeFresh(s, u, sender);
      }
    }
  }

  lemma DropKeeps(s: State, mapped: bool)
    requires Core(s) && (mapped ==> Addable(s, HeadSender(s, Curr(s).pid)))
    ensures Core(DropStep(s, mapped))
    ensures Fresh(s) ==> Fresh(DropStep(s, mapped))
  {
    hide Core, Fresh, HeadSender, Ret, DropMail, Add, ThreadAt, Addable;
    var u, sender := Curr(s), HeadSender(s, Curr(s).pid);
    RetKeeps(s, EPARAM);
    RetKeeps(s, ENOTAVAIL);
    if mapped && Queue(s, u) != [] {
      TakeCore(s, u, sender);
      RetKeeps(Taken(s, u, sender), ENONE);
      if Fresh(s) {
        HeadSenderBlocked(s, u.pid);
        TakeFresh(s, u, sender);
      }
    }
  }

  lemma WaitKeeps(s: State, w: Port)
    requires Core(s) && s.sched.ring != []
    ensures Core(WaitStep(s, w))
    ensures Fresh(s) ==> Fresh(WaitStep(s, w))
  {
    CurrLive(s);
    hide Core, Fresh, Ret, FindMail, Compare, FirstMatch, ThreadAt, Live, Resolve;
    var u := Curr(s);
    RetKeeps(s, WaitError(s, w));
    if Found(s, w) {
      FindKeeps(s, u, w);
      RetKeeps(FindMail(s, u, w), ENONE);
    } else if WaitError(s, w) == ENONE {
      var a, th := Ret(s, ENONE), ThreadAt(s, u);
      RetKeeps(s, ENONE);
      RetEffect(s, ENONE);
      assert Queue(a, u) == Queue(s, u);
      BlockKeeps(a, u, Waiting, w, th.payAddr, th.paySize);
      ContinueKeeps(Blocked(a, u, Waiting, w, th.payAddr, th.paySize));
    }
  }

  lemma KernelSendKeeps(s: State, port: Port, code: nat, args: seq<nat>)
    requires Core(s) && Live(s, Resolve(s, port, 0))
    ensures Core(KernelSendStep(s, port, code, args))
    ensures Fresh(s) ==> Fresh(KernelSendStep(s, port, code, args))
  {
    hide Core, Fresh, Resolve, Post;
    PostKeeps(s, Resolve(s, port, 0), Message(IPORT_KERNEL, code, args, false));
  }

  lemma LaunchKeeps(s: State, pid: nat, entry: nat)
    requires Core(s) && Enabled(s, Launch(pid, entry))
    ensures Core(LaunchStep(s, pid, entry))
    ensures Fresh(s) && Orderly(s, Launch(pid, entry)) ==> Fresh(LaunchStep(s, pid, entry))
  {
    hide Core, Fresh, Ret, StartThread;
    RetKeeps(s, LaunchError(s, pid));
    if LaunchError(s, pid) == ENONE {
      StartKeeps(s, Uid(pid, 0), 0, 0, entry);
      RetKeeps(StartThread(s, Uid(pid, 0), 0, 0, entry), ENONE);
    }
  }

  lemma DispatchKeeps(s: State, tid: nat, entry: nat, stack: nat)
    requires Core(s) && Enabled(s, Dispatch(tid, entry, stack))
    ensures Core(DispatchStep(s, tid, entry, stack))
    ensures Fresh(s) && Orderly(s, Dispatch(tid, entry, stack)) ==> Fresh(DispatchStep(s, tid, entry, stack))
  {
    hide Core, Fresh, Ret, StartThread;
    var u := Uid(Curr(s).pid, tid);
    StartKeeps(s, u, entry, stack, s.procs[u.pid].entry);
    RetKeeps(StartThread(s, u, entry, stack, s.procs[u.pid].entry), tid);
  }

  lemma KillKeeps(s: State, pid: nat)
    requires Core(s)
    ensures Core(KillStep(s, pid))
    ensures Fresh(s) ==> Fresh(KillStep(s, pid))
  {
    hide Core, Fresh, Ret, EndProcess, Lock, Unlock;
    var target := KillTarget(s, pid);
    RetKeeps(s, KillError(s, pid));
    if KillError(s, pid) == ENONE {
      LockKeeps(s);
      EndProcessKeeps(s, target);
      EndProcessKeeps(s.(sched := Lock(s.sched)), target);
      RetKeeps(EndProcess(s, target), ENONE);
      ContinueKeeps(EndProcess(s.(sched := Lock(s.sched)), target));
    }
  }

  lemma FaultKeeps(s: State)
    requires Core(s) && s.sched.ring != []
    ensures Core(FaultStep(s))
    ensures Fresh(s) ==> Fresh(FaultStep(s))
  {
    CurrLive(s);
    hide Core, Fresh, EndProcess, EndThread, Lock, Unlock;
    var u, locked := Curr(s), s.(sched := Lock(s.sched));
    LockKeeps(s);
    assert Live(locked, u);
    if u.tid == 0 {
      EndProcessKeeps(locked, u.pid);
      ContinueKeeps(EndProcess(locked, u.pid));
    } else {
      EndThreadKeeps(locked, u);
      ContinueKeeps(EndThread(locked, u));
    }
  }

  lemma RunKeeps(s: State, f: Frame)
    requires Core(s)
    ensures Core(s.(sched := s.sched.(frame := f)))
    ensures Fresh(s) ==> Fresh(s.(sched := s.sched.(frame := f)))
  {
    hide TableOk, NoLostWakeup, Fresh;
    RegistersKeep(s, s.(sched := s.sched.(frame := f)));
  }

  /** Every atomic step of the kernel keeps the core; an orderly one keeps everything. */
  lemma StepKeeps(s: State, e: Event)
    requires Core(s) && Enabled(s, e)
    ensures Core(Step(s, e))
    ensures Fresh(s) && Orderly(s, e) ==> Fresh(Step(s, e))
  {
    hide Core, Fresh, SendStep, RecvStep, DropStep, WaitStep, KernelSendStep, SpawnStep, LaunchStep, DispatchStep,
      KillStep, FaultStep, HeadSender;
    match e {
      case Run(f) => RunKeeps(s, f);
      case Timer => TurnKeeps(s, Tick(s.sched));
      case Yield => RetKeeps(s, ENONE); TurnKeeps(Ret(s, ENONE), Next(Return(s.sched, ENONE)));
      case Send(out, mapped, bufMapped) => SendKeeps(s, out, mapped, bufMapped);
      case Recv(mapped, bufSize, bufMapped) => RecvKeeps(s, mapped, bufSize, bufMapped);
      case Drop(mapped) => DropKeeps(s, mapped);
      case Wait(port) => WaitKeeps(s, port);
      case KernelSend(port, code, args) => KernelSendKeeps(s, port, code, args);
      case Spawn(pid) => SpawnKeeps(s, pid);
      case Launch(pid, entry) => LaunchKeeps(s, pid, entry);
      case Dispatch(tid, entry, stack) => DispatchKeeps(s, tid, entry, stack);
      case Kill(pid) => KillKeeps(s, pid);
      case Fault => FaultKeeps(s);
    }
  }

  /** Every state of every run satisfies the core, whatever versions wrap. */
  lemma {:induction false} RunsKeep(s: State, events: seq<Event>)
    requires Core(s) && Runs(s, events)
    ensures Core(After(s, events))
    decreases |events|
  {
    if events != [] {
      StepKeeps(s, events[0]);
      hide Core, Enabled, Step;
      RunsKeep(Step(s, events[0]), events[1..]);
    }
  }

  lemma {:induction false} RunsConcat(s: State, a: seq<Event>, b: seq<Event>)
    requires Runs(s, a) && Runs(After(s, a), b)
    ensures Runs(s, a + b) && After(s, a + b) == After(After(s, a), b)
    decreases |a|
  {
    hide Enabled, Step;
    if a == [] {
      assert a + b == b;
    } else {
      RunsConcat(Step(s, a[0]), a[1..], b);
      assert (a + b)[1..] == a[1..] + b;
    }
  }

  lemma {:induction false} NoWrapRunRuns(s: State, events: seq<Event>)
    requires NoWrapRun(s, events)
    ensures Runs(s, events)
    decreases |events|
  {
    if events != [] {
      hide Enabled, Step, NoWrap;
      NoWrapRunRuns(Step(s, events[0]), events[1..]);
    }
  }

  lemma {:induction false} OrderlyRunRuns(s: State, events: seq<Event>)
    requires OrderlyRun(s, events)
    ensures Runs(s, events)
    decreases |events|
  {
    if events != [] {
      hide Enabled, Step;
      OrderlyRunRuns(Step(s, events[0]), events[1..]);
    }
  }

  /** Every state of an orderly run satisfies the whole invariant. */
  lemma {:induction false} OrderlyRunsKeep(s: State, events: seq<Event>)
    requires Inv(s) && OrderlyRun(s, events)
    ensures Runs(s, events) && Inv(After(s, events))
    decreases |events|
  {
    OrderlyRunRuns(s, events);
    if events != [] {
      StepKeeps(s, events[0]);
      hide Core, Fresh, Enabled, Step, Orderly;
      OrderlyRunsKeep(Step(s, events[0]), events[1..]);
    }
  }

  /** Under the whole invariant, receive and drop never trip over the assertion that the thread
      they let go is alive and not running. */
  lemma LetGoIsSound(s: State, e: Event)
    requires Inv(s) && s.sched.ring != [] && (e.Recv? || e.Drop?)
    ensures Enabled(s, e)
  {
    hide Core, Fresh, HeadSender;
    HeadSenderBlocked(s, 0);
    HeadSenderBlocked(s, Curr(s).pid);
  }
}
