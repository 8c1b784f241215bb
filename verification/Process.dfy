/** A process control block with its threads' mail
    (kernel/core/multitask/process.h, kernel/core/multitask/thread.c, kernel/core/ipc/message.c). */
module Processes {
  import opened Ports
  import opened Mail
  import opened MailSlots
  import Bitmaps

  const BLANK := Slot(NO_MESSAGE, 0)

  /** Everything a process block holds, with its bitmaps read as sets. */
  datatype Image = Image(
    slots: seq<Slot>,
    used: set<nat>,                // occupied message slots
    count: nat,
    live: set<nat>,                // thread numbers in use
    threads: map<nat, Record>,
    versions: seq<nat>,
    chains: map<nat, seq<nat>>,
    leaked: set<nat>
  )

  ghost predicate ImageOk(i: Image) {
    && |i.slots| == PROCESS_MESSAGE_MAX
    && SlotsOk(i.slots, i.threads, i.chains, i.used, i.leaked)
    && |i.used| == i.count
    && i.live == i.threads.Keys
    && |i.versions| == PROCESS_THREAD_MAX
    && (forall t :: 0 <= t < |i.versions| ==> i.versions[t] < 256)
    && (forall t :: t in i.threads ==> t < PROCESS_THREAD_MAX && i.threads[t].version == i.versions[t])
  }

  ghost function ThreadOf(slots: seq<Slot>, r: Record, chain: seq<nat>): Thread {
    Thread(r.version, r.waitFor, r.payAddr, r.paySize, Contents(slots, chain))
  }

  ghost function ThreadsOf(i: Image): map<nat, Thread> {
    map t | t in i.threads && t in i.chains :: ThreadOf(i.slots, i.threads[t], i.chains[t])
  }

  /** The fields of a process that have nothing to do with its threads and their mail. */
  datatype Identity = Identity(version: nat, parent: nat, priv: nat, entry: nat)

  ghost function ProcOf(i: Image, who: Identity): Proc {
    Proc(who.version, who.parent, who.priv, i.count, i.versions, ThreadsOf(i), who.entry)
  }

  /** What an image says about one thread. */
  lemma ChainOf(i: Image, t: nat)
    requires ImageOk(i) && t in i.threads
    ensures i.chains.Keys == i.threads.Keys && ChainOk(i.slots, i.threads[t], i.chains[t])
    ensures |i.slots| == PROCESS_MESSAGE_MAX && |i.used| == i.count && i.leaked <= i.used
    ensures forall c :: c in i.chains[t] ==> c < |i.slots| && c in i.used && c !in i.leaked
  {}

  /** Slot `c` is in the queue of thread `u`. */
  ghost predicate Owns(i: Image, u: nat, c: nat) {
    u in i.chains && c in i.chains[u]
  }

  /** Two threads never share a slot. */
  lemma Apart(i: Image, t: nat)
    requires ImageOk(i) && t in i.threads
    ensures i.chains.Keys == i.threads.Keys
    ensures forall u: nat, c: nat :: u != t && Owns(i, u, c) ==> c < |i.slots| && c in i.used && c !in i.chains[t]
  {
    forall u: nat, c: nat | u != t && Owns(i, u, c)
      ensures c < |i.slots| && c in i.used && c !in i.chains[t]
    {
      ChainOf(i, u);
    }
  }

  lemma ThreadsDomain(i: Image)
    requires ImageOk(i)
    ensures ThreadsOf(i).Keys == i.threads.Keys
  {}

  lemma RecordInRange(i: Image, t: nat)
    requires ImageOk(i) && t in i.threads
    ensures t in i.chains && i.threads[t].count == |i.chains[t]| && |i.used| == i.count
    ensures t < PROCESS_THREAD_MAX
    ensures i.threads[t].count != 0 ==>
              && i.threads[t].head == i.chains[t][0] < |i.slots|
              && i.threads[t].tail < |i.slots|
              && -1 <= i.slots[i.threads[t].head].next
              && i.threads[t].head in i.used && i.count > 0
  {
    ChainOf(i, t);
    if i.chains[t] != [] {
      assert Hop(i.slots, i.chains[t], 0);
    }
  }

  lemma HeadMessage(i: Image, t: nat, who: Identity)
    requires ImageOk(i) && t in i.threads && i.threads[t].count != 0
    ensures i.threads[t].head < |i.slots|
    ensures QueueOf(ProcOf(i, who), t) != []
    ensures QueueOf(ProcOf(i, who), t)[0] == i.slots[i.threads[t].head].msg
  {
    ChainOf(i, t);
  }

  lemma ChainBounds(i: Image, t: nat)
    requires ImageOk(i) && t in i.threads && t in i.chains
    ensures forall c :: 0 <= c < |i.chains[t]| ==> i.chains[t][c] < |i.slots|
    ensures forall a, b :: 0 <= a < b < |i.chains[t]| ==> i.chains[t][a] != i.chains[t][b]
    ensures i.chains[t] != [] ==> i.threads[t].head == i.chains[t][0]
  {
    ChainOf(i, t);
  }

  lemma HopAt(i: Image, t: nat, k: nat)
    requires ImageOk(i) && t in i.threads && t in i.chains && k < |i.chains[t]|
    ensures i.chains[t][k] < |i.slots| && Hop(i.slots, i.chains[t], k)
  {
    ChainOf(i, t);
  }

  /** Replacing the queue of thread `t`. */
  lemma QueueUpdate(i: Image, t: nat, j: Image)
    requires ImageOk(i) && t in i.threads && t in j.threads && t in j.chains && |j.slots| == |i.slots|
    requires j == i.(slots := j.slots, used := j.used, count := |j.used|,
                     threads := i.threads[t := j.threads[t]], chains := i.chains[t := j.chains[t]])
    requires ChainOk(j.slots, j.threads[t], j.chains[t])
    requires j.threads[t].version == i.threads[t].version
    requires forall u: nat, c: nat :: u != t && Owns(i, u, c) ==>
               c < |i.slots| && j.slots[c] == i.slots[c] && c !in j.chains[t]
    requires forall c :: c in j.chains[t] ==> c !in j.leaked
    requires forall c :: c in j.used <==> (c in i.used && c !in i.chains[t]) || c in j.chains[t]
    ensures ImageOk(j)
    ensures ThreadsOf(j) == ThreadsOf(i)[t := ThreadOf(j.slots, j.threads[t], j.chains[t])]
  {
    hide SlotsOk, ChainOk, Contents;
    ChainOf(i, t);
    forall u, c | u in i.chains && u != t && c in i.chains[u]
      ensures c < |i.slots| && j.slots[c] == i.slots[c] && c !in j.chains[t]
    {
      assert Owns(i, u, c);
    }
    SlotsUpdate(i.slots, i.threads, i.chains, i.used, i.leaked, t, j.slots, j.threads[t], j.chains[t], j.used);
    OthersSame(i, t, j);
  }

  lemma OthersSame(i: Image, t: nat, j: Image)
    requires i.chains.Keys == i.threads.Keys && t in i.threads && t in j.threads && t in j.chains
    requires j.threads == i.threads[t := j.threads[t]] && j.chains == i.chains[t := j.chains[t]]
    requires forall u :: u in i.chains && u != t ==> Contents(j.slots, i.chains[u]) == Contents(i.slots, i.chains[u])
    ensures j.threads.Keys == i.threads.Keys
    ensures ThreadsOf(j) == ThreadsOf(i)[t := ThreadOf(j.slots, j.threads[t], j.chains[t])]
  {
    hide Contents;
  }

  // ----- The four operations on a queue -----

  /** A message in free slot `x` joins the queue of `t` in front. */
  lemma PrependMeaning(i: Image, t: nat, x: nat, m: Message, j: Image, who: Identity)
    requires ImageOk(i) && t in i.threads && x < |i.slots| && x !in i.used
    requires t in j.threads && t in j.chains && Prepended(i, t, x, m, j)
    requires j == i.(slots := j.slots, used := i.used + {x}, count := i.count + 1,
                     threads := i.threads[t := j.threads[t]], chains := i.chains[t := j.chains[t]])
    ensures ImageOk(j) && ProcOf(j, who) == Deliver(ProcOf(i, who), t, m, true)
  {
    hide ImageOk, Contents;
    ChainOf(i, t);
    Apart(i, t);
    ChainPrepend(i.slots, i.threads[t], i.chains[t], x, m, j.slots, j.threads[t]);
    hide ChainOk;
    QueueUpdate(i, t, j);
  }

  /** A message in free slot `x` joins the queue of `t` at the end. */
  lemma AppendMeaning(i: Image, t: nat, x: nat, m: Message, j: Image, who: Identity)
    requires ImageOk(i) && t in i.threads && x < |i.slots| && x !in i.used
    requires t in j.threads && t in j.chains && Appended(i, t, x, m, j)
    requires j == i.(slots := j.slots, used := i.used + {x}, count := i.count + 1,
                     threads := i.threads[t := j.threads[t]], chains := i.chains[t := j.chains[t]])
    ensures ImageOk(j) && ProcOf(j, who) == Deliver(ProcOf(i, who), t, m, false)
  {
    hide ImageOk, Contents;
    ChainOf(i, t);
    Apart(i, t);
    ChainAppend(i.slots, i.threads[t], i.chains[t], x, m, j.slots, j.threads[t]);
    assert i.threads[t].count != 0 ==> i.threads[t].tail in i.chains[t];
    hide ChainOk;
    QueueUpdate(i, t, j);
  }

  ghost predicate Prepended(i: Image, t: nat, x: nat, m: Message, j: Image)
    requires t in i.threads && t in i.chains && t in j.threads && t in j.chains && x < |i.slots|
  {
    var r := i.threads[t];
    && j.slots == i.slots[x := Slot(m, ToSigned(r.head))]
    && j.threads[t] == r.(head := x, tail := if r.count == 0 then x else r.tail, count := r.count + 1)
    && j.chains[t] == [x] + i.chains[t]
  }

  ghost predicate Appended(i: Image, t: nat, x: nat, m: Message, j: Image)
    requires t in i.threads && t in i.chains && t in j.threads && t in j.chains && x < |i.slots|
  {
    var r := i.threads[t];
    && (r.count == 0 || r.tail < |i.slots|)
    && j.slots == (if r.count == 0 then i.slots else i.slots[r.tail := i.slots[r.tail].(next := x)])[x := Slot(m, -1)]
    && j.threads[t] == r.(head := if r.count == 0 then x else r.head, tail := x, count := r.count + 1)
    && j.chains[t] == i.chains[t] + [x]
  }

  /** The head slot of `t` leaves its queue and becomes free. */
  lemma TakeMeaning(i: Image, t: nat, j: Image, who: Identity)
    requires ImageOk(i) && t in i.threads && i.threads[t].count != 0 && i.count != 0
    requires i.threads[t].head < |i.slots| && i.slots[i.threads[t].head].next >= -1
    requires t in i.chains && i.chains[t] != []
    requires
      var r := i.threads[t];
      var r' := r.(head := ToUnsigned(i.slots[r.head].next), count := r.count - 1);
      j == i.(used := i.used - {r.head}, count := i.count - 1,
              threads := i.threads[t := r'], chains := i.chains[t := i.chains[t][1..]])
    ensures ImageOk(j) && ProcOf(j, who) == TakeFirst(ProcOf(i, who), t)
  {
    hide ImageOk, Contents;
    ChainOf(i, t);
    Apart(i, t);
    var r, chain := i.threads[t], i.chains[t];
    ChainTail(i.slots, r, chain, j.threads[t]);
    assert chain == [r.head] + chain[1..] && r.head !in chain[1..];
    hide ChainOk;
    QueueUpdate(i, t, j);
  }

  /** The k-th slot of `t` has been relinked to the front of its queue. */
  lemma PromoteMeaning(i: Image, t: nat, k: nat, j: Image, who: Identity)
    requires ImageOk(i) && t in i.threads && t in i.chains && 0 < k < |i.chains[t]|
    requires forall c :: 0 <= c < |i.chains[t]| ==> i.chains[t][c] < |i.slots|
    requires Relinked(i.slots, i.chains[t], k, j.slots)
    requires
      var r, chain := i.threads[t], i.chains[t];
      var r' := r.(head := chain[k], tail := if r.tail == chain[k] then chain[k - 1] else r.tail);
      j == i.(slots := j.slots, threads := i.threads[t := r'], chains := i.chains[t := ToFront(chain, k)])
    ensures ImageOk(j)
    ensures ProcOf(j, who) == SetQueue(ProcOf(i, who), t, ToFront(Contents(i.slots, i.chains[t]), k))
  {
    hide ImageOk, Contents, ToFront;
    ChainOf(i, t);
    Apart(i, t);
    var chain := i.chains[t];
    ChainPromote(i.slots, i.threads[t], chain, k, j.slots, j.threads[t], j.chains[t]);
    ContentsPromote(i.slots, chain, k, j.slots);
    ToFrontMembers(chain, k);
    assert |j.slots| == |i.slots| && chain[k] in chain && chain[k - 1] in chain;
    assert forall u: nat, c: nat :: u != t && Owns(i, u, c) ==> j.slots[c] == i.slots[c];
    hide ChainOk, Relinked;
    QueueUpdate(i, t, j);
    QueueView(i, t, j, who);
  }

  lemma QueueView(i: Image, t: nat, j: Image, who: Identity)
    requires t in i.threads && t in i.chains && t in j.threads && t in j.chains
    requires ThreadsOf(j) == ThreadsOf(i)[t := ThreadOf(j.slots, j.threads[t], j.chains[t])]
    requires j.count == i.count && j.versions == i.versions
    requires j.threads[t] == i.threads[t].(head := j.threads[t].head, tail := j.threads[t].tail)
    ensures ProcOf(j, who) == SetQueue(ProcOf(i, who), t, Contents(j.slots, j.chains[t]))
  {
    hide Contents;
  }

  lemma SameQueue(i: Image, t: nat, who: Identity)
    requires t in i.threads && t in i.chains
    ensures QueueOf(ProcOf(i, who), t) == Contents(i.slots, i.chains[t])
    ensures SetQueue(ProcOf(i, who), t, Contents(i.slots, i.chains[t])) == ProcOf(i, who)
  {}

  /** Only fields outside the queue of thread `t` changed. */
  lemma RecordMeaning(i: Image, t: nat, r: Record, who: Identity)
    requires ImageOk(i) && t in i.threads
    requires r == i.threads[t].(waitFor := r.waitFor, payAddr := r.payAddr, paySize := r.paySize)
    ensures ImageOk(i.(threads := i.threads[t := r]))
    ensures ProcOf(i.(threads := i.threads[t := r]), who) ==
      SetRequest(ProcOf(i, who), t, r.waitFor, r.payAddr, r.paySize)
  {
    ChainOf(i, t);
    var j := i.(threads := i.threads[t := r]);
    assert j.chains == i.chains[t := j.chains[t]];
    QueueUpdate(i, t, j);
  }

  // ----- Threads come and go -----

  lemma OpenMeaning(i: Image, t: nat, r: Record, j: Image, who: Identity)
    requires ImageOk(i) && t !in i.threads && t < PROCESS_THREAD_MAX
    requires r.version < 256 && ChainOk(i.slots, r, [])
    requires j == i.(live := i.live + {t}, threads := i.threads[t := r],
                     versions := i.versions[t := r.version], chains := i.chains[t := []])
    ensures ImageOk(j)
    ensures
      var p := ProcOf(i, who);
      ProcOf(j, who) == p.(tvers := p.tvers[t := r.version],
                           threads := p.threads[t := Thread(r.version, r.waitFor, r.payAddr, r.paySize, [])])
  {
    hide SlotsOk, ChainOk, Contents;
    OpenSlots(i, t, r);
    OpenThreads(i, t, j);
    assert j.live == j.threads.Keys;
  }

  lemma OpenSlots(i: Image, t: nat, r: Record)
    requires SlotsOk(i.slots, i.threads, i.chains, i.used, i.leaked) && t !in i.threads
    requires ChainOk(i.slots, r, [])
    ensures SlotsOk(i.slots, i.threads[t := r], i.chains[t := []], i.used, i.leaked)
  {
    hide ChainOk;
    var chains := i.chains[t := []];
    forall c | c in i.used && c !in i.leaked ensures exists u :: u in chains && c in chains[u] {
      var u :| u in i.chains && c in i.chains[u];
      assert u in chains && c in chains[u];
    }
  }

  lemma OpenThreads(i: Image, t: nat, j: Image)
    requires t !in i.threads && t in j.threads
    requires j.slots == i.slots && j.threads == i.threads[t := j.threads[t]] && j.chains == i.chains[t := []]
    ensures ThreadsOf(j) == ThreadsOf(i)[t := ThreadOf(j.slots, j.threads[t], [])]
  {
    hide Contents;
  }

  /** A thread killed on its own leaves the slots of its queue occupied for good. */
  lemma CloseMeaning(i: Image, t: nat, j: Image, who: Identity)
    requires ImageOk(i) && t in i.threads && t in i.chains
    requires j == i.(live := i.live - {t}, threads := i.threads - {t}, chains := i.chains - {t},
                     leaked := i.leaked + set c | c in i.chains[t])
    ensures ImageOk(j) && ProcOf(j, who) == RemoveThread(ProcOf(i, who), t)
  {
    hide ChainOk, Contents;
    ChainOf(i, t);
    assert ThreadsOf(j) == ThreadsOf(i) - {t};
    forall c | c in j.used && c !in j.leaked ensures exists u :: u in j.chains && c in j.chains[u] {
      var u :| u in i.chains && c in i.chains[u];
      assert u in j.chains && c in j.chains[u];
    }
  }

  class Process {
    var who: Identity

    const messages: array<Slot>
    const messageMap: array<Bitmaps.Word>
    var messageCount: nat

    const threadMap: array<Bitmaps.Word>
    var threads: map<nat, Record>
    var threadVersions: seq<nat>

    ghost var chains: map<nat, seq<nat>>
    ghost var leaked: set<nat>

    ghost function Footprint(): set<object> {
      {this, messages, messageMap, threadMap}
    }

    ghost function Read(): Image
      reads Footprint()
    {
      Image(messages[..], Bitmaps.Members(messageMap[..]), messageCount, Bitmaps.Members(threadMap[..]),
            threads, threadVersions, chains, leaked)
    }

    ghost predicate Valid()
      reads Footprint()
    {
      && messages.Length == PROCESS_MESSAGE_MAX
      && Bitmaps.BITS * messageMap.Length == PROCESS_MESSAGE_MAX
      && Bitmaps.BITS * threadMap.Length == PROCESS_THREAD_MAX
      && messageMap != threadMap
      && ImageOk(Read())
    }

    ghost function View(): Proc
      reads Footprint()
    {
      ProcOf(Read(), who)
    }

    constructor (who: Identity)
      ensures Valid() && fresh(Footprint())
      ensures View() == Proc(who.version, who.parent, who.priv, 0, seq(PROCESS_THREAD_MAX, _ => 0), map[], who.entry)
    {
      this.who := who;
      messages := new Slot[PROCESS_MESSAGE_MAX](_ => BLANK);
      var none: Bitmaps.Word := seq(32, _ => false);
      messageMap := new Bitmaps.Word[32](_ => none);
      threadMap := new Bitmaps.Word[2](_ => none);
      messageCount, threads, threadVersions := 0, map[], seq(PROCESS_THREAD_MAX, _ => 0);
      chains, leaked := map[], {};
      new;
      assert forall w :: w in messageMap[..] ==> w == none;
      assert forall w :: w in threadMap[..] ==> w == none;
      assert Bitmaps.Members(messageMap[..]) == {};
      assert Bitmaps.Members(threadMap[..]) == {};
    }

    /** The plain fields of the block show through its meaning. */
    lemma Facts()
      requires Valid()
      ensures View().threads.Keys == threads.Keys
      ensures View().used == messageCount && View().tvers == threadVersions
      ensures View().version == who.version && View().parent == who.parent && View().priv == who.priv
      ensures View().entry == who.entry
      ensures forall t :: t in threads ==>
                var th := View().threads[t];
                && th.version == threads[t].version && th.waitFor == threads[t].waitFor
                && th.payAddr == threads[t].payAddr && th.paySize == threads[t].paySize
                && |th.queue| == threads[t].count
    {
      forall t | t in threads ensures t in chains && threads[t].count == |chains[t]| {
        RecordInRange(Read(), t);
      }
      ThreadsDomain(Read());
      hide ImageOk, Contents, Bitmaps.Members;
    }

    /** Fill slot `index` and link it before the first slot of the queue. */
    method LinkFirst(t: nat, m: Message, index: nat)
      requires t in threads && index < messages.Length
      modifies messages, `threads
      ensures messages[..] == old(messages[..])[index := Slot(m, ToSigned(old(threads[t].head)))]
      ensures
        var r := old(threads[t]);
        threads == old(threads)[t := r.(head := index,
            tail := if r.count == 0 then index else r.tail, count := r.count + 1)]
    {
      var thread := threads[t];
      if thread.count == 0 {
        thread := thread.(tail := index);
      }
      messages[index] := Slot(m, ToSigned(thread.head));
      threads := threads[t := thread.(head := index, count := thread.count + 1)];
    }

    /** Fill slot `index` and link it behind the last slot of the queue. */
    method LinkLast(t: nat, m: Message, index: nat)
      requires t in threads && index < messages.Length
      requires threads[t].count != 0 ==> threads[t].tail < messages.Length
      modifies messages, `threads
      ensures
        var s, r := old(messages[..]), old(threads[t]);
        messages[..] == (if r.count == 0 then s else s[r.tail := s[r.tail].(next := index)])[index := Slot(m, -1)]
      ensures
        var r := old(threads[t]);
        threads == old(threads)[t := r.(head := if r.count == 0 then index else r.head,
            tail := index, count := r.count + 1)]
    {
      var thread := threads[t];
      if thread.count == 0 {
        thread := thread.(head := index);
      } else {
        messages[thread.tail] := messages[thread.tail].(next := index);
      }
      messages[index] := Slot(m, -1);
      threads := threads[t := thread.(tail := index, count := thread.count + 1)];
    }

    /** Claim a free slot; the count says that there is one. */
    method ClaimSlot() returns (index: nat)
      requires Bitmaps.BITS * messageMap.Length == PROCESS_MESSAGE_MAX
      requires |Bitmaps.Members(messageMap[..])| < PROCESS_MESSAGE_MAX
      modifies messageMap
      ensures index < PROCESS_MESSAGE_MAX && index !in old(Bitmaps.Members(messageMap[..]))
      ensures Bitmaps.Members(messageMap[..]) == old(Bitmaps.Members(messageMap[..])) + {index}
    {
      Bitmaps.RoomLeft(Bitmaps.Members(messageMap[..]), PROCESS_MESSAGE_MAX);
      index := Bitmaps.FindAndSet(messageMap, PROCESS_MESSAGE_MAX);
    }

    /** Put a message into a thread's queue, in front or at the end. */
    method MessageAdd(t: nat, m: Message, head: bool)
      requires Valid() && t in threads && messageCount < PROCESS_MESSAGE_MAX
      modifies Footprint()
      ensures Valid() && View() == Deliver(old(View()), t, m, head)
    {
      hide ImageOk, ProcOf, Deliver, Bitmaps.Members;
      ghost var i := Read();
      RecordInRange(i, t);
      var index := ClaimSlot();
      if head {
        LinkFirst(t, m, index);
        chains := chains[t := [index] + chains[t]];
      } else {
        LinkLast(t, m, index);
        chains := chains[t := chains[t] + [index]];
      }
      messageCount := messageCount + 1;
      ghost var j := Read();
      if head {
        PrependMeaning(i, t, index, m, j, who);
      } else {
        AppendMeaning(i, t, index, m, j, who);
      }
    }

    /** Take the message at the head of a non-empty queue. */
    method MessageRemove(t: nat) returns (m: Message)
      requires Valid() && t in threads && threads[t].count != 0
      modifies Footprint()
      ensures Valid() && View() == TakeFirst(old(View()), t)
      ensures old(QueueOf(View(), t)) != [] && m == old(QueueOf(View(), t))[0]
    {
      hide ImageOk, ProcOf, TakeFirst, QueueOf, Bitmaps.Members;
      ghost var i := Read();
      RecordInRange(i, t);
      HeadMessage(i, t, who);
      var thread := threads[t];
      var source := messages[thread.head];
      m := source.msg;
      Bitmaps.Clear(messageMap, thread.head);
      threads := threads[t := thread.(head := ToUnsigned(source.next), count := thread.count - 1)];
      messageCount := messageCount - 1;
      chains := chains[t := chains[t][1..]];
      TakeMeaning(i, t, Read(), who);
    }

    /** The message at the head of a non-empty queue, left where it is. */
    method MessagePeek(t: nat) returns (m: Message)
      requires Valid() && t in threads && threads[t].count != 0
      ensures QueueOf(View(), t) != [] && m == QueueOf(View(), t)[0]
    {
      RecordInRange(Read(), t);
      HeadMessage(Read(), t, who);
      m := messages[threads[t].head].msg;
    }

    /** Cut slot `curr`, which follows `prev`, out of a queue and link it in front. */
    method Relink(t: nat, prev: nat, curr: nat)
      requires t in threads && prev < messages.Length && curr < messages.Length && prev != curr
      modifies messages, `threads
      ensures
        var s, r := old(messages[..]), old(threads[t]);
        && messages[..] == s[prev := s[prev].(next := s[curr].next)][curr := s[curr].(next := ToSigned(r.head))]
        && threads == old(threads)[t := r.(head := curr, tail := if r.tail == curr then prev else r.tail)]
    {
      messages[prev] := messages[prev].(next := messages[curr].next);
      var thread := threads[t];
      if thread.tail == curr {
        thread := thread.(tail := prev);
      }
      messages[curr] := messages[curr].(next := ToSigned(thread.head));
      threads := threads[t := thread.(head := curr)];
    }

    /** Walk a queue up to the first message that matches; `prev` trails one slot behind. */
    method Search(t: nat, search: Port) returns (prev: int, curr: int, ghost k: nat)
      requires Valid() && t in threads && t in chains && threads[t].count != 0
      ensures k == FirstMatch(Contents(messages[..], chains[t]), search)
      ensures curr == if k < |chains[t]| then chains[t][k] else -1
      ensures prev == if k == 0 then -1 else chains[t][k - 1]
    {
      hide ImageOk, FirstMatch, Contents, Compare, Bitmaps.Members;
      ghost var i, chain := Read(), chains[t];
      ghost var q := Contents(i.slots, chain);
      RecordInRange(i, t);
      prev, curr, k := -1, ToSigned(threads[t].head), 0;
      while curr != -1
        invariant k <= |chain|
        invariant curr == if k < |chain| then chain[k] else -1
        invariant prev == if k == 0 then -1 else chain[k - 1]
        invariant forall c :: 0 <= c < k ==> !Compare(search, q[c].from)
        decreases |chain| - k
      {
        HopAt(i, t, k);
        if Compare(search, messages[curr].msg.from) {
          MatchAt(q, search, k);
          return;
        }
        prev, curr, k := curr, messages[curr].next, k + 1;
      }
    }

    /** Bring the k-th message of a queue, in slot `curr`, to its head. */
    method BringForward(t: nat, prev: nat, curr: nat, ghost k: nat)
      requires Valid() && t in threads && t in chains && 0 < k < |chains[t]|
      requires prev == chains[t][k - 1] && curr == chains[t][k]
      modifies this, messages
      ensures Valid()
      ensures View() == SetQueue(old(View()), t, ToFront(old(Contents(messages[..], chains[t])), k))
    {
      hide ImageOk, ProcOf, SetQueue, ToFront, Contents, Relinked, Bitmaps.Members;
      ghost var i := Read();
      ChainBounds(i, t);
      Relink(t, prev, curr);
      chains := chains[t := ToFront(chains[t], k)];
      RelinkedBy(i.slots, i.chains[t], k, messages[..]);
      PromoteMeaning(i, t, k, Read(), who);
    }

    /** Look for a message from `search`; if there is one, the first goes to the head. */
    method MessageFind(t: nat, search: Port) returns (found: bool)
      requires Valid() && t in threads
      modifies Footprint()
      ensures Valid()
      ensures
        var p, q := old(View()), old(QueueOf(View(), t));
        && found == (FirstMatch(q, search) < |q|)
        && View() == SetQueue(p, t, Promote(q, search))
    {
      hide ImageOk, ProcOf, SetQueue, QueueOf, FirstMatch, Promote, ToFront, Contents;
      ghost var i := Read();
      RecordInRange(i, t);
      SameQueue(i, t, who);
      NoMatch(Contents(i.slots, i.chains[t]), search);
      if threads[t].count == 0 {
        return false;
      }
      ghost var k;
      var prev, curr;
      prev, curr, k := Search(t, search);
      found := curr != -1;
      if found {
        MatchAt(Contents(i.slots, i.chains[t]), search, k);
        if prev != -1 {
          BringForward(t, prev, curr, k);
        }
      }
    }

    /** Record what a blocking thread waits for. */
    method WaitSet(t: nat, waitFor: Port)
      requires Valid() && t in threads
      modifies Footprint()
      ensures Valid() && View() == SetRequest(old(View()), t, waitFor, old(threads[t].payAddr), old(threads[t].paySize))
    {
      hide ImageOk, ProcOf, SetRequest, Bitmaps.Members;
      RecordMeaning(Read(), t, threads[t].(waitFor := waitFor), who);
      threads := threads[t := threads[t].(waitFor := waitFor)];
    }

    /** Record the payload a blocking sender offers. */
    method PayloadSet(t: nat, addr: nat, size: nat)
      requires Valid() && t in threads
      modifies Footprint()
      ensures Valid() && View() == SetRequest(old(View()), t, old(threads[t].waitFor), addr, size)
    {
      hide ImageOk, ProcOf, SetRequest, Bitmaps.Members;
      RecordMeaning(Read(), t, threads[t].(payAddr := addr, paySize := size), who);
      threads := threads[t := threads[t].(payAddr := addr, paySize := size)];
    }

    /** Set where threads start that are not given an entry point. */
    method EntrySet(entry: nat)
      requires Valid()
      modifies Footprint()
      ensures Valid() && View() == old(View()).(entry := entry)
    {
      hide ImageOk, Bitmaps.Members;
      who := who.(entry := entry);
    }

    /** Claim the lowest free thread number. */
    method ClaimThread() returns (t: nat)
      requires Bitmaps.BITS * threadMap.Length == PROCESS_THREAD_MAX
      requires exists u: nat :: u < PROCESS_THREAD_MAX && u !in Bitmaps.Members(threadMap[..])
      modifies threadMap
      ensures t < PROCESS_THREAD_MAX && t !in old(Bitmaps.Members(threadMap[..]))
      ensures forall u: nat :: u < t ==> u in old(Bitmaps.Members(threadMap[..]))
      ensures Bitmaps.Members(threadMap[..]) == old(Bitmaps.Members(threadMap[..])) + {t}
    {
      t := Bitmaps.FindAndSet(threadMap, PROCESS_THREAD_MAX);
    }

    /** Create a thread with an empty queue and the next version of its slot. */
    method ThreadNew() returns (t: nat)
      requires Valid() && exists u: nat :: u < PROCESS_THREAD_MAX && u !in threads
      modifies Footprint()
      ensures t < PROCESS_THREAD_MAX && t !in old(threads) && forall u: nat :: u < t ==> u in old(threads)
      ensures |old(View()).tvers| == PROCESS_THREAD_MAX && old(View()).tvers[t] < 256
      ensures Valid() && View() == AddThread(old(View()), t)
    {
      ghost var i := Read();
      t := ClaimThread();
      var version := NextVersion(threadVersions[t]);
      var fresh_ := Record(version, NIL, NIL, 0, Port(0, 0, 0, 0), 0, 0);
      threadVersions := threadVersions[t := version];
      threads := threads[t := fresh_];
      chains := chains[t := []];
      OpenMeaning(i, t, fresh_, Read(), who);
    }

    /** Destroy a thread; the slots of its queue stay occupied. */
    method ThreadKill(t: nat)
      requires Valid() && t in threads
      modifies Footprint()
      ensures Valid() && View() == RemoveThread(old(View()), t)
    {
      hide ImageOk, ProcOf, RemoveThread, Bitmaps.Members;
      ghost var i := Read();
      RecordInRange(i, t);
      Bitmaps.Clear(threadMap, t);
      leaked := leaked + set c | c in chains[t];
      threads := threads - {t};
      chains := chains - {t};
      CloseMeaning(i, t, Read(), who);
    }
  }
}
