/** Mail queues as linked slots (kernel/core/ipc/message.c): every queue of a process
    is a chain of `next` links through one array, from `head` to -1. */
module MailSlots {
  import opened Ports
  import opened Mail

  datatype Slot = Slot(msg: Message, next: int)

  /** The part of a thread record that lives with its process.  `head` and `tail` are
      unsigned 16-bit fields, so an end of chain stored there reads as 65535. */
  datatype Record = Record(version: nat, head: nat, tail: nat, count: nat,
                           waitFor: Port, payAddr: nat, paySize: nat)

  const NIL := 65535

  const NO_MESSAGE := Message(Port(0, 0, 0, 0), 0, [], false)

  function ToUnsigned(next: int): nat
    requires -1 <= next
  {
    if next == -1 then NIL else next
  }

  function ToSigned(head: nat): int {
    if head < 32768 then head else head - 65536
  }

  // ----- One chain -----

  ghost predicate Hop(slots: seq<Slot>, chain: seq<nat>, i: nat)
    requires i < |chain| && chain[i] < |slots|
  {
    slots[chain[i]].next == if i + 1 < |chain| then chain[i + 1] else -1
  }

  /** Following `next` from the head of `r` visits exactly the slots of `chain`, each once. */
  ghost predicate ChainOk(slots: seq<Slot>, r: Record, chain: seq<nat>) {
    && |slots| == PROCESS_MESSAGE_MAX
    && (forall i :: 0 <= i < |chain| ==> chain[i] < |slots|)
    && (forall i, j :: 0 <= i < j < |chain| ==> chain[i] != chain[j])
    && (forall i: nat :: i < |chain| ==> Hop(slots, chain, i))
    && r.count == |chain|
    && (if chain == [] then r.head == NIL else r.head == chain[0] && r.tail == chain[|chain| - 1])
  }

  function MessageAt(slots: seq<Slot>, c: nat): Message {
    if c < |slots| then slots[c].msg else NO_MESSAGE
  }

  ghost function Contents(slots: seq<Slot>, chain: seq<nat>): (q: seq<Message>)
    ensures |q| == |chain|
    ensures forall i :: 0 <= i < |q| ==> q[i] == MessageAt(slots, chain[i])
  {
    seq(|chain|, i requires 0 <= i < |chain| => MessageAt(slots, chain[i]))
  }

  lemma ChainFrame(slots: seq<Slot>, slots': seq<Slot>, r: Record, chain: seq<nat>)
    requires ChainOk(slots, r, chain) && |slots'| == |slots|
    requires forall c :: c in chain ==> slots'[c] == slots[c]
    ensures ChainOk(slots', r, chain) && Contents(slots', chain) == Contents(slots, chain)
  {
    forall i: nat | i < |chain| ensures Hop(slots', chain, i) {
      assert Hop(slots, chain, i);
    }
  }

  /** Append a filled slot: the old last slot, if any, points to it. */
  lemma ChainAppend(slots: seq<Slot>, r: Record, chain: seq<nat>, x: nat, m: Message, slots': seq<Slot>, r': Record)
    requires ChainOk(slots, r, chain) && x < |slots| && x !in chain
    requires slots' == (if r.count == 0 then slots else slots[r.tail := slots[r.tail].(next := x)])[x := Slot(m, -1)]
    requires r' == r.(head := if r.count == 0 then x else r.head, tail := x, count := r.count + 1)
    ensures ChainOk(slots', r', chain + [x])
    ensures Contents(slots', chain + [x]) == Contents(slots, chain) + [m]
  {
    hide Hop, Contents;
    var c := chain + [x];
    AppendApart(chain, x);
    AppendHops(slots, r, chain, x, m, slots', c);
    AppendMessages(slots, r.count == 0, r.tail, x, m, slots');
    AppendContents(slots, chain, x, m, slots');
  }

  lemma AppendMessages(slots: seq<Slot>, first: bool, tail: nat, x: nat, m: Message, slots': seq<Slot>)
    requires x < |slots| && (!first ==> tail < |slots|)
    requires slots' == (if first then slots else slots[tail := slots[tail].(next := x)])[x := Slot(m, -1)]
    ensures |slots'| == |slots| && slots'[x].msg == m
      && forall y :: 0 <= y < |slots| && y != x ==> slots'[y].msg == slots[y].msg
  {}

  /** A chain with a new slot at one end has no slot twice. */
  lemma AppendApart(chain: seq<nat>, x: nat)
    requires x !in chain && forall i, j :: 0 <= i < j < |chain| ==> chain[i] != chain[j]
    ensures forall i, j :: 0 <= i < j < |chain + [x]| ==> (chain + [x])[i] != (chain + [x])[j]
  {
    var c := chain + [x];
    forall i, j | 0 <= i < j < |c| ensures c[i] != c[j] {
      assert c[i] == chain[i] && chain[i] in chain;
    }
  }

  lemma PrependApart(chain: seq<nat>, x: nat)
    requires x !in chain && forall i, j :: 0 <= i < j < |chain| ==> chain[i] != chain[j]
    ensures forall i, j :: 0 <= i < j < |[x] + chain| ==> ([x] + chain)[i] != ([x] + chain)[j]
  {
    var c := [x] + chain;
    forall i, j | 0 <= i < j < |c| ensures c[i] != c[j] {
      assert c[j] == chain[j - 1] && chain[j - 1] in chain;
    }
  }

  lemma AppendHops(slots: seq<Slot>, r: Record, chain: seq<nat>, x: nat, m: Message, slots': seq<Slot>, c: seq<nat>)
    requires ChainOk(slots, r, chain) && x < |slots| && x !in chain && c == chain + [x]
    requires slots' == (if r.count == 0 then slots else slots[r.tail := slots[r.tail].(next := x)])[x := Slot(m, -1)]
    ensures forall i :: 0 <= i < |c| ==> c[i] < |slots'|
    ensures forall i: nat :: i < |c| ==> Hop(slots', c, i)
  {
    forall i: nat | i < |c| ensures Hop(slots', c, i) {
      if i < |chain| {
        assert Hop(slots, chain, i) && chain[i] in chain;
        if i + 1 < |chain| {
          assert chain[i] != chain[|chain| - 1];
        }
      }
    }
  }

  lemma AppendContents(slots: seq<Slot>, chain: seq<nat>, x: nat, m: Message, slots': seq<Slot>)
    requires x < |slots| == |slots'| && x !in chain && slots'[x].msg == m
    requires forall y :: 0 <= y < |slots| && y != x ==> slots'[y].msg == slots[y].msg
    ensures Contents(slots', chain + [x]) == Contents(slots, chain) + [m]
  {
    var old_, now := Contents(slots, chain) + [m], Contents(slots', chain + [x]);
    forall i | 0 <= i < |now| ensures now[i] == old_[i] {
      if i < |chain| {
        assert chain[i] in chain;
      }
    }
  }

  /** Prepend a filled slot: it points to the old head. */
  lemma ChainPrepend(slots: seq<Slot>, r: Record, chain: seq<nat>, x: nat, m: Message, slots': seq<Slot>, r': Record)
    requires ChainOk(slots, r, chain) && x < |slots| && x !in chain
    requires slots' == slots[x := Slot(m, ToSigned(r.head))]
    requires r' == r.(head := x, tail := if r.count == 0 then x else r.tail, count := r.count + 1)
    ensures ChainOk(slots', r', [x] + chain)
    ensures Contents(slots', [x] + chain) == [m] + Contents(slots, chain)
  {
    hide Hop, Contents;
    var c := [x] + chain;
    PrependApart(chain, x);
    PrependHops(slots, r, chain, x, m, slots', c);
    PrependContents(slots, chain, x, m, slots');
  }

  lemma PrependHops(slots: seq<Slot>, r: Record, chain: seq<nat>, x: nat, m: Message, slots': seq<Slot>, c: seq<nat>)
    requires ChainOk(slots, r, chain) && x < |slots| && x !in chain && c == [x] + chain
    requires slots' == slots[x := Slot(m, ToSigned(r.head))]
    ensures forall i :: 0 <= i < |c| ==> c[i] < |slots'|
    ensures forall i: nat :: i < |c| ==> Hop(slots', c, i)
  {
    forall i: nat | i < |c| ensures Hop(slots', c, i) {
      if i > 0 {
        assert Hop(slots, chain, i - 1) && chain[i - 1] in chain;
      }
    }
  }

  lemma PrependContents(slots: seq<Slot>, chain: seq<nat>, x: nat, m: Message, slots': seq<Slot>)
    requires x < |slots| == |slots'| && x !in chain && slots'[x].msg == m
    requires forall y :: 0 <= y < |slots| && y != x ==> slots'[y].msg == slots[y].msg
    ensures Contents(slots', [x] + chain) == [m] + Contents(slots, chain)
  {
    var old_, now := [m] + Contents(slots, chain), Contents(slots', [x] + chain);
    forall i | 0 <= i < |now| ensures now[i] == old_[i] {
      if i > 0 {
        assert chain[i - 1] in chain;
      }
    }
  }

  /** Drop the head slot. */
  lemma ChainTail(slots: seq<Slot>, r: Record, chain: seq<nat>, r': Record)
    requires ChainOk(slots, r, chain) && chain != []
    requires slots[r.head].next >= -1
    requires r' == r.(head := ToUnsigned(slots[r.head].next), count := r.count - 1)
    ensures ChainOk(slots, r', chain[1..])
    ensures Contents(slots, chain[1..]) == Contents(slots, chain)[1..]
  {
    assert Hop(slots, chain, 0);
    forall i: nat | i < |chain[1..]| ensures Hop(slots, chain[1..], i) {
      assert Hop(slots, chain, i + 1);
    }
  }

  /** `c` is `chain` with its k-th slot moved to the front. */
  ghost predicate Moved(chain: seq<nat>, k: nat, c: seq<nat>) {
    && 0 < k < |chain| == |c|
    && c[0] == chain[k]
    && (forall j :: 1 <= j <= k ==> c[j] == chain[j - 1])
    && (forall j :: k < j < |c| ==> c[j] == chain[j])
  }

  lemma MovedDistinct(chain: seq<nat>, k: nat, c: seq<nat>)
    requires Moved(chain, k, c) && forall a, b :: 0 <= a < b < |chain| ==> chain[a] != chain[b]
    ensures forall a, b :: 0 <= a < b < |c| ==> c[a] != c[b]
  {
    forall a, b | 0 <= a < b < |chain| ensures c[a] != c[b] {
      var x := if a == 0 then k else if a <= k then a - 1 else a;
      var y := if b <= k then b - 1 else b;
      assert c[a] == chain[x] && c[b] == chain[y] && x != y;
    }
  }

  /** The k-th slot has been cut out and points to the old first one. */
  ghost predicate Relinked(slots: seq<Slot>, chain: seq<nat>, k: nat, slots': seq<Slot>)
    requires 0 < k < |chain| && forall j :: 0 <= j < |chain| ==> chain[j] < |slots|
  {
    && |slots'| == |slots|
    && (forall x :: 0 <= x < |slots| ==> slots'[x].msg == slots[x].msg)
    && (forall x :: 0 <= x < |slots| && x != chain[k - 1] && x != chain[k] ==> slots'[x].next == slots[x].next)
    && slots'[chain[k - 1]].next == slots[chain[k]].next
    && slots'[chain[k]].next == chain[0]
  }

  lemma RelinkedBy(slots: seq<Slot>, chain: seq<nat>, k: nat, slots': seq<Slot>)
    requires 0 < k < |chain| && chain[k - 1] != chain[k]
    requires forall j :: 0 <= j < |chain| ==> chain[j] < |slots| < 32768
    requires
      var prev, curr := chain[k - 1], chain[k];
      slots' == slots[prev := slots[prev].(next := slots[curr].next)][curr := slots[curr].(next := ToSigned(chain[0]))]
    ensures Relinked(slots, chain, k, slots')
  {}

  lemma PromoteHop(slots: seq<Slot>, r: Record, chain: seq<nat>, k: nat, slots': seq<Slot>, c: seq<nat>, i: nat)
    requires ChainOk(slots, r, chain) && Moved(chain, k, c) && Relinked(slots, chain, k, slots') && i < |c|
    ensures c[i] < |slots'| && Hop(slots', c, i)
  {
    assert Hop(slots, chain, k);
    assert Hop(slots, chain, if i == 0 then k else if i <= k then i - 1 else i);
  }

  /** Relink the k-th slot in front of the others. */
  lemma ChainPromote(slots: seq<Slot>, r: Record, chain: seq<nat>, k: nat, slots': seq<Slot>, r': Record, c: seq<nat>)
    requires ChainOk(slots, r, chain) && Moved(chain, k, c) && Relinked(slots, chain, k, slots')
    requires r' == r.(head := chain[k], tail := if r.tail == chain[k] then chain[k - 1] else r.tail)
    ensures ChainOk(slots', r', c)
  {
    MovedDistinct(chain, k, c);
    forall i: nat | i < |c| ensures c[i] < |slots'| && Hop(slots', c, i) {
      PromoteHop(slots, r, chain, k, slots', c, i);
    }
  }

  lemma ContentsPromote(slots: seq<Slot>, chain: seq<nat>, k: nat, slots': seq<Slot>)
    requires 0 < k < |chain| && |slots'| == |slots|
    requires forall j :: 0 <= j < |chain| ==> chain[j] < |slots|
    requires forall x :: 0 <= x < |slots| ==> slots'[x].msg == slots[x].msg
    ensures forall j :: 0 <= j < |chain| ==> ToFront(chain, k)[j] < |slots'|
    ensures Contents(slots', ToFront(chain, k)) == ToFront(Contents(slots, chain), k)
  {
    forall j | 0 <= j < |chain| ensures ToFront(chain, k)[j] < |slots'| {
      assert ToFront(chain, k)[j] == chain[if j == 0 then k else if j <= k then j - 1 else j];
    }
  }

  // ----- All chains of a process -----

  /** The chains are disjoint, and the occupied slots are exactly theirs
      plus the ones left behind by threads that were killed on their own. */
  ghost predicate SlotsOk(slots: seq<Slot>, threads: map<nat, Record>, chains: map<nat, seq<nat>>,
                          used: set<nat>, leaked: set<nat>)
  {
    && chains.Keys == threads.Keys
    && leaked <= used
    && (forall t :: t in chains ==> ChainOk(slots, threads[t], chains[t]))
    && (forall t, u, c :: t in chains && u in chains && c in chains[t] && c in chains[u] ==> t == u)
    && (forall t, c :: t in chains && c in chains[t] ==> c in used && c !in leaked)
    && (forall c :: c in used && c !in leaked ==> exists t :: t in chains && c in chains[t])
  }

  /** Replacing one thread's chain, with the slots of every other chain left alone. */
  lemma SlotsUpdate(slots: seq<Slot>, threads: map<nat, Record>, chains: map<nat, seq<nat>>,
                    used: set<nat>, leaked: set<nat>,
                    t: nat, slots': seq<Slot>, r: Record, chain: seq<nat>, used': set<nat>)
    requires SlotsOk(slots, threads, chains, used, leaked) && t in threads
    requires ChainOk(slots', r, chain) && |slots'| == |slots|
    requires forall u, c :: u in chains && u != t && c in chains[u] ==> slots'[c] == slots[c] && c !in chain
    requires forall c :: c in chain ==> c in used' && c !in leaked
    requires forall c :: c in used' <==> (c in used && c !in chains[t]) || c in chain
    ensures SlotsOk(slots', threads[t := r], chains[t := chain], used', leaked)
    ensures forall u :: u in chains && u != t ==> Contents(slots', chains[u]) == Contents(slots, chains[u])
  {
    hide ChainOk, Contents;
    var chains' := chains[t := chain];
    forall u | u in chains' ensures ChainOk(slots', threads[t := r][u], chains'[u]) {
      if u != t {
        ChainFrame(slots, slots', threads[u], chains[u]);
      }
    }
    forall u | u in chains && u != t ensures Contents(slots', chains[u]) == Contents(slots, chains[u]) {
      ChainFrame(slots, slots', threads[u], chains[u]);
    }
    forall c | c in used' && c !in leaked ensures exists u :: u in chains' && c in chains'[u] {
      if c in chain {
        assert t in chains' && c in chains'[t];
      } else {
        var u :| u in chains && c in chains[u];
        assert u in chains' && c in chains'[u];
      }
    }
  }

  // ----- A fresh thread whose head was left at zero -----

  /** The record heads some proper chain. */
  ghost predicate Sound(slots: seq<Slot>, r: Record) {
    exists chain: seq<nat> :: ChainOk(slots, r, chain)
  }

  /** Prepending to an empty queue gives a chain exactly when the empty queue's head reads
      as the end mark.  The zero that clearing a new thread's record leaves there does not. */
  lemma PrependToEmpty(slots: seq<Slot>, r: Record, x: nat, m: Message)
    requires |slots| == PROCESS_MESSAGE_MAX && r.count == 0 && x < |slots| && r.head < 65536
    ensures
      Sound(slots[x := Slot(m, ToSigned(r.head))], r.(head := x, tail := x, count := 1)) <==> r.head == NIL
  {
    var slots', r' := slots[x := Slot(m, ToSigned(r.head))], r.(head := x, tail := x, count := 1);
    if r.head == NIL {
      assert Hop(slots', [x], 0);
      assert ChainOk(slots', r', [x]);
    }
    if chain: seq<nat> :| ChainOk(slots', r', chain) {
      assert Hop(slots', chain, 0);
    }
  }

  /** The slots visited by following `next` for n steps. */
  function Walk(slots: seq<Slot>, at: int, n: nat): int
    decreases n
  {
    if n == 0 || !(0 <= at < |slots|) then at else Walk(slots, slots[at].next, n - 1)
  }

  /** With the head left at zero, the very first message, if it wakes its receiver,
      lands in slot 0 and points to itself: a search of that queue never reaches the end. */
  lemma {:induction false} ZeroHeadNeverEnds(slots: seq<Slot>, m: Message, n: nat)
    requires |slots| == PROCESS_MESSAGE_MAX
    ensures Walk(slots[0 := Slot(m, ToSigned(0))], 0, n) == 0
  {
    if n > 0 {
      ZeroHeadNeverEnds(slots, m, n - 1);
    }
  }
}
