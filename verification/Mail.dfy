/** Mail queues as sequences: what the linked slots of kernel/core/ipc/message.c mean. */
module Mail {
  import opened Ports

  datatype Message = Message(from: Port, code: nat, args: seq<nat>, payload: bool)

  /** What a live thread's record means to the rest of the kernel. */
  datatype Thread = Thread(version: nat, waitFor: Port, payAddr: nat, paySize: nat, queue: seq<Message>)

  /** What a live process's record means; `used` counts its occupied message slots, and `entry`
      is where threads start that are not given an entry point. */
  datatype Proc = Proc(version: nat, parent: nat, priv: nat, used: int, tvers: seq<nat>, threads: map<nat, Thread>,
                       entry: nat)

  function SetQueue(p: Proc, t: nat, q: seq<Message>): Proc {
    if t in p.threads then p.(threads := p.threads[t := p.threads[t].(queue := q)]) else p
  }

  function SetRequest(p: Proc, t: nat, waitFor: Port, payAddr: nat, paySize: nat): Proc {
    if t in p.threads then
      p.(threads := p.threads[t := p.threads[t].(waitFor := waitFor, payAddr := payAddr, paySize := paySize)])
    else
      p
  }

  /** A new thread in slot `t`, with the slot's next version and no mail. */
  function AddThread(p: Proc, t: nat): Proc
    requires t < |p.tvers| && p.tvers[t] < 256
  {
    var version := NextVersion(p.tvers[t]);
    p.(tvers := p.tvers[t := version],
       threads := p.threads[t := Thread(version, Port(0, 0, 0, 0), 0, 0, [])])
  }

  function RemoveThread(p: Proc, t: nat): Proc {
    p.(threads := p.threads - {t})
  }

  function QueueOf(p: Proc, t: nat): seq<Message> {
    if t in p.threads then p.threads[t].queue else []
  }

  /** A message enters a queue, in front or at the end. */
  function Deliver(p: Proc, t: nat, m: Message, head: bool): Proc {
    SetQueue(p, t, if head then [m] + QueueOf(p, t) else QueueOf(p, t) + [m]).(used := p.used + 1)
  }

  /** The first message leaves a queue. */
  function TakeFirst(p: Proc, t: nat): Proc {
    if QueueOf(p, t) == [] then p
    else SetQueue(p, t, QueueOf(p, t)[1..]).(used := p.used - 1)
  }

  /** The position of the first message that a wait for `w` accepts; |q| if there is none. */
  function FirstMatch(q: seq<Message>, w: Port): (k: nat)
    ensures k <= |q|
    ensures k < |q| ==> Compare(w, q[k].from)
    ensures forall i :: 0 <= i < k ==> !Compare(w, q[i].from)
  {
    if q == [] || Compare(w, q[0].from) then 0 else 1 + FirstMatch(q[1..], w)
  }

  /** The k-th element first, the others in their old order behind it. */
  function ToFront<T>(s: seq<T>, k: nat): (r: seq<T>)
    requires k < |s|
    ensures |r| == |s| && r[0] == s[k]
    ensures forall i :: 1 <= i <= k ==> r[i] == s[i - 1]
    ensures forall i :: k < i < |s| ==> r[i] == s[i]
  {
    [s[k]] + s[..k] + s[k + 1..]
  }

  lemma ToFrontMembers<T>(s: seq<T>, k: nat)
    requires k < |s|
    ensures forall x :: x in ToFront(s, k) <==> x in s
  {
    assert s == s[..k] + [s[k]] + s[k + 1..];
  }

  /** Bring the first message that matches `w` to the front. */
  function Promote(q: seq<Message>, w: Port): (r: seq<Message>) {
    var k := FirstMatch(q, w);
    if k == |q| then q else ToFront(q, k)
  }

  lemma MatchAt(q: seq<Message>, w: Port, k: nat)
    requires k < |q| && Compare(w, q[k].from) && forall i :: 0 <= i < k ==> !Compare(w, q[i].from)
    ensures FirstMatch(q, w) == k && Promote(q, w) == ToFront(q, k)
    ensures k == 0 ==> Promote(q, w) == q
  {}

  lemma NoMatch(q: seq<Message>, w: Port)
    ensures FirstMatch(q, w) == |q| ==> Promote(q, w) == q
    ensures FirstMatch([], w) == 0 && Promote([], w) == []
  {}

  // ----- One sender's messages -----

  /** The messages of one sender, in queue order. */
  function From(q: seq<Message>, p: Port): (r: seq<Message>) {
    if q == [] then []
    else (if q[0].from == p then [q[0]] else []) + From(q[1..], p)
  }

  lemma {:induction false} FromConcat(a: seq<Message>, b: seq<Message>, p: Port)
    ensures From(a + b, p) == From(a, p) + From(b, p)
  {
    if a == [] {
      assert a + b == b;
    } else {
      FromConcat(a[1..], b, p);
      assert (a + b)[1..] == a[1..] + b;
      var first := if a[0].from == p then [a[0]] else [];
      assert From(a + b, p) == first + From(a[1..] + b, p);
      assert From(a, p) == first + From(a[1..], p);
    }
  }

  lemma {:induction false} FromNobody(q: seq<Message>, p: Port)
    requires forall m :: m in q ==> m.from != p
    ensures From(q, p) == []
  {
    if q != [] {
      FromNobody(q[1..], p);
    }
  }

  /** Moving the first match to the front never reorders the messages of any one sender. */
  lemma PromoteKeepsOrder(q: seq<Message>, w: Port, p: Port)
    ensures From(Promote(q, w), p) == From(q, p)
  {
    var k := FirstMatch(q, w);
    if k < |q| {
      assert q == q[..k] + ([q[k]] + q[k + 1..]);
      FromConcat(q[..k], [q[k]] + q[k + 1..], p);
      FromConcat([q[k]], q[k + 1..], p);
      FromConcat([q[k]] + q[..k], q[k + 1..], p);
      FromConcat([q[k]], q[..k], p);
      if q[k].from == p {
        FromNobody(q[..k], p);
      }
    }
  }

  /** Putting a message in front is as good as appending it when nothing
      in the queue matches what its receiver waits for. */
  lemma PrependKeepsOrder(q: seq<Message>, m: Message, w: Port, p: Port)
    requires Compare(w, m.from)
    requires forall x :: x in q ==> !Compare(w, x.from)
    ensures From([m] + q, p) == From(q, p) + From([m], p)
  {
    FromConcat([m], q, p);
    if m.from == p {
      FromNobody(q, p);
    }
  }

  lemma PromoteMembers(q: seq<Message>, w: Port)
    ensures |Promote(q, w)| == |q|
    ensures multiset(Promote(q, w)) == multiset(q)
    ensures forall m :: m in Promote(q, w) <==> m in q
  {
    var k := FirstMatch(q, w);
    if k < |q| {
      assert q == q[..k] + [q[k]] + q[k + 1..];
    }
    assert forall m :: m in Promote(q, w) <==> m in multiset(Promote(q, w));
    assert forall m :: m in q <==> m in multiset(q);
  }

  // ----- Payload messages of one sender -----

  /** How many messages of `p` in the queue carry a payload. */
  function Pending(q: seq<Message>, p: Port): (n: nat) {
    if q == [] then 0
    else (if q[0].from == p && q[0].payload then 1 else 0) + Pending(q[1..], p)
  }

  lemma {:induction false} PendingConcat(a: seq<Message>, b: seq<Message>, p: Port)
    ensures Pending(a + b, p) == Pending(a, p) + Pending(b, p)
  {
    if a == [] {
      assert a + b == b;
    } else {
      PendingConcat(a[1..], b, p);
      assert (a + b)[1..] == a[1..] + b;
    }
  }

  lemma {:induction false} PendingExists(q: seq<Message>, p: Port)
    ensures Pending(q, p) > 0 <==> exists m :: m in q && m.from == p && m.payload
  {
    if q != [] {
      PendingExists(q[1..], p);
      if Pending(q[1..], p) > 0 {
        var m :| m in q[1..] && m.from == p && m.payload;
        assert m in q;
      }
      if exists m :: m in q && m.from == p && m.payload {
        var m :| m in q && m.from == p && m.payload;
        assert m == q[0] || m in q[1..];
      }
    }
  }

  lemma PromoteKeepsPending(q: seq<Message>, w: Port, p: Port)
    ensures Pending(Promote(q, w), p) == Pending(q, p)
  {
    var k := FirstMatch(q, w);
    if k < |q| {
      assert q == q[..k] + ([q[k]] + q[k + 1..]);
      PendingConcat(q[..k], [q[k]] + q[k + 1..], p);
      PendingConcat([q[k]], q[k + 1..], p);
      PendingConcat([q[k]] + q[..k], q[k + 1..], p);
      PendingConcat([q[k]], q[..k], p);
    }
  }
}
