/** Receiving a message together with its payload: the queues, the scheduler, the page tables and
    the bytes of memory in one system call (kernel/core/system/message/syscall_recv.c). */
module Delivery {
  import opened Ports
  import opened Mail
  import opened KernelState
  import opened KernelInvariant
  import opened KernelSteps
  import opened KernelAnswers
  import opened Kernels
  import opened Paging
  import opened AddressSpaces
  import opened Payload

  /** The caller's buffer at `to` has pages for the payload that waits for it. */
  ghost predicate Landing(s: State, links: Links, to: nat) {
    var x := HeadSender(s, 0);
    x != NOBODY && Live(s, x) && Span(Curr(s).pid, First(to), Checked(to, ThreadAt(s, x).paySize)) <= links.Keys
  }

  /** The page tables are only asked about a range with a size, and bytes only written below a
      directory's view of its own tables. */
  ghost predicate InReach(s: State, links: Links, mapped: bool, to: nat, bufSize: nat) {
    var x := HeadSender(s, 0);
    RecvError(s, mapped, bufSize, true) == ENONE && x != NOBODY && Live(s, x) ==>
      && Spaced(to, ThreadAt(s, x).paySize)
      && (Landing(s, links, to) ==> Ranged(to, ThreadAt(s, x).paySize))
      && (to + ThreadAt(s, x).paySize < WORD ==> ThreadAt(s, x).payAddr + ThreadAt(s, x).paySize <= TOP)
  }

  /** The bytes that the sender offered are where the receiver wanted them, and no others changed. */
  ghost predicate Delivered(s: State, links: Links, before: seq<Bytes>, after: seq<Bytes>, low: Bytes, to: nat) {
    var x := HeadSender(s, 0);
    && Live(s, x)
    && var t := ThreadAt(s, x);
       if to + t.paySize >= WORD then after == before
       else Arrived(before, after, low, Cells(links, x.pid, t.payAddr, t.paySize),
                    Cells(links, Curr(s).pid, to, t.paySize), t.paySize)
  }

  /** The call has returned the size of the payload, and unless the end of the buffer wraps around that
      many bytes have come from where the sender `x` offered them, and no others changed. */
  ghost predicate Counted(s: State, t: State, links: Links, before: seq<Bytes>, after: seq<Bytes>, low: Bytes,
                          to: nat, x: Uid) {
    var n := t.sched.frame.eax;
    && Live(s, x) && n == ThreadAt(s, x).paySize
    && if to + n >= 0x1_0000_0000 then after == before
       else
         var source, target := Cells(links, x.pid, ThreadAt(s, x).payAddr, n), Cells(links, Curr(s).pid, to, n);
         |source| == |target| == n && Arrived(before, after, low, source, target, n)
  }

  /** One step of the kernel, and with it exactly the payload moves; the call returns the number of
      bytes that have arrived, 0 without a payload, and a negative code if it has changed nothing else. */
  ghost predicate Received(s: State, t: State, links: Links, before: seq<Bytes>, after: seq<Bytes>, low: Bytes,
                           mapped: bool, to: nat, bufSize: nat, ok: bool, m: Message) {
    var e := Recv(mapped, bufSize, Landing(s, links, to));
    && Enabled(s, e) && t == Step(s, e)
    && (ok <==> t.sched.frame.eax >= 0)
    && (ok ==> Queue(s, Curr(s)) != [] && m == Queue(s, Curr(s))[0] && Queue(t, Curr(s)) == Queue(s, Curr(s))[1..])
    && (!ok ==> after == before && Answered(s, t, t.sched.frame.eax))
    && (forall x :: ok && Offers(s, 0, x) ==> Counted(s, t, links, before, after, low, to, x))
    && (ok && (forall x :: !Offers(s, 0, x)) ==> after == before && t.sched.frame.eax == 0)
  }

  lemma SameRecv(s: State, mapped: bool, bufSize: nat, links: Links, to: nat, bufMapped: bool)
    requires Enabled(s, Recv(mapped, bufSize, Landing(s, links, to)))
    requires Asked(s, mapped, bufSize) ==> (bufMapped <==> Landing(s, links, to))
    ensures Enabled(s, Recv(mapped, bufSize, bufMapped))
    ensures Step(s, Recv(mapped, bufSize, bufMapped)) == Step(s, Recv(mapped, bufSize, Landing(s, links, to)))
    ensures RecvError(s, mapped, bufSize, bufMapped) == RecvError(s, mapped, bufSize, Landing(s, links, to))
  {
    hide HeadSender, Live, ThreadAt, Queue, Curr, Wake, DropMail, Ret, Landing, Addable;
  }

  /** What the caller may take, if there is anything. */
  method Offer(k: Kernel, ghost s: State, mapped: bool, bufSize: nat)
    returns (some: bool, sender: Uid, from: nat, size: nat)
    requires k.Valid() && s == k.Abs() && s.sched.ring != []
    requires mapped && HeadSender(s, 0) != NOBODY ==> Live(s, HeadSender(s, 0))
    ensures some <==> Asked(s, mapped, bufSize)
    ensures some ==> sender == HeadSender(s, 0) && Live(s, sender)
    ensures some ==> from == ThreadAt(s, sender).payAddr && size == ThreadAt(s, sender).paySize
  {
    hide Kernel.Shape, Kernel.Abs, Core, Queue, HeadSender, Live, ThreadAt, Curr, StatesOk;
    some, sender, from, size := false, NOBODY, 0, 0;
    if !mapped {
      return;
    }
    CoreStates(s);
    CurrLive(s);
    var caller := k.Caller();
    var any, m := k.Head(s, caller);
    if !any {
      return;
    }
    sender := k.SenderOf(s, m, 0);
    if sender == NOBODY {
      return;
    }
    from, size := k.PayloadOf(s, sender);
    some := bufSize != 0 && size <= bufSize;
  }

  /** The message leaves the queue, its sender goes on, and exactly the bytes that it offered are in
      the receiver's buffer; a refused call changes nothing but the return value. */
  method Receive(k: Kernel, mem: Spaces, ram: Ram, mapped: bool, to: nat, bufSize: nat) returns (ok: bool, m: Message)
    requires k.Valid() && mem.Valid() && ram.Shaped(mem.pool.counts.Length)
    requires mem.spaces.Keys == k.Abs().procs.Keys + {KERNEL}
    requires Enabled(k.Abs(), Recv(mapped, bufSize, Landing(k.Abs(), mem.links, to)))
      && InReach(k.Abs(), mem.links, mapped, to, bufSize)
    requires ram !in k.repr && mem !in k.repr && mem.pool.Footprint() !! k.repr && ram !in mem.pool.Footprint()
    modifies k.repr, k.sched, ram
    ensures k.Valid() && mem.Valid() && ram.Shaped(mem.pool.counts.Length)
    ensures Received(old(k.Abs()), k.Abs(), mem.links, old(ram.frames), ram.frames, ram.low, mapped, to, bufSize, ok, m)
  {
    hide Kernel.Shape, Kernel.Abs, Spaces.ValidBut, Core, Received, Step, Enabled, Landing, Delivered, Ram.Shaped;
    ghost var s, before := k.Abs(), ram.frames;
    CoreFacts(s, mapped, bufSize, mem.links, to);
    ghost var links, low := mem.links, ram.low;
    var bufMapped := Fetch(k, s, mem, ram, mapped, to, bufSize);
    SameRecv(s, mapped, bufSize, links, to, bufMapped);
    ok, m := k.SyscallRecv(mapped, bufSize, bufMapped);
    Together(s, k.Abs(), links, before, ram.frames, low, mapped, to, bufSize, bufMapped, ok, m);
  }

  /** Copy the payload if there is one and it fits. */
  method Fetch(k: Kernel, ghost s: State, mem: Spaces, ram: Ram, mapped: bool, to: nat, bufSize: nat)
    returns (bufMapped: bool)
    requires k.Valid() && s == k.Abs() && s.sched.ring != [] && Curr(s).pid in s.procs
    requires mapped && HeadSender(s, 0) != NOBODY ==> Live(s, HeadSender(s, 0)) && HeadSender(s, 0).pid in s.procs
    requires mem.Valid() && ram.Shaped(mem.pool.counts.Length) && ram !in k.repr && ram !in mem.pool.Footprint()
    requires mem.spaces.Keys == s.procs.Keys + {KERNEL} && InReach(s, mem.links, mapped, to, bufSize)
    modifies ram
    ensures ram.Shaped(mem.pool.counts.Length)
    ensures Asked(s, mapped, bufSize) ==> (bufMapped <==> Landing(s, mem.links, to))
    ensures bufMapped ==> Asked(s, mapped, bufSize) && Delivered(s, mem.links, old(ram.frames), ram.frames, ram.low, to)
    ensures !bufMapped ==> ram.frames == old(ram.frames)
  {
    hide Kernel.Shape, Kernel.Abs, Spaces.ValidBut, Core, Queue, HeadSender, ThreadAt, Curr,
      Arrived, RecvError, Cells, Ranged, Spaced;
    var some, sender, from, size := Offer(k, s, mapped, bufSize);
    bufMapped := false;
    if some {
      var caller := k.Caller();
      var state := mem.VirtualIsMapped(caller.pid, to, size);
      bufMapped := state == 1;
      if bufMapped {
        CopyPayload(mem, ram, sender.pid, from, caller.pid, to, size);
      }
    }
  }

  /** The call gets as far as looking at the caller's buffer. */
  ghost predicate Asked(s: State, mapped: bool, bufSize: nat) {
    RecvError(s, mapped, bufSize, true) == ENONE && HeadSender(s, 0) != NOBODY
  }

  lemma Together(s: State, t: State, links: Links, before: seq<Bytes>, after: seq<Bytes>, low: Bytes,
                 mapped: bool, to: nat, bufSize: nat, bufMapped: bool, ok: bool, m: Message)
    requires Core(s) && Enabled(s, Recv(mapped, bufSize, Landing(s, links, to)))
      && t == Step(s, Recv(mapped, bufSize, Landing(s, links, to)))
    requires RecvError(s, mapped, bufSize, bufMapped) == RecvError(s, mapped, bufSize, Landing(s, links, to))
    requires ok <==> RecvError(s, mapped, bufSize, bufMapped) == ENONE
    requires ok ==> Queue(s, Curr(s)) != [] && m == Queue(s, Curr(s))[0]
    requires bufMapped ==> Asked(s, mapped, bufSize) && Delivered(s, links, before, after, low, to)
    requires !bufMapped ==> after == before
    ensures Received(s, t, links, before, after, low, mapped, to, bufSize, ok, m)
  {
    hide Landing, Delivered, Step, Enabled, HeadSender, Core, Counted, SenderFreed, HeadGone, Takes, RecvCode, Offers;
    var e := Recv(mapped, bufSize, Landing(s, links, to));
    CoreFacts(s, mapped, bufSize, links, to);
    CoreTable(s);
    RecvExactly(s, mapped, bufSize, e.bufMapped);
    RecvErrorIs(s, mapped, bufSize, e.bufMapped);
    if ok {
      HeadLess(s, t);
      forall x | Offers(s, 0, x) ensures Counted(s, t, links, before, after, low, to, x) {
        OffersExactly(s, 0, x);
        BytesCounted(s, t, links, before, after, low, to, x);
      }
      if forall x :: !Offers(s, 0, x) {
        OffersExactly(s, 0, HeadSender(s, 0));
        NoneFreed(s, t);
      }
    }
  }

  lemma HeadLess(s: State, t: State)
    requires HeadGone(s, t)
    ensures Queue(t, Curr(s)) == Queue(s, Curr(s))[1..]
  {}

  lemma NoneFreed(s: State, t: State)
    requires SenderFreed(s, t, 0, true) && forall x :: !Offers(s, 0, x)
    ensures t.sched.frame.eax == 0
  {}

  lemma BytesCounted(s: State, t: State, links: Links, before: seq<Bytes>, after: seq<Bytes>, low: Bytes,
                     to: nat, x: Uid)
    requires SenderFreed(s, t, 0, true) && Offers(s, 0, x) && x == HeadSender(s, 0)
    requires Delivered(s, links, before, after, low, to)
    ensures Counted(s, t, links, before, after, low, to, x)
  {
    hide HeadSender, Offers, ThreadAt, Live, Arrived;
  }

  lemma CoreFacts(s: State, mapped: bool, bufSize: nat, links: Links, to: nat)
    requires Core(s) && Enabled(s, Recv(mapped, bufSize, Landing(s, links, to)))
    ensures s.sched.ring != [] && Curr(s).pid in s.procs
    ensures mapped && HeadSender(s, 0) != NOBODY ==> Live(s, HeadSender(s, 0)) && HeadSender(s, 0).pid in s.procs
  {
    CoreStates(s);
    CurrLive(s);
  }
}
