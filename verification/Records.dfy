/** The records of a process's threads in the kernel's memory (kernel/core/multitask/thread.c).  A new
    thread's record is allocated like any range of memory, which clears it to the end of its last page. */
module Records {
  import opened Paging
  import opened Frames
  import opened AddressSpaces
  import opened Payload

  /** Where record `t` of size `n` lies. */
  function RecordAt(base: nat, n: nat, t: nat): nat {
    if t == 0 then base else RecordAt(base, n, t - 1) + n
  }

  lemma {:induction false} RecordsApart(base: nat, n: nat, t: nat, u: nat)
    requires t < u
    ensures RecordAt(base, n, t) + n <= RecordAt(base, n, u)
    decreases u
  {
    if t < u - 1 {
      RecordsApart(base, n, t, u - 1);
    }
  }

  /** Record bytes from address `b` on lie in pages that nothing else refers to. */
  ghost predicate Private(links: Links, counts: seq<nat>, b: nat, n: nat) {
    forall a: nat :: b <= a < b + n ==> PrivateAt(links, counts, a)
  }

  ghost predicate PrivateAt(links: Links, counts: seq<nat>, a: nat) {
    var r := Home(KERNEL, First(a));
    r in links && links[r] < |counts| && counts[links[r]] == 1
  }

  ghost predicate Survives(links: Links, before: seq<Bytes>, now: seq<Bytes>, low: Bytes, b: nat, n: nat) {
    forall a: nat :: b <= a < b + n ==> SameAt(links, before, now, low, a)
  }

  ghost predicate SameAt(links: Links, before: seq<Bytes>, now: seq<Bytes>, low: Bytes, a: nat) {
    Load(now, low, CellOf(links, KERNEL, a)) == Load(before, low, CellOf(links, KERNEL, a))
  }

  /** A private byte is changed only through its own address. */
  lemma OwnAddress(links: Links, counts: seq<nat>, a: nat, b: nat)
    requires Balanced(links, counts, NONE) && PrivateAt(links, counts, a)
    requires CellOf(links, KERNEL, a) == CellOf(links, KERNEL, b)
    ensures a == b
  {
    hide Home, First, Balanced;
    OnlyOne(links, counts, Home(KERNEL, First(a)), Home(KERNEL, First(b)));
    SamePage(KERNEL, a, b);
  }

  /** One byte survives exactly when it lies outside the cleared part or was zero. */
  lemma ByteSurvives(links: Links, counts: seq<nat>, before: seq<Bytes>, now: seq<Bytes>, low: Bytes,
                     virt: nat, limit: nat, a: nat)
    requires Balanced(links, counts, NONE) && PrivateAt(links, counts, a)
    requires Cleared(links, before, now, low, KERNEL, virt, limit)
    ensures SameAt(links, before, now, low, a) <==>
      !Within(virt, limit, a) || Load(before, low, CellOf(links, KERNEL, a)) == 0
  {
    hide Load, CellOf, Balanced, PrivateAt;
    var c := CellOf(links, KERNEL, a);
    if !Within(virt, limit, a) && Load(now, low, c) != Load(before, low, c) {
      assert Reached(links, KERNEL, virt, limit, c);
      var b: nat :| Within(virt, limit, b) && c == CellOf(links, KERNEL, b);
      OwnAddress(links, counts, a, b);
      assert false;
    }
  }

  lemma WithinMeans(virt: nat, limit: nat, a: nat)
    ensures Within(virt, limit, a) <==> virt <= a < limit * PAGE
  {}

  /** Allocating the record of thread `t` leaves the record of another live thread alone exactly when
      that one lies in front of it, or behind the end of its last page.  A record starts with its
      thread's number, so that the first byte behind record `t` is not zero. */
  lemma RecordsSurviveExactly(links: Links, counts: seq<nat>, before: seq<Bytes>, now: seq<Bytes>, low: Bytes,
                              base: nat, n: nat, t: nat, u: nat)
    requires Balanced(links, counts, NONE) && n > 0 && t != u
    requires Cleared(links, before, now, low, KERNEL, RecordAt(base, n, t), Limit(RecordAt(base, n, t), n))
    requires Private(links, counts, RecordAt(base, n, u), n)
    requires u > t ==> Load(before, low, CellOf(links, KERNEL, RecordAt(base, n, u))) != 0
    ensures Survives(links, before, now, low, RecordAt(base, n, u), n) <==>
      u < t || Limit(RecordAt(base, n, t), n) * PAGE <= RecordAt(base, n, u)
  {
    hide RecordAt, Limit, Load, CellOf, Balanced, Cleared, PrivateAt, SameAt, Within;
    var virt, b := RecordAt(base, n, t), RecordAt(base, n, u);
    var limit := Limit(virt, n);
    if u < t {
      RecordsApart(base, n, u, t);
    } else {
      RecordsApart(base, n, t, u);
    }
    forall a: nat | b <= a < b + n
      ensures SameAt(links, before, now, low, a) <==>
        !(virt <= a < limit * PAGE) || Load(before, low, CellOf(links, KERNEL, a)) == 0
    {
      assert PrivateAt(links, counts, a);
      ByteSurvives(links, counts, before, now, low, virt, limit, a);
      WithinMeans(virt, limit, a);
    }
    if Survives(links, before, now, low, b, n) {
      assert SameAt(links, before, now, low, b);
    }
  }

  /** The next record is wiped exactly when it does not start on a page of its own: from the start of
      a page on, this is so for every record size that does not fill its last page. */
  lemma NextRecordIsWiped(base: nat, n: nat, t: nat)
    requires n > 0 && RecordAt(base, n, t) + n < WORD
    ensures RecordAt(base, n, t + 1) < Limit(RecordAt(base, n, t), n) * PAGE <==> RecordAt(base, n, t + 1) % PAGE != 0
    ensures base % PAGE == 0 && t == 0 ==> (RecordAt(base, n, t + 1) % PAGE != 0 <==> n % PAGE != 0)
  {
    var virt := RecordAt(base, n, t);
    EndCases(virt, n);
    RoundUp(virt + n);
    if base % PAGE == 0 && t == 0 {
      AlignedPlus(base, n);
    }
  }

  lemma RoundUp(e: nat)
    ensures e < (e + PAGE - 1) / PAGE * PAGE <==> e % PAGE != 0
  {}

  lemma AlignedPlus(base: nat, n: nat)
    requires base % PAGE == 0
    ensures (base + n) % PAGE == n % PAGE
  {}

  // ----- Allocating a record -----

  /** Record `u` is held by a live thread: nothing else refers to its pages, and its number is there. */
  ghost predicate Held(links: Links, counts: seq<nat>, frames: seq<Bytes>, low: Bytes, base: nat, n: nat, u: nat) {
    && Private(links, counts, RecordAt(base, n, u), n)
    && (u > 0 ==> Load(frames, low, CellOf(links, KERNEL, RecordAt(base, n, u))) != 0)
  }

  /** A private page stays private, and where it is, when other pages get frames. */
  lemma StaysPrivate(before: Links, links: Links, p: Pool, now: seq<nat>, reserved: set<nat>, span: set<Ref>, a: nat)
    requires Sole(before) && Balanced(before, p.counts, NONE) && Sole(links) && Balanced(links, now, NONE)
    requires |now| == |p.counts| && PoolOk(p, reserved) && a < TOP
    requires Filled(Flat(before), Flat(links), span, p.taken) && PrivateAt(before, p.counts, a)
    ensures PrivateAt(links, now, a) && CellOf(links, KERNEL, a) == CellOf(before, KERNEL, a)
  {
    var r := Home(KERNEL, First(a));
    var f := before[r];
    assert r.Page?;
    hide Home, First;
    assert r in Flat(before) && r in Flat(links) && Flat(links)[r] == f;
    CountPositive(Flat(before), r);
    PageFrameCount(before, f);
    CountedIsTaken(p, f, reserved);
    assert RefsTo(Flat(links), f) == RefsTo(Flat(before), f);
    PageFrameCount(links, f);
  }

  lemma StaysHeld(before: Links, links: Links, p: Pool, now: seq<nat>, reserved: set<nat>, span: set<Ref>,
                  frames: seq<Bytes>, after: seq<Bytes>, low: Bytes, b: nat, n: nat)
    requires Sole(before) && Balanced(before, p.counts, NONE) && Sole(links) && Balanced(links, now, NONE)
    requires |now| == |p.counts| && PoolOk(p, reserved) && b + n <= TOP
    requires Filled(Flat(before), Flat(links), span, p.taken) && Private(before, p.counts, b, n)
    ensures Private(links, now, b, n) && (n > 0 ==> CellOf(links, KERNEL, b) == CellOf(before, KERNEL, b))
    ensures Survives(links, frames, after, low, b, n) <==> Survives(before, frames, after, low, b, n)
  {
    hide Sole, Balanced, PoolOk, Filled, PrivateAt, CellOf, Load, Flat;
    forall a: nat | b <= a < b + n
      ensures PrivateAt(links, now, a) && CellOf(links, KERNEL, a) == CellOf(before, KERNEL, a)
      ensures SameAt(links, frames, after, low, a) <==> SameAt(before, frames, after, low, a)
    {
      assert PrivateAt(before, p.counts, a);
      StaysPrivate(before, links, p, now, reserved, span, a);
    }
  }

  lemma RecordRanged(base: nat, n: nat, t: nat, count: nat)
    requires t < count && n > 0 && RecordAt(base, n, count) <= TOP
    ensures RecordAt(base, n, t) + n <= TOP && Ranged(RecordAt(base, n, t), n)
  {
    RecordsApart(base, n, t, count);
    EndCases(RecordAt(base, n, t), n);
  }

  /** What a new record `t` does to record `u`. */
  ghost predicate Spared(links: Links, before: seq<Bytes>, now: seq<Bytes>, low: Bytes,
                         base: nat, n: nat, t: nat, u: nat) {
    Survives(links, before, now, low, RecordAt(base, n, u), n) <==>
      u < t || Limit(RecordAt(base, n, t), n) * PAGE <= RecordAt(base, n, u)
  }

  /** The memory of record `t` of `count`: every other record that is held survives exactly when it
      lies in front, or behind the last page. */
  method NewRecord(mem: Spaces, ram: Ram, base: nat, n: nat, t: nat, ghost count: nat) returns (ok: bool)
    requires mem.Valid() && ram.Shaped(mem.pool.counts.Length) && ram !in mem.pool.Footprint()
    requires t < count && n > 0 && RecordAt(base, n, count) <= TOP
    modifies mem, mem.pool.Footprint(), ram
    ensures ok <==>
      Need(old(mem.links).Keys, Span(KERNEL, First(RecordAt(base, n, t)), Limit(RecordAt(base, n, t), n)))
        <= old(Avail(mem.pool.View()))
    ensures !ok ==> mem.pool.View().empty
    ensures ok ==> mem.Valid() && mem.spaces == old(mem.spaces) && ram.Shaped(mem.pool.counts.Length)
    ensures ok ==> Cleared(mem.links, old(ram.frames), ram.frames, ram.low, KERNEL, RecordAt(base, n, t),
                           Limit(RecordAt(base, n, t), n))
    ensures ok ==>
      forall u: nat | u < count && u != t && Held(old(mem.links), old(mem.pool.View().counts), old(ram.frames),
                                                 ram.low, base, n, u) ::
        Spared(old(mem.links), old(ram.frames), ram.frames, ram.low, base, n, t, u)
  {
    hide MemoryOk, FramePool.Valid, FramePool.View, PoolOk, RecordAt, Limit, First, Filled, Cleared, Need, Avail, Held,
      Spared, Sole, Balanced, Flat;
    RecordRanged(base, n, t, count);
    mem.Known();
    MemoryParts(mem);
    var virt := RecordAt(base, n, t);
    ghost var links, p, span := mem.links, mem.pool.View(), Span(KERNEL, First(virt), Limit(virt, n));
    ok := AllocCleared(mem, ram, KERNEL, virt, n);
    if ok {
      MemoryParts(mem);
      forall u: nat | u < count && u != t && Held(links, p.counts, old(ram.frames), ram.low, base, n, u)
        ensures Spared(links, old(ram.frames), ram.frames, ram.low, base, n, t, u)
      {
        SparedExactly(links, mem.links, p, mem.pool.View().counts, mem.pool.reserved, span,
                      old(ram.frames), ram.frames, ram.low, base, n, t, u, count);
      }
    }
  }

  lemma MemoryParts(mem: Spaces)
    requires mem.Valid()
    ensures Sole(mem.links) && Balanced(mem.links, mem.pool.View().counts, NONE)
    ensures |mem.pool.View().counts| == mem.pool.counts.Length
  {}

  lemma SparedExactly(before: Links, links: Links, p: Pool, now: seq<nat>, reserved: set<nat>, span: set<Ref>,
                      frames: seq<Bytes>, after: seq<Bytes>, low: Bytes, base: nat, n: nat, t: nat, u: nat, count: nat)
    requires Sole(before) && Balanced(before, p.counts, NONE) && Sole(links) && Balanced(links, now, NONE)
    requires |now| == |p.counts| && PoolOk(p, reserved) && Filled(Flat(before), Flat(links), span, p.taken)
    requires u < count && t != u && n > 0 && RecordAt(base, n, count) <= TOP
    requires Cleared(links, frames, after, low, KERNEL, RecordAt(base, n, t), Limit(RecordAt(base, n, t), n))
    requires Held(before, p.counts, frames, low, base, n, u)
    ensures Spared(before, frames, after, low, base, n, t, u)
  {
    hide RecordAt, Limit, Sole, Balanced, PoolOk, Filled, Cleared, Private, Survives, CellOf, Load, Flat;
    RecordRanged(base, n, u, count);
    StaysHeld(before, links, p, now, reserved, span, frames, after, low, RecordAt(base, n, u), n);
    RecordsSurviveExactly(links, now, frames, after, low, base, n, t, u);
  }
}
