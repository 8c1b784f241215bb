/** Reference-counted physical frames (kernel/core/memory/physical.c). */
module Frames {
  import opened BmStacks
  import Bitmaps

  const COUNT_MAX := 255

  /** `taken` are the frames that cannot be allocated; `counts` the reference counts;
      `empty` says that the allocator's list has run out. */
  datatype Pool = Pool(taken: set<nat>, counts: seq<nat>, empty: bool)

  function Taken(p: Pool, f: nat): Pool
    requires f < |p.counts|
  {
    var taken := p.taken + {f};
    Pool(taken, p.counts[f := 1], p.empty || Exhausted(taken, |p.counts|))
  }

  function Retained(p: Pool, f: nat): Pool
    requires f < |p.counts|
  {
    if p.counts[f] == 0 then p else p.(counts := p.counts[f := p.counts[f] + 1])
  }

  function Released(p: Pool, f: nat): Pool
    requires f < |p.counts|
  {
    if p.counts[f] == 0 then p
    else p.(counts := p.counts[f := p.counts[f] - 1], taken := if p.counts[f] == 1 then p.taken - {f} else p.taken)
  }

  predicate Exhausted(taken: set<nat>, n: nat) {
    forall f: nat :: f < n ==> f in taken
  }

  /** A frame is taken exactly when it is reserved or referenced. */
  ghost predicate PoolOk(p: Pool, reserved: set<nat>) {
    && (forall f: nat :: f < |p.counts| ==> (f in p.taken <==> f in reserved || p.counts[f] > 0))
    && (forall f: nat :: f < |p.counts| && f in reserved ==> p.counts[f] == 0)
    && (forall f: nat :: f < |p.counts| ==> p.counts[f] <= COUNT_MAX)
  }

  /** The frames that are not taken. */
  ghost function Free(p: Pool): set<nat> {
    set f: nat | f < |p.counts| && f !in p.taken
  }

  /** How many frames can still be handed out. */
  ghost function Avail(p: Pool): nat {
    if p.empty then 0 else |Free(p)|
  }

  lemma TakenAvail(p: Pool, f: nat)
    requires f < |p.counts| && f !in p.taken && !p.empty
    ensures Avail(p) > 0 && Avail(Taken(p, f)) == Avail(p) - 1
  {
    var q := Taken(p, f);
    assert f in Free(p) && Free(q) == Free(p) - {f};
    if Exhausted(q.taken, |q.counts|) {
      assert Free(q) == {};
    } else {
      assert !q.empty;
    }
  }

  lemma RetainedAvail(p: Pool, f: nat)
    requires f < |p.counts|
    ensures Avail(Retained(p, f)) == Avail(p)
  {
    assert Free(Retained(p, f)) == Free(p);
  }

  // ----- Runs of the allocator -----

  datatype Request = Alloc(frame: nat) | Retain(frame: nat) | Release(frame: nat)

  predicate Granted(p: Pool, r: Request) {
    && r.frame < |p.counts|
    && match r
       case Alloc(f) => f !in p.taken && !p.empty
       case Retain(f) => p.counts[f] < COUNT_MAX
       case Release(_) => true
  }

  function Served(p: Pool, r: Request): Pool
    requires Granted(p, r)
  {
    match r
    case Alloc(f) => Taken(p, f)
    case Retain(f) => Retained(p, f)
    case Release(f) => Released(p, f)
  }

  ghost predicate AllGranted(p: Pool, rs: seq<Request>)
    decreases |rs|
  {
    rs == [] || (Granted(p, rs[0]) && AllGranted(Served(p, rs[0]), rs[1..]))
  }

  ghost function AllServed(p: Pool, rs: seq<Request>): Pool
    requires AllGranted(p, rs)
    decreases |rs|
  {
    if rs == [] then p else AllServed(Served(p, rs[0]), rs[1..])
  }

  lemma ServedKeepsPool(p: Pool, r: Request, reserved: set<nat>)
    requires PoolOk(p, reserved) && Granted(p, r)
    ensures PoolOk(Served(p, r), reserved) && |Served(p, r).counts| == |p.counts|
  {}

  lemma {:induction false} RunKeepsPool(p: Pool, rs: seq<Request>, reserved: set<nat>)
    requires PoolOk(p, reserved) && AllGranted(p, rs)
    ensures PoolOk(AllServed(p, rs), reserved)
    decreases |rs|
  {
    if rs != [] {
      ServedKeepsPool(p, rs[0], reserved);
      RunKeepsPool(Served(p, rs[0]), rs[1..], reserved);
    }
  }

  /** Some prefix of the run leaves no frame free. */
  ghost predicate RunsDry(p: Pool, rs: seq<Request>)
    requires AllGranted(p, rs)
    decreases |rs|
  {
    Exhausted(p.taken, |p.counts|) || (rs != [] && RunsDry(Served(p, rs[0]), rs[1..]))
  }

  lemma {:induction false} EmptyStays(p: Pool, rs: seq<Request>)
    requires AllGranted(p, rs) && p.empty
    ensures AllServed(p, rs).empty
    decreases |rs|
  {
    if rs != [] {
      EmptyStays(Served(p, rs[0]), rs[1..]);
    }
  }

  /** After a run, the allocator is out of frames exactly when at some moment of the run
      every frame was taken: frames released since then are never handed out again. */
  lemma {:induction false} OutOfFramesExactly(p: Pool, rs: seq<Request>)
    requires AllGranted(p, rs) && p.empty == Exhausted(p.taken, |p.counts|)
    ensures AllServed(p, rs).empty <==> RunsDry(p, rs)
    decreases |rs|
  {
    if p.empty {
      EmptyStays(p, rs);
    } else if rs != [] {
      var q := Served(p, rs[0]);
      StillSomeFree(p, rs[0]);
      OutOfFramesExactly(q, rs[1..]);
    }
  }

  lemma StillSomeFree(p: Pool, r: Request)
    requires Granted(p, r) && !p.empty && !Exhausted(p.taken, |p.counts|)
    ensures Served(p, r).empty == Exhausted(Served(p, r).taken, |Served(p, r).counts|)
  {
    if !r.Alloc? {
      var f: nat :| f < |p.counts| && f !in p.taken;
      assert f !in Served(p, r).taken;
    }
  }

  predicate Unusable(f: nat) {
    f != 0
  }

  /** Of thirty-two frames, all but the first are reserved. */
  function ThirtyOne(): set<nat> {
    set f: nat | f < 32 && Unusable(f)
  }

  /** The one usable frame of a pool, taken and released: it is free again, but the allocator does
      not see it. */
  lemma FreeButLost()
    ensures
      var p, rs := Pool(ThirtyOne(), seq(32, _ => 0), false), [Alloc(0), Release(0)];
      && PoolOk(p, ThirtyOne()) && |p.counts| == Bitmaps.BITS && !Exhausted(p.taken, 32)
      && AllGranted(p, rs) && 0 !in AllServed(p, rs).taken && AllServed(p, rs).empty
  {
    var p := Pool(ThirtyOne(), seq(32, _ => 0), false);
    assert 0 !in p.taken;
    var q := Served(p, Alloc(0));
    assert q.empty && q.counts[0] == 1 && 0 in q.taken;
    var r := Served(q, Release(0));
    assert [Alloc(0), Release(0)][1..] == [Release(0)] && [Release(0)][1..] == [];
    assert AllGranted(r, []);
    assert AllGranted(q, [Release(0)]) && AllServed(q, [Release(0)]) == r;
  }

  // ----- The allocator -----

  /** A map in which the frames outside usable memory are set. */
  method MarkReserved(usable: seq<bool>) returns (bits: BmStack)
    requires |usable| % Bitmaps.BITS == 0
    ensures fresh(bits) && fresh(bits.base) && bits.Valid() && bits.head == NULL
    ensures Bitmaps.BITS * bits.base.Length == |usable|
    ensures bits.View() == set f: nat | f < |usable| && !usable[f]
  {
    bits := new BmStack(|usable|);
    for i := 0 to |usable|
      invariant bits.Valid() && bits.head == NULL && fresh(bits) && fresh(bits.base)
      invariant bits.View() == set f: nat | f < i && !usable[f]
    {
      if !usable[i] {
        bits.Set(i);
      }
    }
  }

  class FramePool {
    const map_: BmStack
    const counts: array<nat>
    ghost const reserved: set<nat>

    ghost function Footprint(): set<object> {
      {map_, map_.base, counts}
    }

    ghost predicate Valid()
      reads Footprint()
    {
      && map_.Valid() && Bitmaps.BITS * map_.base.Length == counts.Length
      && PoolOk(View(), reserved)
    }

    ghost function View(): Pool
      reads Footprint()
    {
      Pool(map_.View(), counts[..], map_.head == NULL)
    }

    /** As long as the list is not empty there is a frame to hand out. */
    lemma RoomLeft()
      requires Valid()
      ensures Avail(View()) == 0 <==> View().empty
    {
      if map_.head != NULL {
        ListEmpty(map_.base[..], map_.head, map_.list);
        AllSetMeansEverything(map_.base[..]);
        var f: nat :| f < counts.Length && f !in map_.View();
        assert f in Free(View());
      }
    }

    /** Frames outside usable memory are marked as used, without a count. */
    constructor (usable: seq<bool>)
      requires |usable| % Bitmaps.BITS == 0
      ensures Valid() && fresh(Footprint())
      ensures reserved == set f: nat | f < |usable| && !usable[f]
      ensures View() == Pool(reserved, seq(|usable|, _ => 0), Exhausted(reserved, |usable|))
    {
      var bits := MarkReserved(usable);
      bits.Link();
      AllSetMeansEverything(bits.base[..]);
      map_ := bits;
      counts := new nat[|usable|](_ => 0);
      reserved := set f: nat | f < |usable| && !usable[f];
      new;
      assert counts[..] == seq(|usable|, _ => 0);
    }

    method Alloc() returns (f: nat)
      requires Valid() && !View().empty
      modifies Footprint()
      ensures Valid() && f < counts.Length && f !in old(View()).taken
      ensures View() == Taken(old(View()), f)
    {
      var index := map_.FindAndSet();
      AllSetMeansEverything(map_.base[..]);
      counts[index] := 1;
      f := index;
    }

    method Retain(f: nat)
      requires Valid() && f < counts.Length && counts[f] < COUNT_MAX
      modifies Footprint()
      ensures Valid() && View() == Retained(old(View()), f)
    {
      if counts[f] == 0 {
        return;
      }
      counts[f] := counts[f] + 1;
    }

    method Release(f: nat) returns (freed: bool)
      requires Valid() && f < counts.Length
      modifies Footprint()
      ensures Valid() && View() == Released(old(View()), f)
      ensures freed <==> old(View()).counts[f] == 1
    {
      if counts[f] == 0 {
        return false;
      }
      counts[f] := counts[f] - 1;
      if counts[f] != 0 {
        return false;
      }
      map_.Clear(f);
      freed := true;
    }
  }
}
