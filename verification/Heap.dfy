/** The user heap (lib/libh/src/malloc): blocks with a size word in front, laid end to end.

    Memory is a map from addresses to 32-bit words, at multiples of four.  The lowest bit of a
    size word says that its block is in use. */
module Heaps {
  const HEADER := 8
  const ALIGNMENT := 8
  const PAGE := 4096
  const WORD := 0x1_0000_0000
  const USER_END := 0xC000_0000

  type Memory = map<nat, nat>

  function At(mem: Memory, a: nat): nat {
    if a in mem then mem[a] else 0
  }

  predicate Aligned(n: nat) {
    n % ALIGNMENT == 0
  }

  predicate WordAligned(a: nat) {
    a % 4 == 0
  }

  predicate Flagged(w: nat) {
    w % 2 == 1
  }

  function Unflagged(w: nat): nat {
    w - w % 2
  }

  lemma FlagRoundTrip(size: nat)
    requires Aligned(size)
    ensures !Flagged(size) && Unflagged(size) == size
    ensures Flagged(size + 1) && Unflagged(size + 1) == size
  {
    EvenFlag(size, 4 * (size / ALIGNMENT));
  }

  lemma EvenFlag(n: nat, half: nat)
    requires n == 2 * half
    ensures n % 2 == 0 && (n + 1) % 2 == 1
  {}

  lemma AlignedSums(a: nat, b: nat)
    requires Aligned(a) && Aligned(b)
    ensures Aligned(a + b) && (a >= b ==> Aligned(a - b)) && WordAligned(a) && (a > 0 ==> a >= ALIGNMENT)
  {}

  lemma UnflaggedSame(w: nat)
    ensures Unflagged(w) <= w && (!Flagged(w) ==> Unflagged(w) == w)
  {}

  /** The block size for a request, in 32-bit arithmetic. */
  function BlockSize(size: nat): (block: nat)
    ensures Aligned(block) && block < WORD
  {
    var wanted := ((size + HEADER) % WORD + ALIGNMENT - 1) % WORD;
    wanted - wanted % ALIGNMENT
  }

  /** A block of the computed size holds the request exactly when the sum does not wrap around. */
  lemma RoomExactly(size: nat)
    requires size < WORD
    ensures size + HEADER <= BlockSize(size) <==> size + HEADER + ALIGNMENT - 1 < WORD
    ensures BlockSize(size) < size + HEADER + ALIGNMENT
    ensures size + HEADER + ALIGNMENT - 1 >= WORD ==> BlockSize(size) == 0 || BlockSize(size) == HEADER
  {}

  // ----- Blocks -----

  function SizeAt(mem: Memory, h: nat): nat {
    Unflagged(At(mem, h))
  }

  predicate Used(mem: Memory, h: nat) {
    Flagged(At(mem, h))
  }

  /** Block `i` lies between two marks, with its size in front. */
  predicate Tile(mem: Memory, marks: seq<nat>, i: nat)
    requires i + 1 < |marks|
  {
    && marks[i] + HEADER <= marks[i + 1] && marks[i] in mem
    && SizeAt(mem, marks[i]) == marks[i + 1] - marks[i]
  }

  /** The marks run from bottom to top without a step back. */
  ghost predicate Ladder(base: nat, top: nat, marks: seq<nat>) {
    && |marks| > 0 && marks[0] == base && marks[|marks| - 1] == top
    && (forall i :: 0 <= i < |marks| ==> Aligned(marks[i]))
    && (forall i, j :: 0 <= i < j < |marks| ==> marks[i] < marks[j])
  }

  /** The blocks tile the heap. */
  ghost predicate Tiled(base: nat, top: nat, mem: Memory, marks: seq<nat>) {
    && Ladder(base, top, marks)
    && (forall i: nat :: i + 1 < |marks| ==> Tile(mem, marks, i))
    && (forall a: nat :: base <= a < top && WordAligned(a) ==> a in mem)
  }

  /** The headers of the blocks in use. */
  ghost function InUse(top: nat, mem: Memory, marks: seq<nat>): set<nat> {
    set h | h in marks && h < top && Used(mem, h)
  }

  /** Header and contents of the block at `h` are what they were. */
  ghost predicate Untouched(mem: Memory, after: Memory, h: nat) {
    forall a: nat :: h <= a < h + SizeAt(mem, h) ==> At(after, a) == At(mem, a)
  }

  /** Blocks do not overlap. */
  lemma Disjoint(base: nat, top: nat, mem: Memory, marks: seq<nat>, i: nat, j: nat)
    requires Tiled(base, top, mem, marks) && i < j && j + 1 < |marks|
    ensures marks[i] + SizeAt(mem, marks[i]) <= marks[j] < marks[j] + SizeAt(mem, marks[j]) <= top
  {
    hide SizeAt, Aligned, WordAligned;
    assert Tile(mem, marks, i) && Tile(mem, marks, j);
  }

  // ----- Taking a block -----

  /** Mark the free block at `h` as used, cutting off what `block` leaves over. */
  function Place(mem: Memory, h: nat, block: nat): Memory
    requires block <= At(mem, h)
  {
    if Cuts(mem, h, block) then mem[h + block := At(mem, h) - block][h := block + 1] else mem[h := At(mem, h) + 1]
  }

  predicate Cuts(mem: Memory, h: nat, block: nat) {
    At(mem, h) - block >= 2 * ALIGNMENT
  }

  /** What placing a block writes. */
  lemma PlaceEffect(mem: Memory, h: nat, block: nat)
    requires h in mem && Aligned(At(mem, h)) && Aligned(block) && 0 < block <= At(mem, h)
    ensures
      var after := Place(mem, h, block);
      && SizeAt(after, h) == (if Cuts(mem, h, block) then block else SizeAt(mem, h)) && Used(after, h)
      && (Cuts(mem, h, block) ==>
            h + block in after && SizeAt(after, h + block) == SizeAt(mem, h) - block && !Used(after, h + block))
      && (forall a: nat :: a != h && (Cuts(mem, h, block) ==> a != h + block) ==> At(after, a) == At(mem, a))
      && (forall a :: a in mem ==> a in after)
  {
    FlagRoundTrip(block);
    FlagRoundTrip(At(mem, h));
    AlignedSums(At(mem, h), block);
    FlagRoundTrip(At(mem, h) - block);
    hide Aligned, Flagged, Unflagged;
  }

  function Cut(marks: seq<nat>, i: nat, block: nat): (r: seq<nat>)
    requires i < |marks|
    ensures |r| == |marks| + 1 && r[i + 1] == marks[i] + block
    ensures forall k :: 0 <= k <= i ==> r[k] == marks[k]
    ensures forall k :: i + 1 < k < |r| ==> r[k] == marks[k - 1]
  {
    marks[..i + 1] + [marks[i] + block] + marks[i + 1..]
  }

  lemma CutLadder(base: nat, top: nat, marks: seq<nat>, i: nat, block: nat)
    requires Ladder(base, top, marks) && i + 1 < |marks| && Aligned(block) && 0 < block < marks[i + 1] - marks[i]
    ensures Ladder(base, top, Cut(marks, i, block))
  {
    AlignedSums(marks[i], block);
    hide Cut, Aligned;
  }

  lemma SameTile(mem: Memory, after: Memory, marks: seq<nat>, i: nat, now: seq<nat>, k: nat)
    requires i + 1 < |marks| && k + 1 < |now| && now[k] == marks[i] && now[k + 1] == marks[i + 1]
    requires Tile(mem, marks, i) && At(after, marks[i]) == At(mem, marks[i]) && marks[i] in after
    ensures Tile(after, now, k) && Used(after, now[k]) == Used(mem, marks[i])
  {}

  ghost predicate CanCut(base: nat, top: nat, mem: Memory, marks: seq<nat>, i: nat, block: nat) {
    && Tiled(base, top, mem, marks) && i + 1 < |marks| && !Used(mem, marks[i])
    && 0 < block && Aligned(block) && Cuts(mem, marks[i], block)
  }

  /** The blocks around a cut stay as they are. */
  lemma CutAround(base: nat, top: nat, mem: Memory, marks: seq<nat>, i: nat, block: nat, k: nat)
    requires CanCut(base, top, mem, marks, i, block) && k + 1 < |marks| && k != i
    ensures
      var after, now, m := Place(mem, marks[i], block), Cut(marks, i, block), if k < i then k else k + 1;
      Tile(after, now, m) && now[m] == marks[k] && Used(after, now[m]) == Used(mem, marks[k])
  {
    hide Cut, Place, SizeAt, Used, Aligned, WordAligned;
    var h := marks[i];
    assert Tile(mem, marks, i) && Tile(mem, marks, k);
    FreeSize(mem, marks, i);
    PlaceEffect(mem, h, block);
    SameTile(mem, Place(mem, h, block), marks, k, Cut(marks, i, block), if k < i then k else k + 1);
  }

  /** Cutting a free block leaves a used one and a free one. */
  lemma CutPieces(base: nat, top: nat, mem: Memory, marks: seq<nat>, i: nat, block: nat)
    requires CanCut(base, top, mem, marks, i, block)
    ensures
      var after, now := Place(mem, marks[i], block), Cut(marks, i, block);
      && Tile(after, now, i) && Used(after, now[i]) && Tile(after, now, i + 1) && !Used(after, now[i + 1])
      && Ladder(base, top, now)
      && forall a :: a in mem ==> a in after
  {
    hide Cut, Place, SizeAt, Used, Aligned, WordAligned;
    assert Tile(mem, marks, i);
    FreeSize(mem, marks, i);
    PlaceEffect(mem, marks[i], block);
    AlignedSums(block, block);
    CutLadder(base, top, marks, i, block);
  }

  lemma CutTiles(base: nat, top: nat, mem: Memory, marks: seq<nat>, i: nat, block: nat)
    requires CanCut(base, top, mem, marks, i, block)
    ensures Tiled(base, top, Place(mem, marks[i], block), Cut(marks, i, block))
  {
    CutPieces(base, top, mem, marks, i, block);
    hide Cut, Place, Tile, Aligned, WordAligned;
    var after, now := Place(mem, marks[i], block), Cut(marks, i, block);
    forall k: nat | k + 1 < |now| ensures Tile(after, now, k) {
      if k < i {
        CutAround(base, top, mem, marks, i, block, k);
      } else if k > i + 1 {
        CutAround(base, top, mem, marks, i, block, k - 1);
      }
    }
  }

  lemma CutMembers(marks: seq<nat>, i: nat, block: nat)
    requires i < |marks|
    ensures forall h :: h in Cut(marks, i, block) <==> h in marks || h == marks[i] + block
  {
    assert marks == marks[..i + 1] + marks[i + 1..];
  }

  lemma CutInUse(base: nat, top: nat, mem: Memory, marks: seq<nat>, i: nat, block: nat)
    requires CanCut(base, top, mem, marks, i, block)
    ensures InUse(top, Place(mem, marks[i], block), Cut(marks, i, block)) == InUse(top, mem, marks) + {marks[i]}
  {
    assert Tile(mem, marks, i);
    FreeSize(mem, marks, i);
    PlaceEffect(mem, marks[i], block);
    CutMembers(marks, i, block);
    NotAMark(base, top, marks, i, block);
    hide Cut, Place, Tile, Aligned, Tiled, Flagged;
  }

  /** Nothing starts in the middle of a block. */
  lemma NotAMark(base: nat, top: nat, marks: seq<nat>, i: nat, block: nat)
    requires Ladder(base, top, marks) && i + 1 < |marks| && 0 < block < marks[i + 1] - marks[i]
    ensures marks[i] + block !in marks && marks[i] < top
  {
    hide Aligned;
  }

  lemma FreeSize(mem: Memory, marks: seq<nat>, i: nat)
    requires i + 1 < |marks| && Tile(mem, marks, i) && !Used(mem, marks[i])
      && Aligned(marks[i]) && Aligned(marks[i + 1])
    ensures At(mem, marks[i]) == SizeAt(mem, marks[i]) && Aligned(At(mem, marks[i]))
  {
    AlignedSums(marks[i + 1], marks[i]);
    UnflaggedSame(At(mem, marks[i]));
  }

  /** A block that is taken whole stays where it is. */
  lemma WholeTiles(base: nat, top: nat, mem: Memory, marks: seq<nat>, i: nat, block: nat)
    requires Tiled(base, top, mem, marks) && i + 1 < |marks| && !Used(mem, marks[i])
    requires 0 < block <= At(mem, marks[i]) && Aligned(block) && !Cuts(mem, marks[i], block)
    ensures Tiled(base, top, Place(mem, marks[i], block), marks)
    ensures InUse(top, Place(mem, marks[i], block), marks) == InUse(top, mem, marks) + {marks[i]}
  {
    hide Place, SizeAt, Aligned, WordAligned, Flagged;
    assert Tile(mem, marks, i);
    FreeSize(mem, marks, i);
    PlaceEffect(mem, marks[i], block);
    var after := Place(mem, marks[i], block);
    forall k: nat | k + 1 < |marks| ensures Tile(after, marks, k) {
      assert Tile(mem, marks, k);
      if k != i {
        SameTile(mem, after, marks, k, marks, k);
      }
    }
  }

  function PlaceMarks(mem: Memory, marks: seq<nat>, i: nat, block: nat): seq<nat>
    requires i < |marks|
  {
    if Cuts(mem, marks[i], block) then Cut(marks, i, block) else marks
  }

  /** Placing a block in a free one keeps the tiling and disturbs no block in use. */
  lemma PlaceKeeps(base: nat, top: nat, mem: Memory, marks: seq<nat>, i: nat, block: nat)
    requires Tiled(base, top, mem, marks) && i + 1 < |marks| && !Used(mem, marks[i])
    requires 0 < block <= At(mem, marks[i]) && Aligned(block)
    ensures
      var after, now := Place(mem, marks[i], block), PlaceMarks(mem, marks, i, block);
      && Tiled(base, top, after, now) && InUse(top, after, now) == InUse(top, mem, marks) + {marks[i]}
      && block <= SizeAt(after, marks[i])
      && (forall h :: h in InUse(top, mem, marks) ==> Untouched(mem, after, h))
  {
    assert Tile(mem, marks, i);
    FreeSize(mem, marks, i);
    PlaceEffect(mem, marks[i], block);
    var after := Place(mem, marks[i], block);
    forall h | h in InUse(top, mem, marks) ensures Untouched(mem, after, h) {
      OtherBlock(base, top, mem, marks, i, h);
    }
    hide Place, SizeAt, Aligned, WordAligned, Flagged, Tile, InUse, Untouched, Cut;
    if Cuts(mem, marks[i], block) {
      CutTiles(base, top, mem, marks, i, block);
      CutInUse(base, top, mem, marks, i, block);
    } else {
      WholeTiles(base, top, mem, marks, i, block);
    }
  }

  /** A block in use does not reach into another block. */
  lemma OtherBlock(base: nat, top: nat, mem: Memory, marks: seq<nat>, i: nat, h: nat)
    requires Tiled(base, top, mem, marks) && i + 1 < |marks| && h in InUse(top, mem, marks) && h != marks[i]
    ensures h + SizeAt(mem, h) <= marks[i] || marks[i + 1] <= h
  {
    hide SizeAt, Aligned, WordAligned, Used;
    var k :| 0 <= k < |marks| && marks[k] == h;
    assert k + 1 < |marks|;
    assert Tile(mem, marks, k);
  }

  // ----- A block of no size -----

  /** Only the largest requests get a block of no size: the sum wraps around. */
  lemma BlockSizeZero(size: nat)
    requires size < WORD
    ensures BlockSize(size) == 0 <==> WORD - 15 <= size <= WORD - 8
  {}

  /** What a block of no size does to the free block at `h`: cut, it keeps no size. */
  lemma ZeroEffect(mem: Memory, h: nat)
    requires h in mem && Aligned(At(mem, h))
    ensures Cuts(mem, h, 0) ==> SizeAt(Place(mem, h, 0), h) == 0 && Used(Place(mem, h, 0), h)
    ensures forall a: nat :: a != h ==> At(Place(mem, h, 0), a) == At(mem, a)
    ensures !Cuts(mem, h, 0) ==> Place(mem, h, 0) == Place(mem, h, At(mem, h)) && !Cuts(mem, h, At(mem, h))
  {
    FlagRoundTrip(0);
  }

  /** The header that a walk from `h` is at after `n` blocks. */
  function Stepped(mem: Memory, h: nat, n: nat): nat
    decreases n
  {
    if n == 0 then h else Stepped(mem, h, n - 1) + SizeAt(mem, Stepped(mem, h, n - 1))
  }

  /** A walk over a tiled heap passes all its marks. */
  lemma {:induction false} WalkPasses(base: nat, top: nat, mem: Memory, marks: seq<nat>, n: nat)
    requires Tiled(base, top, mem, marks) && n < |marks|
    ensures Stepped(mem, base, n) == marks[n]
  {
    hide SizeAt, Aligned, WordAligned;
    if n > 0 {
      WalkPasses(base, top, mem, marks, n - 1);
      assert Tile(mem, marks, n - 1);
    }
  }

  /** Two memories with the same sizes in front of a block lead to it alike. */
  lemma {:induction false} SameSteps(base: nat, top: nat, mem: Memory, marks: seq<nat>, after: Memory, i: nat, n: nat)
    requires Tiled(base, top, mem, marks) && i < |marks| && n <= i
    requires forall a: nat :: a != marks[i] ==> At(after, a) == At(mem, a)
    ensures Stepped(after, base, n) == marks[n]
  {
    hide SizeAt, Aligned, WordAligned, At;
    if n > 0 {
      SameSteps(base, top, mem, marks, after, i, n - 1);
      assert Tile(mem, marks, n - 1);
      SameSize(mem, after, marks[n - 1]);
    }
  }

  /** From a block of no size the walk does not get on. */
  lemma {:induction false} Stands(mem: Memory, base: nat, i: nat, n: nat)
    requires i <= n && SizeAt(mem, Stepped(mem, base, i)) == 0
    ensures Stepped(mem, base, n) == Stepped(mem, base, i)
    decreases n
  {
    hide SizeAt;
    if n > i {
      Stands(mem, base, i, n - 1);
    }
  }

  /** A cut at nothing stops every walk there, and no marks tile such a heap. */
  lemma ZeroCutBreaks(base: nat, top: nat, mem: Memory, marks: seq<nat>, i: nat, now: seq<nat>)
    requires Tiled(base, top, mem, marks) && i + 1 < |marks| && !Used(mem, marks[i]) && Cuts(mem, marks[i], 0)
    ensures forall n: nat :: i <= n ==> Stepped(Place(mem, marks[i], 0), base, n) == marks[i]
    ensures !Tiled(base, top, Place(mem, marks[i], 0), now)
  {
    hide SizeAt, Aligned, WordAligned, Place, Used, At;
    var after := Place(mem, marks[i], 0);
    assert Tile(mem, marks, i);
    FreeSize(mem, marks, i);
    ZeroEffect(mem, marks[i]);
    SameSteps(base, top, mem, marks, after, i, i);
    forall n: nat | i <= n ensures Stepped(after, base, n) == marks[i] {
      Stands(after, base, i, n);
    }
    if Tiled(base, top, after, now) {
      LastIsTop(base, top, marks, i);
      Beyond(base, top, after, now, i + |now|);
      assert false;
    }
  }

  /** Past its end a walk never comes back. */
  lemma {:induction false} Beyond(base: nat, top: nat, mem: Memory, marks: seq<nat>, n: nat)
    requires Tiled(base, top, mem, marks) && |marks| - 1 <= n
    ensures Stepped(mem, base, n) >= top
    decreases n
  {
    hide SizeAt, Aligned, WordAligned;
    if n == |marks| - 1 {
      WalkPasses(base, top, mem, marks, n);
    } else {
      Beyond(base, top, mem, marks, n - 1);
    }
  }

  /** Taken whole instead, a block stays in its place whatever the request. */
  lemma ZeroWhole(base: nat, top: nat, mem: Memory, marks: seq<nat>, i: nat)
    requires Tiled(base, top, mem, marks) && i + 1 < |marks| && !Used(mem, marks[i]) && !Cuts(mem, marks[i], 0)
    ensures At(mem, marks[i]) > 0 && Aligned(At(mem, marks[i]))
    ensures Place(mem, marks[i], 0) == Place(mem, marks[i], At(mem, marks[i]))
      && !Cuts(mem, marks[i], At(mem, marks[i]))
  {
    assert Tile(mem, marks, i);
    FreeSize(mem, marks, i);
    ZeroEffect(mem, marks[i]);
  }

  // ----- Giving a block back -----

  /** Clear the flag, and swallow the next block if it is free. */
  function Freed(mem: Memory, h: nat, top: nat): Memory {
    var size := SizeAt(mem, h);
    var cleared := mem[h := size];
    if h + size < top && !Used(cleared, h + size) then cleared[h := size + At(cleared, h + size)] else cleared
  }

  predicate Merges(mem: Memory, h: nat, top: nat) {
    h + SizeAt(mem, h) < top && !Used(mem, h + SizeAt(mem, h))
  }

  function Joined(marks: seq<nat>, i: nat): (r: seq<nat>)
    requires i + 2 < |marks|
    ensures |r| == |marks| - 1
    ensures forall k :: 0 <= k <= i ==> r[k] == marks[k]
    ensures forall k :: i < k < |r| ==> r[k] == marks[k + 1]
  {
    marks[..i + 1] + marks[i + 2..]
  }

  lemma FreedEffect(mem: Memory, marks: seq<nat>, i: nat, top: nat)
    requires i + 1 < |marks| && Tile(mem, marks, i) && forall k :: 0 <= k < |marks| ==> Aligned(marks[k])
    requires Merges(mem, marks[i], top) ==> i + 2 < |marks| && Tile(mem, marks, i + 1)
    ensures
      var after, size := Freed(mem, marks[i], top), SizeAt(mem, marks[i]);
      && SizeAt(after, marks[i]) == (if Merges(mem, marks[i], top) then marks[i + 2] - marks[i] else size)
      && !Used(after, marks[i])
      && (forall a: nat :: a != marks[i] ==> At(after, a) == At(mem, a))
      && (forall a :: a in mem ==> a in after)
  {
    var h := marks[i];
    AlignedSums(marks[i + 1], h);
    FlagRoundTrip(SizeAt(mem, h));
    if Merges(mem, h, top) {
      FreeSize(mem, marks, i + 1);
      AlignedSums(marks[i + 2], h);
      FlagRoundTrip(marks[i + 2] - h);
    }
    hide Aligned, Flagged, Unflagged;
  }

  function FreedMarks(mem: Memory, marks: seq<nat>, i: nat, top: nat): seq<nat>
    requires i < |marks| && (Merges(mem, marks[i], top) ==> i + 2 < |marks|)
  {
    if Merges(mem, marks[i], top) then Joined(marks, i) else marks
  }

  /** The block behind block `i`, if there is one. */
  lemma NextBlock(base: nat, top: nat, mem: Memory, marks: seq<nat>, i: nat)
    requires Tiled(base, top, mem, marks) && i + 1 < |marks|
    ensures Tile(mem, marks, i) && marks[i] + SizeAt(mem, marks[i]) == marks[i + 1]
    ensures marks[i + 1] < top ==> i + 2 < |marks| && Tile(mem, marks, i + 1)
  {
    hide SizeAt, Aligned, WordAligned;
    assert Tile(mem, marks, i);
  }

  lemma FreedFacts(base: nat, top: nat, mem: Memory, marks: seq<nat>, i: nat)
    requires Tiled(base, top, mem, marks) && i + 1 < |marks|
    ensures Tile(mem, marks, i)
    ensures Merges(mem, marks[i], top) ==> i + 2 < |marks| && Tile(mem, marks, i + 1) && !Used(mem, marks[i + 1])
    ensures
      var after := Freed(mem, marks[i], top);
      && SizeAt(after, marks[i]) == (if Merges(mem, marks[i], top) then marks[i + 2] else marks[i + 1]) - marks[i]
      && !Used(after, marks[i])
      && (forall a: nat :: a != marks[i] ==> At(after, a) == At(mem, a))
      && (forall a :: a in mem ==> a in after)
  {
    NextBlock(base, top, mem, marks, i);
    FreedEffect(mem, marks, i, top);
  }

  lemma JoinedLadder(base: nat, top: nat, marks: seq<nat>, i: nat)
    requires Ladder(base, top, marks) && i + 2 < |marks|
    ensures Ladder(base, top, Joined(marks, i))
  {
    hide Joined, Aligned;
  }

  lemma FreedTiles(base: nat, top: nat, mem: Memory, marks: seq<nat>, i: nat)
    requires Tiled(base, top, mem, marks) && i + 1 < |marks|
    ensures Merges(mem, marks[i], top) ==> i + 2 < |marks|
    ensures Tiled(base, top, Freed(mem, marks[i], top), FreedMarks(mem, marks, i, top))
  {
    hide Freed, SizeAt, Used, Aligned, WordAligned, Joined, Merges, At;
    FreedFacts(base, top, mem, marks, i);
    var after, now := Freed(mem, marks[i], top), FreedMarks(mem, marks, i, top);
    var merges := Merges(mem, marks[i], top);
    if merges {
      JoinedLadder(base, top, marks, i);
    }
    forall k: nat | k + 1 < |now| ensures Tile(after, now, k) {
      var m := if merges && k > i then k + 1 else k;
      assert Tile(mem, marks, m);
      if k != i {
        SameTile(mem, after, marks, m, now, k);
      }
    }
  }

  lemma JoinedMembers(marks: seq<nat>, i: nat)
    requires i + 2 < |marks| && forall p, q :: 0 <= p < q < |marks| ==> marks[p] < marks[q]
    ensures forall h :: h in Joined(marks, i) <==> h in marks && h != marks[i + 1]
  {
    assert marks == marks[..i + 1] + [marks[i + 1]] + marks[i + 2..];
  }

  lemma FreedInUse(base: nat, top: nat, mem: Memory, marks: seq<nat>, i: nat)
    requires Tiled(base, top, mem, marks) && i + 1 < |marks|
    ensures Merges(mem, marks[i], top) ==> i + 2 < |marks|
    ensures InUse(top, Freed(mem, marks[i], top), FreedMarks(mem, marks, i, top)) == InUse(top, mem, marks) - {marks[i]}
  {
    hide Freed, SizeAt, Used, Aligned, WordAligned, Joined, Merges, At;
    FreedFacts(base, top, mem, marks, i);
    var after := Freed(mem, marks[i], top);
    forall h | h in marks && h != marks[i] ensures Used(after, h) == Used(mem, h) {
      SameSize(mem, after, h);
    }
    if Merges(mem, marks[i], top) {
      JoinedMembers(marks, i);
    }
    hide Tiled;
  }

  /** Giving a block back keeps the tiling and disturbs no other block in use. */
  lemma FreedKeeps(base: nat, top: nat, mem: Memory, marks: seq<nat>, i: nat)
    requires Tiled(base, top, mem, marks) && i + 1 < |marks|
    ensures Merges(mem, marks[i], top) ==> i + 2 < |marks|
    ensures
      var after, now := Freed(mem, marks[i], top), FreedMarks(mem, marks, i, top);
      && Tiled(base, top, after, now) && InUse(top, after, now) == InUse(top, mem, marks) - {marks[i]}
      && (forall h :: h in InUse(top, mem, marks) && h != marks[i] ==> Untouched(mem, after, h))
  {
    FreedTiles(base, top, mem, marks, i);
    FreedInUse(base, top, mem, marks, i);
    NextBlock(base, top, mem, marks, i);
    FreedEffect(mem, marks, i, top);
    hide Freed, SizeAt, Aligned, WordAligned, Flagged, Tile, InUse, FreedMarks;
    forall h | h in InUse(top, mem, marks) && h != marks[i] ensures Untouched(mem, Freed(mem, marks[i], top), h) {
      OtherBlock(base, top, mem, marks, i, h);
    }
  }

  // ----- Growing -----

  /** New pages at the top, all zero but for the size of the new block. */
  function Grown(mem: Memory, top: nat, size: nat): Memory {
    (mem + map a: nat | top <= a < top + size && WordAligned(a) :: 0)[top := size]
  }

  lemma GrownEffect(mem: Memory, top: nat, size: nat)
    requires Aligned(size)
    ensures
      var after := Grown(mem, top, size);
      && SizeAt(after, top) == At(after, top) == size && !Used(after, top)
      && (forall a: nat :: a < top ==> At(after, a) == At(mem, a))
      && (forall a: nat :: a in mem || (top <= a < top + size && WordAligned(a)) ==> a in after)
  {
    FlagRoundTrip(size);
    hide Aligned, Flagged, Unflagged, WordAligned;
  }

  /** Growing adds one free block. */
  lemma GrownKeeps(base: nat, top: nat, mem: Memory, marks: seq<nat>, size: nat)
    requires Tiled(base, top, mem, marks) && Aligned(size) && size > 0
    ensures
      var after, now := Grown(mem, top, size), marks + [top + size];
      && Tiled(base, top + size, after, now) && InUse(top + size, after, now) == InUse(top, mem, marks)
      && (forall h :: h in InUse(top, mem, marks) ==> Untouched(mem, after, h))
  {
    hide Grown, Tiled, InUse, Untouched;
    GrownTiles(base, top, mem, marks, size);
    GrownInUse(base, top, mem, marks, size);
    forall h | h in InUse(top, mem, marks) ensures Untouched(mem, Grown(mem, top, size), h) {
      GrownUntouched(base, top, mem, marks, size, h);
    }
  }

  lemma GrownTiles(base: nat, top: nat, mem: Memory, marks: seq<nat>, size: nat)
    requires Tiled(base, top, mem, marks) && Aligned(size) && size > 0
    ensures Tiled(base, top + size, Grown(mem, top, size), marks + [top + size])
  {
    GrownEffect(mem, top, size);
    AlignedSums(top, size);
    AlignedSums(size, size);
    hide Grown, SizeAt, Aligned, WordAligned, Used;
    var after: Memory, now: seq<nat> := Grown(mem, top, size), marks + [top + size];
    LadderMore(base, top, marks, size);
    forall k: nat | k + 1 < |now| ensures Tile(after, now, k) {
      if k + 1 < |marks| {
        assert Tile(mem, marks, k);
        SameTile(mem, after, marks, k, now, k);
      }
    }
    hide Ladder, Tile;
  }

  lemma LadderMore(base: nat, top: nat, marks: seq<nat>, size: nat)
    requires Ladder(base, top, marks) && Aligned(top + size) && size > 0
    ensures Ladder(base, top + size, marks + [top + size])
  {
    hide Aligned;
  }

  lemma GrownInUse(base: nat, top: nat, mem: Memory, marks: seq<nat>, size: nat)
    requires Tiled(base, top, mem, marks) && Aligned(size) && size > 0
    ensures InUse(top + size, Grown(mem, top, size), marks + [top + size]) == InUse(top, mem, marks)
  {
    GrownEffect(mem, top, size);
    MarksUpTo(base, top, marks);
    hide Grown, SizeAt, Aligned, Used, Tiled;
    var after := Grown(mem, top, size);
    forall h | h in marks && h < top ensures Used(after, h) == Used(mem, h) {
      SameSize(mem, after, h);
    }
  }

  lemma MarksUpTo(base: nat, top: nat, marks: seq<nat>)
    requires Ladder(base, top, marks)
    ensures forall h :: h in marks ==> h <= top
  {
    hide Aligned;
  }

  lemma GrownUntouched(base: nat, top: nat, mem: Memory, marks: seq<nat>, size: nat, h: nat)
    requires Tiled(base, top, mem, marks) && Aligned(size) && h in InUse(top, mem, marks)
    ensures Untouched(mem, Grown(mem, top, size), h)
  {
    hide Grown, SizeAt, Aligned, Used, Tiled;
    GrownEffect(mem, top, size);
    BelowTop(base, top, mem, marks, h);
  }

  lemma SameSize(mem: Memory, after: Memory, h: nat)
    requires At(after, h) == At(mem, h)
    ensures SizeAt(after, h) == SizeAt(mem, h) && Used(after, h) == Used(mem, h)
  {}

  lemma BelowTop(base: nat, top: nat, mem: Memory, marks: seq<nat>, h: nat)
    requires Tiled(base, top, mem, marks) && h in marks && h < top
    ensures h + SizeAt(mem, h) <= top
  {
    hide SizeAt, Aligned, WordAligned;
    var k :| 0 <= k < |marks| && marks[k] == h;
    assert k + 1 < |marks|;
    assert Tile(mem, marks, k);
  }

  // ----- A walk that stops -----

  /** A heap of one page: one free block. */
  function OnePage(): Memory {
    Grown(map[], 0x1000, PAGE)
  }

  /** On it, malloc(0xFFFF_FFF8) gets a block of no size, and the next search for a block never ends. */
  lemma ZeroBlockStops(n: nat)
    ensures Tiled(0x1000, 0x2000, OnePage(), [0x1000, 0x2000]) && BlockSize(0xFFFF_FFF8) == 0
    ensures Fits(OnePage(), 0x1000, BlockSize(0xFFFF_FFF8))
    ensures
      var after := Place(OnePage(), 0x1000, BlockSize(0xFFFF_FFF8));
      Stepped(after, 0x1000, n) == 0x1000 < 0x2000 && !Fits(after, 0x1000, 8)
  {
    hide OnePage, Tiled, BlockSize, Place, Stepped, Fits, At, Used;
    OnePageTiled();
    BlockSizeZero(0xFFFF_FFF8);
    StopsAtOnce(0x1000, 0x2000, OnePage(), n);
  }

  /** A heap of one large free block, cut at nothing. */
  lemma StopsAtOnce(base: nat, top: nat, mem: Memory, n: nat)
    requires Tiled(base, top, mem, [base, top]) && !Used(mem, base) && At(mem, base) >= 2 * ALIGNMENT
    ensures Fits(mem, base, 0)
      && Stepped(Place(mem, base, 0), base, n) == base < top && !Fits(Place(mem, base, 0), base, 8)
  {
    hide Tiled, Place, Stepped, SizeAt, Used, At, Aligned;
    FirstBlock(base, top, mem);
    ZeroEffect(mem, base);
    ZeroCutBreaks(base, top, mem, [base, top], 0, []);
  }

  lemma FirstBlock(base: nat, top: nat, mem: Memory)
    requires Tiled(base, top, mem, [base, top]) && !Used(mem, base)
    ensures base < top && base in mem && Aligned(At(mem, base))
  {
    hide SizeAt, Used, At, Aligned, WordAligned;
    var marks := [base, top];
    assert Tile(mem, marks, 0) && Aligned(marks[0]) && Aligned(marks[1]);
    FreeSize(mem, marks, 0);
  }

  lemma OnePageTiled()
    ensures Tiled(0x1000, 0x2000, OnePage(), [0x1000, 0x2000])
    ensures At(OnePage(), 0x1000) == PAGE >= 2 * ALIGNMENT && !Used(OnePage(), 0x1000)
  {
    hide Tiled, Grown, InUse, Untouched, SizeAt, At, Used;
    NoBlocks(0x1000);
    GrownKeeps(0x1000, 0x1000, map[], [0x1000], PAGE);
    GrownEffect(map[], 0x1000, PAGE);
    assert [0x1000] + [0x2000] == [0x1000, 0x2000];
  }

  lemma NoBlocks(base: nat)
    requires Aligned(base)
    ensures Tiled(base, base, map[], [base])
  {}

  // ----- Writing contents -----

  /** Writing inside a block, behind its header, leaves the tiling alone. */
  lemma ContentsKeep(base: nat, top: nat, mem: Memory, marks: seq<nat>, after: Memory)
    requires Tiled(base, top, mem, marks) && mem.Keys <= after.Keys
    requires forall k :: 0 <= k < |marks| ==> At(after, marks[k]) == At(mem, marks[k])
    ensures Tiled(base, top, after, marks) && InUse(top, after, marks) == InUse(top, mem, marks)
  {
    hide SizeAt, Aligned, WordAligned, Used;
    forall k: nat | k + 1 < |marks| ensures Tile(after, marks, k) {
      assert Tile(mem, marks, k);
      SameTile(mem, after, marks, k, marks, k);
    }
    forall h | h in marks ensures Used(after, h) == Used(mem, h) {
      SameSize(mem, after, h);
    }
  }

  // ----- The allocator -----

  predicate Fits(mem: Memory, h: nat, size: nat) {
    At(mem, h) >= size && !Used(mem, h)
  }

  /** The size of an expansion: whole pages, in 32-bit arithmetic. */
  function PagesFor(size: nat): (pages: nat)
    ensures Aligned(pages)
  {
    var wanted := (size + PAGE - 1) % WORD;
    PageRounding(wanted);
    wanted - wanted % PAGE
  }

  lemma PageRounding(n: nat)
    ensures Aligned(n - n % PAGE)
  {
    assert n - n % PAGE == PAGE * (n / PAGE);
    assert PAGE * (n / PAGE) == ALIGNMENT * (512 * (n / PAGE));
  }

  /** Rounding up loses nothing unless it wraps around to zero. */
  lemma PagesHold(size: nat)
    requires size < WORD
    ensures PagesFor(size) != 0 ==> PagesFor(size) >= size
    ensures PagesFor(size) < size + PAGE && PagesFor(size) % PAGE == 0
  {
    if size + PAGE - 1 < WORD {
      RoundedUp(size);
    } else {
      RoundedDown(size + PAGE - 1 - WORD);
    }
  }

  lemma RoundedUp(size: nat)
    requires size + PAGE - 1 < WORD
    ensures PagesFor(size) == PAGE * ((size + PAGE - 1) / PAGE) && size <= PagesFor(size) < size + PAGE
    ensures PagesFor(size) % PAGE == 0
  {
    RoundedDown(size + PAGE - 1);
  }

  lemma RoundedDown(n: nat)
    ensures n - n % PAGE == PAGE * (n / PAGE) && n - PAGE < n - n % PAGE <= n && (n - n % PAGE) % PAGE == 0
    ensures n < PAGE ==> n - n % PAGE == 0
  {}

  const NULL := 0

  /** The heap cannot grow: the kernel refuses, or the range is empty or ends outside user space.
      The kernel's sum is taken in 32 bits. */
  predicate Refused(top: nat, size: nat, granted: bool) {
    !granted || PagesFor(size) == 0 || (top + PagesFor(size)) % WORD > USER_END
  }

  /** The new range wraps around: a kernel that accepts it maps nothing. */
  predicate Wraps(top: nat, size: nat) {
    top + PagesFor(size) >= WORD
  }

  /** A range that is accepted lies in user space exactly when it does not wrap around. */
  lemma GrowthSoundExactly(top: nat, size: nat, granted: bool)
    requires top <= USER_END && size < WORD && !Refused(top, size, granted)
    ensures top + PagesFor(size) <= USER_END <==> !Wraps(top, size)
  {
    hide PagesFor;
  }

  /** At 256MB, malloc(0xF000_0000) asks for a range that wraps around, and is not refused. */
  lemma WrappedGrowth()
    ensures !Refused(0x1000_0000, BlockSize(0xF000_0000), true) && Wraps(0x1000_0000, BlockSize(0xF000_0000))
    ensures (0x1000_0000 + PagesFor(BlockSize(0xF000_0000))) % WORD == 0x1000
  {
    assert BlockSize(0xF000_0000) == 0xF000_0008;
    assert PagesFor(0xF000_0008) == 0xF000_1000;
  }

  /** `h` is the lowest block with a clear flag and at least `size` bytes. */
  ghost predicate FirstFit(top: nat, mem: Memory, marks: seq<nat>, size: nat, h: nat) {
    && h in marks && h < top && At(mem, h) % 2 == 0 && At(mem, h) >= size
    && forall g :: g in marks && g < top && At(mem, g) % 2 == 0 && At(mem, g) >= size ==> h <= g
  }

  ghost predicate NoFit(top: nat, mem: Memory, marks: seq<nat>, size: nat) {
    forall g :: g in marks && g < top ==> At(mem, g) % 2 == 1 || At(mem, g) < size
  }

  lemma FitsMeans(mem: Memory, size: nat)
    ensures forall g :: Fits(mem, g, size) <==> At(mem, g) % 2 == 0 && At(mem, g) >= size
  {}

  /** Whole pages for a block. */
  function WholePages(block: nat): nat {
    (block + 4095) / 4096 * 4096
  }

  /** The heap grows by whole pages if and only if the kernel agrees and they end in user space. */
  lemma GrowsExactly(top: nat, block: nat, granted: bool)
    requires top <= USER_END && block < WORD
    ensures !Refused(top, block, granted) && !Wraps(top, block) <==>
      granted && block > 0 && top + WholePages(block) <= 0xC000_0000
    ensures !Refused(top, block, granted) && !Wraps(top, block) ==> PagesFor(block) == WholePages(block)
  {
    WholePagesHold(block);
    if block + PAGE - 1 < WORD {
      RoundedUp(block);
    } else {
      RoundedDown(block + PAGE - 1 - WORD);
    }
    hide WholePages, PagesFor;
  }

  lemma WholePagesHold(block: nat)
    ensures block <= WholePages(block) < block + 4096 && (block + PAGE - 1) / PAGE * PAGE == WholePages(block)
  {}

  /** A free block of `was` bytes at `h` is in use with `block` bytes, and what is left over is a free block
      of its own from 16 bytes on; no other word below `top` changes. */
  ghost predicate Carved(mem: Memory, after: Memory, h: nat, was: nat, block: nat, top: nat) {
    && block <= was
    && At(after, h) == (if was - block >= 16 then block + 1 else was + 1)
    && (was - block >= 16 && block > 0 ==> At(after, h + block) == was - block)
    && forall a: nat :: a < top && a != h && !(was - block >= 16 && a == h + block) ==> At(after, a) == At(mem, a)
  }

  lemma PlaceCarves(before: Memory, mem: Memory, h: nat, block: nat, top: nat)
    requires block <= At(mem, h) && forall a: nat :: a < top ==> At(mem, a) == At(before, a)
    ensures Carved(before, Place(mem, h, block), h, At(mem, h), block, top)
  {}

  lemma FreedMeans(top: nat, mem: Memory, marks: seq<nat>, h: nat)
    requires h in InUse(top, mem, marks)
    ensures
      var size := At(mem, h) - 1;
      && size == Unflagged(At(mem, h))
      && At(Freed(mem, h, top), h) ==
         size + if size > 0 && h + size < top && At(mem, h + size) % 2 == 0 then At(mem, h + size) else 0
  {}

  lemma Large(mem: Memory, h: nat, block: nat)
    requires Fits(mem, h, block)
    ensures block <= At(mem, h)
  {}

  class Heap {
    const base: nat
    var top: nat
    var mem: Memory
    ghost var marks: seq<nat>

    ghost predicate Valid()
      reads this
    {
      Tiled(base, top, mem, marks) && 0 < base && top <= USER_END
    }

    ghost function Blocks(): set<nat>
      reads this
    {
      InUse(top, mem, marks)
    }

    constructor (base: nat)
      requires 0 < base <= USER_END && Aligned(base)
      ensures Valid() && this.base == base && Blocks() == {}
    {
      this.base, top := base, base;
      mem, marks := map[], [base];
    }

    /** Walk the heap to the first free block that is large enough. */
    method FindFit(size: nat) returns (h: nat, ghost i: nat)
      requires Valid()
      ensures i < |marks| && (h == NULL <==> i + 1 == |marks|)
      ensures h != NULL ==> h == marks[i] && Fits(mem, h, size)
      ensures forall g :: g in marks && g < top && Fits(mem, g, size) ==> h != NULL && h <= g
    {
      hide SizeAt, Used, Aligned, WordAligned, At;
      h, i := base, 0;
      while h < top
        invariant i < |marks| && h == marks[i]
        invariant forall k :: 0 <= k < i ==> !Fits(mem, marks[k], size)
        decreases top - h
      {
        LastIsTop(base, top, marks, i);
        assert Tile(mem, marks, i);
        if Fits(mem, h, size) {
          return;
        }
        h, i := h + SizeAt(mem, h), i + 1;
      }
      LastIsTop(base, top, marks, i);
      h := NULL;
    }

    /** Map new pages behind the top; `granted` says whether the kernel agrees.  A range that wraps
        around is accepted without being mapped, and the new block's size goes to no memory: a fault. */
    method Expand(size: nat, granted: bool) returns (h: nat, fault: bool)
      requires Valid() && size < WORD
      modifies this
      ensures Valid() && Blocks() == old(Blocks())
      ensures forall b :: b in Blocks() ==> Untouched(old(mem), mem, b)
      ensures fault <==> !Refused(old(top), size, granted) && Wraps(old(top), size)
      ensures h == NULL <==> Refused(old(top), size, granted) || Wraps(old(top), size)
      ensures h == NULL ==> mem == old(mem) && top == old(top)
      ensures h != NULL ==> h == old(top) && |marks| > 1 && h == marks[|marks| - 2] && Fits(mem, h, size)
      ensures h != NULL <==> granted && size > 0 && old(top) + WholePages(size) <= 0xC000_0000
      ensures h != NULL ==> top == old(top) + WholePages(size) && At(mem, h) == WholePages(size)
      ensures forall a: nat :: a < old(top) ==> At(mem, a) == At(old(mem), a)
    {
      hide InUse, Untouched, Grown, SizeAt, Used, At, PagesFor, WholePages;
      GrowsExactly(top, size, granted);
      var pages := PagesFor(size);
      h, fault := NULL, false;
      if !granted || pages == 0 || (top + pages) % WORD > USER_END {
        forall b | b in Blocks() ensures Untouched(mem, mem, b) { Same(mem, b); }
        return;
      }
      GrowthSoundExactly(top, size, granted);
      if top + pages >= WORD {
        forall b | b in Blocks() ensures Untouched(mem, mem, b) { Same(mem, b); }
        fault := true;
        return;
      }
      PagesHold(size);
      GrownKeeps(base, top, mem, marks, pages);
      GrownEffect(mem, top, pages);
      h := top;
      mem, top, marks := Grown(mem, top, pages), top + pages, marks + [top + pages];
    }

    /** Use a free block, cutting off what is left over. */
    method Take(h: nat, block: nat, ghost i: nat)
      requires Valid() && i + 1 < |marks| && h == marks[i] && Fits(mem, h, block) && Aligned(block)
      modifies this
      ensures mem == Place(old(mem), h, block) && top == old(top)
      ensures block > 0 || !Cuts(old(mem), h, 0) ==>
        && Valid() && h !in old(Blocks()) && Blocks() == old(Blocks()) + {h} && block <= SizeAt(mem, h)
        && forall b :: b in old(Blocks()) ==> Untouched(old(mem), mem, b)
      ensures block == 0 && Cuts(old(mem), h, 0) ==> forall now :: !Tiled(base, top, mem, now)
    {
      hide SizeAt, Aligned, WordAligned, Used, At, Untouched, Tiled, PlaceMarks, Cuts;
      if block > 0 {
        PlaceKeeps(base, top, mem, marks, i, block);
        marks := PlaceMarks(mem, marks, i, block);
      } else if Cuts(mem, h, 0) {
        forall now ensures !Tiled(base, top, Place(mem, h, 0), now) {
          ZeroCutBreaks(base, top, mem, marks, i, now);
        }
      } else {
        ZeroWhole(base, top, mem, marks, i);
        PlaceKeeps(base, top, mem, marks, i, At(mem, h));
        marks := PlaceMarks(mem, marks, i, At(mem, h));
      }
      Remainder(mem, h, block);
      var remaining := At(mem, h) - block;
      if remaining >= 2 * ALIGNMENT {
        mem := mem[h + block := remaining][h := block + 1];
      } else {
        mem := mem[h := At(mem, h) + 1];
      }
    }

    /** A new block for `size` bytes, or NULL.  A successful call leaves a heap that can be walked
        exactly if its block has a size or is taken whole. */
    method Malloc(size: nat, granted: bool) returns (p: nat, fault: bool)
      requires Valid() && size < WORD
      modifies this
      ensures fault <==>
        && NoFit(old(top), old(mem), old(marks), BlockSize(size))
        && !Refused(old(top), BlockSize(size), granted) && Wraps(old(top), BlockSize(size))
      ensures p == NULL <==>
        && NoFit(old(top), old(mem), old(marks), BlockSize(size))
        && (Refused(old(top), BlockSize(size), granted) || Wraps(old(top), BlockSize(size)))
      ensures p == NULL ==> Valid() && mem == old(mem) && Blocks() == old(Blocks())
      ensures p != NULL <==>
        || !NoFit(old(top), old(mem), old(marks), BlockSize(size))
        || (granted && BlockSize(size) > 0 && old(top) + WholePages(BlockSize(size)) <= 0xC000_0000)
      ensures p != NULL ==> p >= HEADER && p - HEADER !in old(Blocks())
      ensures p != NULL && !NoFit(old(top), old(mem), old(marks), BlockSize(size)) ==>
        top == old(top) && Carved(old(mem), mem, p - HEADER, At(old(mem), p - HEADER), BlockSize(size), old(top))
      ensures p != NULL && NoFit(old(top), old(mem), old(marks), BlockSize(size)) ==>
        && p - HEADER == old(top) && top == old(top) + WholePages(BlockSize(size))
        && Carved(old(mem), mem, old(top), WholePages(BlockSize(size)), BlockSize(size), old(top))
      ensures p != NULL && !NoFit(old(top), old(mem), old(marks), BlockSize(size)) ==>
        FirstFit(old(top), old(mem), old(marks), BlockSize(size), p - HEADER)
      ensures p != NULL ==>
        ((exists now :: Tiled(base, top, mem, now)) <==> BlockSize(size) != 0 || !Cuts(old(mem), p - HEADER, 0))
      ensures p != NULL && (BlockSize(size) != 0 || !Cuts(old(mem), p - HEADER, 0)) ==>
        && Valid() && Blocks() == old(Blocks()) + {p - HEADER} && BlockSize(size) <= SizeAt(mem, p - HEADER)
        && forall b :: b in old(Blocks()) ==> Untouched(old(mem), mem, b)
    {
      hide SizeAt, Aligned, WordAligned, Used, At, Untouched, Tiled, InUse, Place, Fits, Refused, BlockSize,
        Wraps, Cuts, WholePages, Carved;
      var block := BlockSize(size);
      FitsMeans(mem, block);
      GrowsExactly(top, block, granted);
      MarksBelow(base, top, mem, marks);
      ghost var i;
      var h;
      fault := false;
      h, i := FindFit(block);
      if h == NULL {
        ZeroRefused(top, granted);
        h, fault := Expand(block, granted);
        if h == NULL {
          return NULL, fault;
        }
        i := |marks| - 2;
      } else {
        forall b | b in Blocks() ensures Untouched(old(mem), mem, b) { Same(mem, b); }
      }
      ghost var grown := mem;
      FreeNotInUse(top, mem, marks, h, block);
      Large(mem, h, block);
      PlaceCarves(old(mem), mem, h, block, old(top));
      Take(h, block, i);
      forall b | b in old(Blocks()) && (block > 0 || !Cuts(grown, h, 0)) ensures Untouched(old(mem), mem, b) {
        Nonempty(base, old(top), old(mem), old(marks), b);
        UntouchedTwice(old(mem), grown, mem, b);
      }
      p := h + HEADER;
    }

    /** Give a block back. */
    method Free(p: nat)
      requires Valid() && p >= HEADER && p - HEADER in Blocks()
      modifies this
      ensures Valid() && top == old(top) && Blocks() == old(Blocks()) - {p - HEADER}
      ensures forall b :: b in Blocks() ==> Untouched(old(mem), mem, b)
      ensures forall a: nat :: a != p - HEADER ==> At(mem, a) == At(old(mem), a)
      ensures
        var h, size := p - HEADER, At(old(mem), p - HEADER) - 1;
        && size > 0
        && At(mem, h) ==
           size + if h + size < top && At(old(mem), h + size) % 2 == 0 then At(old(mem), h + size) else 0
    {
      hide SizeAt, Aligned, WordAligned, Flagged, At, Untouched, Tiled, InUse, FreedMarks;
      FreedMeans(top, mem, marks, p - HEADER);
      Nonempty(base, top, mem, marks, p - HEADER);
      var h := p - HEADER;
      ghost var i := Locate(base, top, mem, marks, h);
      FreedKeeps(base, top, mem, marks, i);
      FreedFacts(base, top, mem, marks, i);
      marks := FreedMarks(mem, marks, i, top);
      var size := SizeAt(mem, h);
      mem := mem[h := size];
      if h + size < top && !Used(mem, h + size) {
        mem := mem[h := size + At(mem, h + size)];
      }
    }

    /** Copy `n` bytes, word by word, from one block's contents to another's. */
    method Memcpy(to: nat, from: nat, n: nat)
      requires Aligned(n) && (to + n <= from || from + n <= to)
      modifies `mem
      ensures old(mem).Keys <= mem.Keys
      ensures forall a: nat :: a < n && WordAligned(a) ==> At(mem, to + a) == At(old(mem), from + a)
      ensures forall a: nat :: !(to <= a < to + n) ==> At(mem, a) == At(old(mem), a)
    {
      hide At, WordAligned, Aligned;
      Words(n);
      var k := 0;
      while 4 * k < n
        invariant 4 * k <= n && old(mem).Keys <= mem.Keys
        invariant forall a: nat :: a < k ==> WordAt(mem, to, a) == WordAt(old(mem), from, a)
        invariant forall a: nat :: !(to <= a < to + 4 * k) ==> At(mem, a) == At(old(mem), a)
      {
        ghost var before := mem;
        mem := mem[to + 4 * k := At(mem, from + 4 * k)];
        WordCopied(before, mem, to, k, At(before, from + 4 * k));
        k := k + 1;
      }
      ByWords(old(mem), mem, to, from, n, k);
    }

    /** Make room for `size` bytes: in place if the block is large enough, else in a new block
        that takes over the contents.  A failed allocation is not noticed by the code, which
        then copies to address zero, nor does it get past a fault; `ok` is false exactly then. */
    method Realloc(p: nat, size: nat, granted: bool) returns (q: nat, ok: bool)
      requires Valid() && p >= HEADER && p - HEADER in Blocks() && size < WORD
      modifies this
      ensures Valid()
      ensures ok && q != p ==>
        && q >= HEADER && q - HEADER !in old(Blocks()) && Blocks() == old(Blocks()) - {p - HEADER} + {q - HEADER}
        && (forall a: nat :: a + HEADER < SizeAt(old(mem), p - HEADER) && WordAligned(a) ==>
              At(mem, q + a) == At(old(mem), p + a))
        && (forall b :: b in old(Blocks()) && b != p - HEADER ==> Untouched(old(mem), mem, b))
      ensures ok && q == p ==> mem == old(mem) && Blocks() == old(Blocks())
      ensures ok ==> (q == p <==> BlockSize(size) <= SizeAt(old(mem), p - HEADER))
      ensures ok ==> q - HEADER in Blocks() && BlockSize(size) <= SizeAt(mem, q - HEADER)
      ensures !ok ==> mem == old(mem) && Blocks() == old(Blocks())
      ensures ok <==>
        || BlockSize(size) <= SizeAt(old(mem), p - HEADER)
        || !NoFit(old(top), old(mem), old(marks), BlockSize(size))
        || (!Refused(old(top), BlockSize(size), granted) && !Wraps(old(top), BlockSize(size)))
    {
      hide SizeAt, Aligned, WordAligned, Flagged, At, Untouched, Tiled, InUse, NoFit, FirstFit, Refused, BlockSize,
        Wraps;
      var h := p - HEADER;
      var oldSize := SizeAt(mem, h);
      if BlockSize(size) <= oldSize {
        return p, true;
      }
      var fault;
      q, fault := Malloc(size, granted);
      if q == NULL {
        return q, false;
      }
      ghost var grown := mem;
      ghost var g := q - HEADER;
      Nonempty(base, old(top), old(mem), old(marks), h);
      UntouchedSize(old(mem), grown, h);
      CopyRoom(base, top, grown, marks, h, g);
      Memcpy(q, p, oldSize - HEADER);
      CopyKeeps(base, top, grown, marks, g, oldSize - HEADER, mem);
      ghost var copied := mem;
      Free(p);
      forall b | b in old(Blocks()) && b != h ensures Untouched(old(mem), mem, b) {
        Nonempty(base, old(top), old(mem), old(marks), b);
        UntouchedSize(old(mem), grown, b);
        UntouchedTwice(old(mem), grown, copied, b);
        UntouchedTwice(old(mem), copied, mem, b);
      }
      SameSize(grown, mem, g);
      CopyStays(old(mem), grown, copied, mem, h, g, oldSize);
      ok := true;
    }
  }

  lemma Remainder(mem: Memory, h: nat, block: nat)
    requires block <= At(mem, h)
    ensures Place(mem, h, block) ==
      if At(mem, h) - block >= 2 * ALIGNMENT then mem[h + block := At(mem, h) - block][h := block + 1]
      else mem[h := At(mem, h) + 1]
  {}

  lemma FreeNotInUse(top: nat, mem: Memory, marks: seq<nat>, h: nat, size: nat)
    requires Fits(mem, h, size)
    ensures h !in InUse(top, mem, marks)
  {}

  /** Word `i` behind address `base`. */
  function WordAt(mem: Memory, base: nat, i: nat): nat {
    At(mem, base + 4 * i)
  }

  lemma Words(n: nat)
    requires Aligned(n)
    ensures n % 4 == 0
  {
    assert n == 4 * (2 * (n / ALIGNMENT));
  }

  lemma WordCopied(before: Memory, after: Memory, to: nat, k: nat, w: nat)
    requires after == before[to + 4 * k := w]
    ensures WordAt(after, to, k) == w && before.Keys <= after.Keys
    ensures forall i: nat :: i < k ==> WordAt(after, to, i) == WordAt(before, to, i)
    ensures forall a: nat :: a != to + 4 * k ==> At(after, a) == At(before, a)
  {}

  lemma ByWords(before: Memory, after: Memory, to: nat, from: nat, n: nat, k: nat)
    requires n <= 4 * k && forall i: nat :: i < k ==> WordAt(after, to, i) == WordAt(before, from, i)
    ensures forall a: nat :: a < n && WordAligned(a) ==> At(after, to + a) == At(before, from + a)
  {
    hide At;
    forall a: nat | a < n && WordAligned(a) ensures At(after, to + a) == At(before, from + a) {
      assert a == 4 * (a / 4);
      assert WordAt(after, to, a / 4) == WordAt(before, from, a / 4);
    }
  }

  lemma UntouchedTwice(a: Memory, b: Memory, c: Memory, h: nat)
    requires Untouched(a, b, h) && Untouched(b, c, h) && Unflagged(At(a, h)) > 0
    ensures Untouched(a, c, h)
  {
    assert At(b, h) == At(a, h);
  }

  lemma Same(mem: Memory, h: nat)
    ensures Untouched(mem, mem, h)
  {}

  lemma ZeroRefused(top: nat, granted: bool)
    ensures Refused(top, 0, granted)
  {}

  /** All marks but the last are below the top. */
  lemma MarksBelow(base: nat, top: nat, mem: Memory, marks: seq<nat>)
    requires Tiled(base, top, mem, marks)
    ensures forall i :: 0 <= i < |marks| - 1 ==> marks[i] in marks && marks[i] < top
  {
    hide Aligned, WordAligned, Tile;
  }

  lemma Nonempty(base: nat, top: nat, mem: Memory, marks: seq<nat>, h: nat)
    requires Tiled(base, top, mem, marks) && h in InUse(top, mem, marks)
    ensures Unflagged(At(mem, h)) > 0
  {
    hide Unflagged, Aligned, WordAligned, Used;
    var k :| 0 <= k < |marks| && marks[k] == h;
    assert k + 1 < |marks|;
    assert Tile(mem, marks, k);
  }

  lemma UntouchedSize(mem: Memory, after: Memory, h: nat)
    requires Untouched(mem, after, h) && Unflagged(At(mem, h)) > 0
    ensures At(after, h) == At(mem, h) && SizeAt(after, h) == SizeAt(mem, h)
  {}

  /** The contents of two blocks in use do not overlap. */
  lemma CopyRoom(base: nat, top: nat, mem: Memory, marks: seq<nat>, h: nat, g: nat)
    requires Tiled(base, top, mem, marks) && h in InUse(top, mem, marks) && g in InUse(top, mem, marks) && h != g
    ensures h + SizeAt(mem, h) <= g || g + SizeAt(mem, g) <= h
    ensures SizeAt(mem, h) >= HEADER && Aligned(SizeAt(mem, h) - HEADER)
  {
    var i := Locate(base, top, mem, marks, g);
    OtherBlock(base, top, mem, marks, i, h);
    NextBlock(base, top, mem, marks, i);
    var k := Locate(base, top, mem, marks, h);
    NextBlock(base, top, mem, marks, k);
    AlignedSums(marks[k + 1], h);
    AlignedSums(SizeAt(mem, h), HEADER);
  }

  /** Writing the contents of one block keeps the tiling and disturbs no other block. */
  lemma CopyKeeps(base: nat, top: nat, mem: Memory, marks: seq<nat>, g: nat, n: nat, after: Memory)
    requires Tiled(base, top, mem, marks) && g in InUse(top, mem, marks) && n + HEADER <= SizeAt(mem, g)
    requires mem.Keys <= after.Keys
    requires forall a: nat :: !(g + HEADER <= a < g + HEADER + n) ==> At(after, a) == At(mem, a)
    ensures Tiled(base, top, after, marks) && InUse(top, after, marks) == InUse(top, mem, marks)
    ensures forall b :: b in InUse(top, mem, marks) && b != g ==> Untouched(mem, after, b)
  {
    hide SizeAt, Aligned, WordAligned, Used, At, Tiled;
    var i := Locate(base, top, mem, marks, g);
    NextBlock(base, top, mem, marks, i);
    forall k | 0 <= k < |marks| ensures At(after, marks[k]) == At(mem, marks[k]) {
      MarkOutside(base, top, mem, marks, i, k);
    }
    ContentsKeep(base, top, mem, marks, after);
    forall b | b in InUse(top, mem, marks) && b != g ensures Untouched(mem, after, b) {
      OtherBlock(base, top, mem, marks, i, b);
    }
  }

  lemma MarkOutside(base: nat, top: nat, mem: Memory, marks: seq<nat>, i: nat, k: nat)
    requires Tiled(base, top, mem, marks) && i + 1 < |marks| && k < |marks|
    ensures marks[k] <= marks[i] || marks[i + 1] <= marks[k]
  {
    hide Aligned, WordAligned, Tile;
  }

  /** The copy survives the release of the block it came from. */
  lemma CopyStays(mem: Memory, grown: Memory, copied: Memory, after: Memory, h: nat, g: nat, size: nat)
    requires h + size <= g || g + SizeAt(grown, g) <= h
    requires size <= SizeAt(grown, g) && size == SizeAt(mem, h) && Untouched(mem, grown, h)
    requires forall a: nat :: a < size - HEADER && WordAligned(a) ==>
      At(copied, g + HEADER + a) == At(grown, h + HEADER + a)
    requires forall a: nat :: a != h ==> At(after, a) == At(copied, a)
    ensures forall a: nat :: a + HEADER < size && WordAligned(a) ==>
      At(after, g + HEADER + a) == At(mem, h + HEADER + a)
  {
    hide SizeAt, WordAligned, At;
    forall a: nat | a + HEADER < size && WordAligned(a) ensures At(after, g + HEADER + a) == At(mem, h + HEADER + a) {
      assert At(copied, g + HEADER + a) == At(grown, h + HEADER + a);
      assert At(grown, h + HEADER + a) == At(mem, h + HEADER + a);
    }
  }

  lemma Locate(base: nat, top: nat, mem: Memory, marks: seq<nat>, h: nat) returns (i: nat)
    requires Tiled(base, top, mem, marks) && h in InUse(top, mem, marks)
    ensures i + 1 < |marks| && marks[i] == h
  {
    hide Aligned, WordAligned, Used, Tile;
    i :| 0 <= i < |marks| && marks[i] == h;
  }

  lemma LastIsTop(base: nat, top: nat, marks: seq<nat>, i: nat)
    requires Ladder(base, top, marks) && i < |marks|
    ensures marks[i] < top <==> i + 1 < |marks|
  {
    hide Aligned;
  }
}
