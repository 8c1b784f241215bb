/** Bytes behind page tables: new memory is cleared (kernel/core/memory/virtual.c), and a message's
    payload is copied from a blocked sender's pages to the receiver's own
    (kernel/core/system/message/syscall_recv.c). */
module Payload {
  import opened Paging
  import opened Frames
  import opened AddressSpaces

  type Bytes = seq<bv8>

  /** Physical memory: the frames of the pool, and page 0, which is where a missing mapping leads. */
  class Ram {
    var frames: seq<Bytes>
    const low: Bytes

    ghost predicate Shaped(n: nat)
      reads this
    {
      FramesShaped(frames, n) && |low| == PAGE
    }

    constructor (frames: seq<Bytes>, low: Bytes)
      ensures this.frames == frames && this.low == low
    {
      this.frames, this.low := frames, low;
    }
  }

  ghost predicate FramesShaped(frames: seq<Bytes>, n: nat) {
    |frames| == n && forall f :: 0 <= f < n ==> |frames[f]| == PAGE
  }

  /** One byte of physical memory. */
  datatype Cell = Cell(frame: nat, offset: nat) | Low(offset: nat)

  ghost function Load(frames: seq<Bytes>, low: Bytes, c: Cell): bv8 {
    match c
    case Cell(f, o) => if f < |frames| && o < |frames[f]| then frames[f][o] else 0
    case Low(o) => if o < |low| then low[o] else 0
  }

  ghost function Loads(frames: seq<Bytes>, low: Bytes, cells: seq<Cell>): Bytes {
    seq(|cells|, i requires 0 <= i < |cells| => Load(frames, low, cells[i]))
  }

  /** The byte behind address `a` of a process. */
  ghost function CellOf(links: Links, pid: nat, a: nat): Cell {
    if Home(pid, First(a)) in links then Cell(links[Home(pid, First(a))], a % PAGE) else Low(a % PAGE)
  }

  ghost function Cells(links: Links, pid: nat, a: nat, n: nat): seq<Cell> {
    seq(n, i requires 0 <= i < n => CellOf(links, pid, a + i))
  }

  /** What is written lies in `cells`. */
  ghost predicate Elsewhere(before: seq<Bytes>, after: seq<Bytes>, low: Bytes, cells: seq<Cell>) {
    forall c :: c !in cells ==> Load(after, low, c) == Load(before, low, c)
  }

  ghost predicate Distinct(cells: seq<Cell>) {
    forall i, j :: 0 <= i < j < |cells| ==> cells[i] != cells[j]
  }

  ghost predicate NoneIn(cells: seq<Cell>, others: seq<Cell>) {
    forall c :: c in cells ==> c !in others
  }

  /** No byte of the target is written twice or is one of the source's. */
  ghost predicate Apart(from: seq<Cell>, to: seq<Cell>) {
    Distinct(to) && NoneIn(from, to)
  }

  ghost predicate AllMapped(cells: seq<Cell>) {
    forall c :: c in cells ==> c.Cell?
  }

  lemma LoadsSame(before: seq<Bytes>, after: seq<Bytes>, low: Bytes, written: seq<Cell>, cells: seq<Cell>)
    requires Elsewhere(before, after, low, written) && NoneIn(cells, written)
    ensures Loads(after, low, cells) == Loads(before, low, cells)
  {}

  lemma LoadsJoin(frames: seq<Bytes>, low: Bytes, cells: seq<Cell>, more: seq<Cell>)
    ensures Loads(frames, low, cells + more) == Loads(frames, low, cells) + Loads(frames, low, more)
  {}

  lemma CellsPart(links: Links, pid: nat, a: nat, n: nat, done: nat, m: nat)
    requires done + m <= n
    ensures Cells(links, pid, a, n)[done..done + m] == Cells(links, pid, a + done, m)
  {}

  lemma FrameInRange(mem: Spaces, r: Ref)
    requires mem.Valid() && r in mem.links
    ensures mem.links[r] < mem.pool.counts.Length
  {}

  lemma PageInRange(from: nat, size: nat, at: nat)
    requires from <= at < from + size && Ranged(from, size) && from + size < WORD
    ensures First(from) <= First(at) < Limit(from, size) <= PAGES
  {
    EndCases(from, size);
    LimitMeans(from, size, First(at));
    hide Limit;
    PageStarts(from);
    PageStarts(at);
  }

  lemma CellInSpan(links: Links, pid: nat, a: nat, size: nat, i: nat)
    requires Ranged(a, size) && a + size < WORD && i < size
    ensures Home(pid, First(a + i)) in Span(pid, First(a), Limit(a, size))
  {
    hide First, Limit, Home;
    PageInRange(a, size, a + i);
    InSpan(pid, First(a), Limit(a, size), First(a + i));
  }

  lemma CellsMapped(links: Links, pid: nat, a: nat, size: nat)
    requires Ranged(a, size) && a + size < WORD && Span(pid, First(a), Limit(a, size)) <= links.Keys
    ensures AllMapped(Cells(links, pid, a, size))
  {
    hide Limit, First, Home, Ranged;
    var cells := Cells(links, pid, a, size);
    forall i | 0 <= i < size ensures cells[i].Cell? {
      CellInSpan(links, pid, a, size, i);
    }
  }

  // ----- Writing through page tables -----

  lemma StoreOne(frames: seq<Bytes>, low: Bytes, f: nat, o: nat, b: bv8, n: nat)
    requires FramesShaped(frames, n) && f < n && o < PAGE
    ensures FramesShaped(frames[f := frames[f][o := b]], n)
    ensures Load(frames[f := frames[f][o := b]], low, Cell(f, o)) == b
    ensures Elsewhere(frames, frames[f := frames[f][o := b]], low, [Cell(f, o)])
  {
    forall c | c !in [Cell(f, o)] ensures Load(frames[f := frames[f][o := b]], low, c) == Load(frames, low, c) {
      assert [Cell(f, o)][0] == Cell(f, o);
    }
  }

  lemma OneMore(before: seq<Bytes>, now: seq<Bytes>, next: seq<Bytes>, low: Bytes, to: seq<Cell>, bytes: Bytes, i: nat)
    requires i < |to| == |bytes| && Elsewhere(before, now, low, to[..i]) && Elsewhere(now, next, low, [to[i]])
    requires (Distinct(to) ==> Loads(now, low, to[..i]) == bytes[..i]) && Load(next, low, to[i]) == bytes[i]
    ensures Elsewhere(before, next, low, to[..i + 1])
      && (Distinct(to) ==> Loads(next, low, to[..i + 1]) == bytes[..i + 1])
  {
    hide Load;
    assert to[..i + 1] == to[..i] + [to[i]];
    if Distinct(to) {
      LoadsSame(now, next, low, [to[i]], to[..i]);
      LoadsJoin(next, low, to[..i], [to[i]]);
      assert bytes[..i + 1] == bytes[..i] + [bytes[i]];
    }
  }

  /** Store bytes at an address of a process, whatever frames its pages have. */
  method WriteBytes(mem: Spaces, ram: Ram, pid: nat, a: nat, bytes: Bytes)
    requires mem.Valid() && pid in mem.spaces && ram.Shaped(mem.pool.counts.Length) && ram !in mem.pool.Footprint()
    requires AllMapped(Cells(mem.links, pid, a, |bytes|)) && a + |bytes| <= TOP
    modifies ram
    ensures ram.Shaped(mem.pool.counts.Length)
    ensures Elsewhere(old(ram.frames), ram.frames, ram.low, Cells(mem.links, pid, a, |bytes|))
    ensures Distinct(Cells(mem.links, pid, a, |bytes|)) ==>
      Loads(ram.frames, ram.low, Cells(mem.links, pid, a, |bytes|)) == bytes
  {
    hide Spaces.ValidBut, Home, Load, Loads, Distinct, Elsewhere;
    ghost var to := Cells(mem.links, pid, a, |bytes|);
    var i := 0;
    NothingWritten(ram.frames, ram.low);
    while i < |bytes|
      invariant 0 <= i <= |bytes| && mem.Valid() && ram.Shaped(mem.pool.counts.Length)
      invariant Elsewhere(old(ram.frames), ram.frames, ram.low, to[..i])
      invariant Distinct(to) ==> Loads(ram.frames, ram.low, to[..i]) == bytes[..i]
    {
      assert to[i] in to && to[i] == CellOf(mem.links, pid, a + i);
      var e := mem.Lookup(NONE, pid, (a + i) / PAGE);
      FrameInRange(mem, Home(pid, First(a + i)));
      ghost var now := ram.frames;
      StoreOne(ram.frames, ram.low, e.frame, (a + i) % PAGE, bytes[i], mem.pool.counts.Length);
      ram.frames := ram.frames[e.frame := ram.frames[e.frame][(a + i) % PAGE := bytes[i]]];
      OneMore(old(ram.frames), now, ram.frames, ram.low, to, bytes, i);
      i := i + 1;
    }
    assert to[..i] == to && bytes[..i] == bytes;
  }

  lemma NothingWritten(frames: seq<Bytes>, low: Bytes)
    ensures Elsewhere(frames, frames, low, []) && Loads(frames, low, []) == []
  {}

  // ----- Delivering a payload -----

  lemma WithinPage(a: nat, i: nat)
    requires a % PAGE + i < PAGE
    ensures First(a + i) == First(a) && (a + i) % PAGE == a % PAGE + i
  {
    assert a + i == PAGE * (a / PAGE) + (a % PAGE + i);
  }

  /** The piece of a page that starts at address `a` is what the process finds there. */
  lemma PieceLoads(links: Links, frames: seq<Bytes>, low: Bytes, pid: nat, a: nat, m: nat, data: Bytes)
    requires a % PAGE + m <= PAGE && |data| == PAGE
    requires
      var r := Home(pid, First(a));
      if r in links then links[r] < |frames| && data == frames[links[r]] else data == low
    ensures data[a % PAGE..a % PAGE + m] == Loads(frames, low, Cells(links, pid, a, m))
  {
    hide Home, First;
    var piece, loads := data[a % PAGE..a % PAGE + m], Loads(frames, low, Cells(links, pid, a, m));
    forall i | 0 <= i < m ensures piece[i] == loads[i] {
      WithinPage(a, i);
    }
  }

  /** So far, `done` bytes have arrived, and nothing else has changed. */
  ghost predicate Arrived(before: seq<Bytes>, now: seq<Bytes>, low: Bytes, from: seq<Cell>, to: seq<Cell>, done: nat) {
    && done <= |to| == |from| && Elsewhere(before, now, low, to[..done])
    && (Apart(from, to) ==> Loads(now, low, to[..done]) == Loads(before, low, from[..done]))
  }

  lemma ApartPieces(from: seq<Cell>, to: seq<Cell>, done: nat, m: nat)
    requires Apart(from, to) && done + m <= |to| == |from|
    ensures Distinct(to[done..done + m]) && NoneIn(to[..done], to[done..done + m])
      && NoneIn(from[done..done + m], to[..done])
  {
    forall c | c in to[..done] ensures c !in to[done..done + m] {}
    forall c | c in from[done..done + m] ensures c !in to[..done] {
      assert c in from;
    }
  }

  lemma MoreArrived(before: seq<Bytes>, now: seq<Bytes>, next: seq<Bytes>, low: Bytes,
                    from: seq<Cell>, to: seq<Cell>, done: nat, m: nat)
    requires Arrived(before, now, low, from, to, done) && done + m <= |to|
    requires Elsewhere(now, next, low, to[done..done + m])
    requires Distinct(to[done..done + m]) ==>
      Loads(next, low, to[done..done + m]) == Loads(now, low, from[done..done + m])
    ensures Arrived(before, next, low, from, to, done + m)
  {
    hide Load, Loads, Distinct, NoneIn;
    var piece, part := to[done..done + m], from[done..done + m];
    assert to[..done + m] == to[..done] + piece && from[..done + m] == from[..done] + part;
    if Apart(from, to) {
      hide Elsewhere;
      ApartPieces(from, to, done, m);
      LoadsSame(now, next, low, piece, to[..done]);
      LoadsSame(before, now, low, to[..done], part);
      LoadsJoin(next, low, to[..done], piece);
      LoadsJoin(before, low, from[..done], part);
    }
  }

  lemma BelowTop(at: nat)
    requires at < TOP
    ensures First(at) < PAGES
  {}

  /** Copy up to the end of the sender's page. */
  method CopyPiece(mem: Spaces, ram: Ram, sender: nat, at: nat, receiver: nat, addr: nat, room: nat) returns (m: nat)
    requires mem.Valid() && sender in mem.spaces && receiver in mem.spaces && at < TOP && 0 < room && addr + room <= TOP
    requires ram.Shaped(mem.pool.counts.Length) && ram !in mem.pool.Footprint()
    requires AllMapped(Cells(mem.links, receiver, addr, room))
    modifies ram
    ensures 0 < m <= room && ram.Shaped(mem.pool.counts.Length)
    ensures Elsewhere(old(ram.frames), ram.frames, ram.low, Cells(mem.links, receiver, addr, m))
    ensures
      var from, to := Cells(mem.links, sender, at, m), Cells(mem.links, receiver, addr, m);
      Distinct(to) ==> Loads(ram.frames, ram.low, to) == Loads(old(ram.frames), ram.low, from)
  {
    hide Spaces.ValidBut, Home, Load, Loads, Elsewhere, Distinct, Cells, AllMapped, First;
    BelowTop(at);
    var page, diff := First(at), at % PAGE;
    var e := mem.Lookup(NONE, sender, page);
    if e.Present? {
      FrameInRange(mem, Home(sender, page));
    }
    var data := if e.Present? then ram.frames[e.frame] else ram.low;
    m := if room < PAGE - diff then room else PAGE - diff;
    PieceLoads(mem.links, ram.frames, ram.low, sender, at, m, data);
    StillMapped(mem.links, receiver, addr, room, 0, m);
    WriteBytes(mem, ram, receiver, addr, data[diff..diff + m]);
  }

  lemma StillMapped(links: Links, pid: nat, a: nat, n: nat, done: nat, m: nat)
    requires done + m <= n && AllMapped(Cells(links, pid, a, n))
    ensures AllMapped(Cells(links, pid, a + done, m))
  {
    CellsPart(links, pid, a, n, done, m);
  }

  /** The sender's bytes arrive, in order, whatever the alignment of the two ranges and the frames of
      their pages, and no other byte of memory changes; a range that wraps around gets nothing. */
  method CopyPayload(mem: Spaces, ram: Ram, sender: nat, from: nat, receiver: nat, to: nat, size: nat)
    requires mem.Valid() && sender in mem.spaces && receiver in mem.spaces
    requires ram.Shaped(mem.pool.counts.Length) && ram !in mem.pool.Footprint()
    requires Ranged(to, size) && (to + size < WORD ==> from + size <= TOP)
    requires Span(receiver, First(to), Checked(to, size)) <= mem.links.Keys
    modifies ram
    ensures ram.Shaped(mem.pool.counts.Length)
    ensures to + size >= WORD ==> ram.frames == old(ram.frames)
    ensures to + size < WORD ==>
      Arrived(old(ram.frames), ram.frames, ram.low, Cells(mem.links, sender, from, size),
              Cells(mem.links, receiver, to, size), size)
  {
    hide Spaces.ValidBut, Home, Load, Loads, Arrived, Limit, First, Elsewhere, Distinct, Cells, AllMapped, End;
    EndCases(to, size);
    LimitMeans(to, size, First(to));
    ghost var source, target := Cells(mem.links, sender, from, size), Cells(mem.links, receiver, to, size);
    if to + size < WORD {
      CellsMapped(mem.links, receiver, to, size);
      NothingArrived(mem.links, ram.frames, ram.low, sender, from, receiver, to, size);
    }
    var at, addr, end := from, to, End(to, size);
    while addr < end
      invariant mem.Valid() && ram.Shaped(mem.pool.counts.Length)
      invariant to + size >= WORD ==> addr == to && ram.frames == old(ram.frames)
      invariant to + size < WORD ==> to <= addr <= end && at == from + (addr - to)
      invariant to + size < WORD ==> Arrived(old(ram.frames), ram.frames, ram.low, source, target, addr - to)
    {
      StillMapped(mem.links, receiver, to, size, addr - to, end - addr);
      ghost var now := ram.frames;
      var m := CopyPiece(mem, ram, sender, at, receiver, addr, end - addr);
      Parts(mem.links, sender, from, receiver, to, size, addr - to, m);
      MoreArrived(old(ram.frames), now, ram.frames, ram.low, source, target, addr - to, m);
      at, addr := at + m, addr + m;
    }
  }

  lemma NothingArrived(links: Links, frames: seq<Bytes>, low: Bytes, sender: nat, from: nat,
                       receiver: nat, to: nat, size: nat)
    ensures Arrived(frames, frames, low, Cells(links, sender, from, size), Cells(links, receiver, to, size), 0)
  {}

  lemma Parts(links: Links, sender: nat, from: nat, receiver: nat, to: nat, size: nat, done: nat, m: nat)
    requires done + m <= size
    ensures |Cells(links, sender, from, size)| == |Cells(links, receiver, to, size)| == size
    ensures Cells(links, sender, from, size)[done..done + m] == Cells(links, sender, from + done, m)
    ensures Cells(links, receiver, to, size)[done..done + m] == Cells(links, receiver, to + done, m)
  {
    CellsPart(links, sender, from, size, done, m);
    CellsPart(links, receiver, to, size, done, m);
  }

  /** Pages of the target that nothing else refers to keep the two ranges apart. */
  lemma PrivateIsApart(links: Links, counts: seq<nat>, sender: nat, from: nat, receiver: nat, to: nat, size: nat)
    requires Balanced(links, counts, NONE) && Ranged(to, size) && to + size < WORD
      && Ranged(from, size) && from + size < WORD
    requires Span(receiver, First(to), Limit(to, size)) <= links.Keys
    requires forall r :: r in Span(receiver, First(to), Limit(to, size)) ==>
      links[r] < |counts| && counts[links[r]] == 1
    requires Span(sender, First(from), Limit(from, size)) !! Span(receiver, First(to), Limit(to, size))
    ensures Apart(Cells(links, sender, from, size), Cells(links, receiver, to, size))
  {
    hide Limit, Ranged, Balanced, Home;
    var source, target := Cells(links, sender, from, size), Cells(links, receiver, to, size);
    hide Span, First;
    forall i, j | 0 <= i < j < size ensures target[i] != target[j] {
      if target[i] == target[j] {
        CellInSpan(links, receiver, to, size, i);
        CellInSpan(links, receiver, to, size, j);
        OnlyOne(links, counts, Home(receiver, First(to + i)), Home(receiver, First(to + j)));
        SamePage(receiver, to + i, to + j);
      }
    }
    forall i, j | 0 <= i < size && 0 <= j < size ensures source[i] != target[j] {
      if source[i] == target[j] {
        CellInSpan(links, receiver, to, size, j);
        CellInSpan(links, sender, from, size, i);
        assert source[i] == CellOf(links, sender, from + i) && target[j] == CellOf(links, receiver, to + j);
        OnlyOne(links, counts, Home(receiver, First(to + j)), Home(sender, First(from + i)));
      }
    }
  }

  lemma SamePage(pid: nat, a: nat, b: nat)
    requires Home(pid, First(a)) == Home(pid, First(b)) && a % PAGE == b % PAGE
    ensures a == b
  {}

  lemma OnlyOne(links: Links, counts: seq<nat>, r: Ref, q: Ref)
    requires Balanced(links, counts, NONE) && r in links && q in links && links[r] == links[q]
    requires links[r] < |counts| && counts[links[r]] == 1
    ensures r == q
  {
    var refs := RefsTo(links, links[r]);
    assert r in refs && q in refs && |refs| == 1;
    assert |refs - {r}| == 0;
  }

  // ----- Clearing new memory -----

  /** Byte `c` is in frame `f`, at offset `o` or behind it. */
  predicate InTail(c: Cell, f: nat, o: nat) {
    c.Cell? && c.frame == f && o <= c.offset < PAGE
  }

  lemma ClearOne(frames: seq<Bytes>, low: Bytes, f: nat, o: nat, n: nat, zeros: Bytes)
    requires FramesShaped(frames, n) && f < n && o <= PAGE
      && |zeros| == PAGE - o && forall i :: 0 <= i < |zeros| ==> zeros[i] == 0
    ensures FramesShaped(frames[f := frames[f][..o] + zeros], n)
    ensures forall c ::
      Load(frames[f := frames[f][..o] + zeros], low, c) == if InTail(c, f, o) then 0 else Load(frames, low, c)
  {}

  /** Address `a` lies in the range or behind it on its last page. */
  ghost predicate Within(virt: nat, limit: nat, a: nat) {
    virt <= a && a / PAGE < limit
  }

  /** Byte `c` is behind such an address. */
  ghost predicate Reached(links: Links, pid: nat, virt: nat, limit: nat, c: Cell) {
    exists a: nat :: Within(virt, limit, a) && c == CellOf(links, pid, a)
  }

  /** The bytes from `virt` to page `limit` read zero, and all others are as before. */
  ghost predicate Cleared(links: Links, before: seq<Bytes>, now: seq<Bytes>, low: Bytes,
                          pid: nat, virt: nat, limit: nat) {
    && (forall a: nat :: Within(virt, limit, a) ==> Load(now, low, CellOf(links, pid, a)) == 0)
    && (forall c :: Load(now, low, c) != Load(before, low, c) ==> Reached(links, pid, virt, limit, c))
  }

  lemma ClearedNothing(links: Links, frames: seq<Bytes>, low: Bytes, pid: nat, virt: nat)
    ensures Cleared(links, frames, frames, low, pid, virt, First(virt))
  {
    forall a: nat ensures !Within(virt, First(virt), a) {}
  }

  lemma ClearedMore(links: Links, before: seq<Bytes>, now: seq<Bytes>, next: seq<Bytes>, low: Bytes,
                    pid: nat, virt: nat, p: nat, o: nat)
    requires Cleared(links, before, now, low, pid, virt, p) && First(virt) <= p && Home(pid, p) in links && o <= PAGE
    requires o == if p * PAGE < virt then virt - p * PAGE else 0
    requires forall c :: Load(next, low, c) == if InTail(c, links[Home(pid, p)], o) then 0 else Load(now, low, c)
    ensures Cleared(links, before, next, low, pid, virt, p + 1)
  {
    hide Load, Home;
    forall a: nat | Within(virt, p + 1, a) ensures Load(next, low, CellOf(links, pid, a)) == 0 {
      if a / PAGE == p {
        assert a % PAGE >= o;
      } else {
        assert Within(virt, p, a);
      }
    }
    forall c | Load(next, low, c) != Load(before, low, c)
      ensures Reached(links, pid, virt, p + 1, c)
    {
      if InTail(c, links[Home(pid, p)], o) {
        var a := p * PAGE + c.offset;
        assert a / PAGE == p && a % PAGE == c.offset;
        assert Within(virt, p + 1, a) && c == CellOf(links, pid, a);
      } else {
        var a: nat :| Within(virt, p, a) && c == CellOf(links, pid, a);
        assert Within(virt, p + 1, a);
      }
    }
  }

  /** Clear a mapped range, page by page, each from where the range starts to the end of the page. */
  method ClearPages(mem: Spaces, ram: Ram, pid: nat, virt: nat, size: nat)
    requires mem.Valid() && pid in mem.spaces && Ranged(virt, size)
    requires ram.Shaped(mem.pool.counts.Length) && ram !in mem.pool.Footprint()
    requires Span(pid, First(virt), Limit(virt, size)) <= mem.links.Keys
    modifies ram
    ensures ram.Shaped(mem.pool.counts.Length)
    ensures Cleared(mem.links, old(ram.frames), ram.frames, ram.low, pid, virt, Limit(virt, size))
  {
    hide Spaces.ValidBut, Home, Load, Limit, End, Cleared;
    LimitMeans(virt, size, First(virt));
    var page := virt / PAGE;
    ClearedNothing(mem.links, ram.frames, ram.low, pid, virt);
    while page * PAGE < End(virt, size)
      invariant First(virt) <= page <= Limit(virt, size)
      invariant mem.Valid() && ram.Shaped(mem.pool.counts.Length)
      invariant Cleared(mem.links, old(ram.frames), ram.frames, ram.low, pid, virt, page)
    {
      LimitMeans(virt, size, page);
      InSpan(pid, First(virt), Limit(virt, size), page);
      var e := mem.Lookup(NONE, pid, page);
      FrameInRange(mem, Home(pid, page));
      var diff := if page * PAGE < virt then virt - page * PAGE else 0;
      var zeros := seq(PAGE - diff, _ => 0 as bv8);
      ClearOne(ram.frames, ram.low, e.frame, diff, mem.pool.counts.Length, zeros);
      ghost var now := ram.frames;
      ram.frames := ram.frames[e.frame := ram.frames[e.frame][..diff] + zeros];
      ClearedMore(mem.links, old(ram.frames), now, ram.frames, ram.low, pid, virt, page, diff);
      page := page + 1;
    }
    LimitMeans(virt, size, page);
  }

  /** Every page of the range is there, and everything from the start of the range to the end of its
      last page reads zero, also on pages that were there before; no other byte changes. */
  method AllocCleared(mem: Spaces, ram: Ram, pid: nat, virt: nat, size: nat) returns (ok: bool)
    requires mem.Valid() && pid in mem.spaces && Ranged(virt, size)
    requires ram.Shaped(mem.pool.counts.Length) && ram !in mem.pool.Footprint()
    modifies mem, mem.pool.Footprint(), ram
    ensures ok <==> Need(old(mem.links).Keys, Span(pid, First(virt), Limit(virt, size))) <= old(Avail(mem.pool.View()))
    ensures !ok ==> mem.pool.View().empty
    ensures ok ==> mem.Valid() && mem.spaces == old(mem.spaces) && ram.Shaped(mem.pool.counts.Length)
    ensures ok ==>
      Filled(old(Flat(mem.links)), Flat(mem.links), Span(pid, First(virt), Limit(virt, size)),
             old(mem.pool.View()).taken)
    ensures ok ==> Cleared(mem.links, old(ram.frames), ram.frames, ram.low, pid, virt, Limit(virt, size))
  {
    hide Spaces.ValidBut, Limit, End, Filled, Cleared, Need, Avail;
    ok := mem.VirtualAlloc(pid, virt, size);
    if ok {
      FilledAll(old(Flat(mem.links)), mem.links, Span(pid, First(virt), Limit(virt, size)), old(mem.pool.View()).taken);
      ClearPages(mem, ram, pid, virt, size);
    }
  }

  lemma FilledAll(before: Links, links: Links, span: set<Ref>, taken: set<nat>)
    requires Filled(before, Flat(links), span, taken)
    ensures span <= links.Keys
  {}
}
