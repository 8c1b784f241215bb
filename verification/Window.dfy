/** The last 4MB of an address space, where a directory's own entries show as pages
    (kernel/arch/i586/sw/paging.c): unmapping a page there takes a whole table away. */
module Windows {
  import opened Paging
  import opened Frames
  import opened AddressSpaces

  /** The page tables make sense: some references explain them and all counts. */
  ghost predicate Explained(pages: seq<seq<Entry>>, dirs: map<nat, nat>, counts: seq<nat>) {
    KERNEL in dirs && exists links :: MemoryOk(links, pages, dirs, counts, NONE) && KernelFull(links)
  }

  /** Entry `i` of a process's directory can go: there is none, or it is an empty table of its own. */
  ghost predicate Removable(links: Links, pid: nat, i: nat) {
    || Shown(pid, i) !in links
    || (i < UPPER && forall p: nat :: Page(pid, p) in links ==> DirIndex(p) != i)
  }

  /** The references that do not go through table `i` of a process. */
  ghost function Around(links: Links, pid: nat, i: nat): Links {
    map r | r in links && r != Table(pid, i) && !(r.Page? && r.pid == pid && DirIndex(r.page) == i) :: links[r]
  }

  /** Only one set of references explains a set of page tables. */
  lemma CoherentUnique(a: Links, b: Links, pages: seq<seq<Entry>>, dirs: map<nat, nat>)
    requires Coherent(a, pages, dirs) && Coherent(b, pages, dirs)
    ensures a == b
  {
    hide Walk, Owned;
    forall r ensures (r in a <==> r in b) && (r in a ==> a[r] == b[r]) {
      if Owned(r) {
        assert Agrees(a, r, Walk(pages, dirs, r)) && Agrees(b, r, Walk(pages, dirs, r));
      }
    }
    assert a.Keys == b.Keys;
  }

  // ----- An entry of its own -----

  /** Taking a table out of a directory takes its pages away, and nothing else. */
  lemma WalkAround(links: Links, pages: seq<seq<Entry>>, dirs: map<nat, nat>, pid: nat, i: nat, r: Ref)
    requires Coherent(links, pages, dirs) && Sole(links) && Sized(pages, |pages|) && Owned(r)
    requires pid in dirs && dirs[pid] < |pages| && i < UPPER
    ensures
      var after := Write(pages, dirs[pid], i, Absent);
      Walk(after, dirs, r) == if r == Table(pid, i) || (r.Page? && r.pid == pid && DirIndex(r.page) == i) then Absent
                              else Walk(pages, dirs, r)
  {
    DirsApart(links, pages, dirs, pid);
    if r.pid in dirs {
      DirsApart(links, pages, dirs, r.pid);
      if r.Page? {
        var k := DirIndex(r.page);
        assert Agrees(links, Table(r.pid, k), Walk(pages, dirs, Table(r.pid, k)));
      }
    }
  }

  lemma AroundCoherent(links: Links, pages: seq<seq<Entry>>, dirs: map<nat, nat>, pid: nat, i: nat)
    requires Coherent(links, pages, dirs) && Sole(links) && Sized(pages, |pages|)
    requires pid in dirs && dirs[pid] < |pages| && i < UPPER
    ensures Coherent(Around(links, pid, i), Write(pages, dirs[pid], i, Absent), dirs)
  {
    hide Walk, Owned;
    var rest, after := Around(links, pid, i), Write(pages, dirs[pid], i, Absent);
    forall r | Owned(r) ensures Agrees(rest, r, Walk(after, dirs, r)) {
      WalkAround(links, pages, dirs, pid, i, r);
      assert Agrees(links, r, Walk(pages, dirs, r));
    }
  }

  lemma AroundMirrors(links: Links, pages: seq<seq<Entry>>, dirs: map<nat, nat>, pid: nat, i: nat)
    requires Coherent(links, pages, dirs) && Sole(links) && Sized(pages, |pages|) && Mirrors(pages, dirs)
    requires pid in dirs && dirs[pid] < |pages| && i < UPPER
    ensures Mirrors(Write(pages, dirs[pid], i, Absent), dirs)
  {
    var after := Write(pages, dirs[pid], i, Absent);
    forall q | q in dirs ensures KERNEL in dirs && Copies(after, dirs[KERNEL], dirs[q]) {
      assert Copies(pages, dirs[KERNEL], dirs[q]);
      UpperKept(pages, dirs[pid], i, dirs[KERNEL], dirs[q]);
    }
  }

  lemma UpperKept(pages: seq<seq<Entry>>, f: nat, i: nat, kernel: nat, d: nat)
    requires Sized(pages, |pages|) && f < |pages| && i < UPPER && Copies(pages, kernel, d)
    ensures Copies(Write(pages, f, i, Absent), kernel, d)
  {
    var after := Write(pages, f, i, Absent);
    forall g: nat, j | UPPER <= j ensures Read(after, g, j) == Read(pages, g, j) {}
  }

  /** The counts are exact afterwards exactly when the table was empty. */
  lemma AroundBalanced(links: Links, counts: seq<nat>, pid: nat, i: nat)
    requires Sole(links) && Balanced(links, counts, NONE) && Table(pid, i) in links
    ensures
      var t := links[Table(pid, i)];
      && counts[t] == 1
      && (Balanced(Around(links, pid, i), counts[t := 0], NONE) <==>
            forall p: nat :: Page(pid, p) in links ==> DirIndex(p) != i)
  {
    hide DirIndex;
    var t, rest := links[Table(pid, i)], Around(links, pid, i);
    assert RefsTo(links, t) == {Table(pid, i)};
    if forall p: nat :: Page(pid, p) in links ==> DirIndex(p) != i {
      assert rest == links - {Table(pid, i)};
      hide Around, Count;
      CountRemove(links, Table(pid, i));
    } else {
      var p: nat :| Page(pid, p) in links && DirIndex(p) == i;
      FewerRefs(links, rest, Page(pid, p));
      assert counts[t := 0][links[Page(pid, p)]] == counts[links[Page(pid, p)]];
    }
  }

  lemma FewerRefs(links: Links, rest: Links, r: Ref)
    requires r in links && r !in rest && forall q :: q in rest ==> q in links && rest[q] == links[q]
    ensures Count(rest, links[r]) < Count(links, links[r])
  {
    var all, some := RefsTo(links, links[r]), RefsTo(rest, links[r]);
    assert some <= all - {r} && r in all;
    Subset(some, all - {r});
  }

  lemma Subset<T>(a: set<T>, b: set<T>)
    requires a <= b
    ensures |a| <= |b|
  {
    assert b == a + (b - a);
  }

  lemma OwnEntryGoes(links: Links, pages: seq<seq<Entry>>, dirs: map<nat, nat>, counts: seq<nat>, pid: nat, i: nat)
    requires MemoryOk(links, pages, dirs, counts, NONE) && KernelFull(links) && KERNEL in dirs
    requires pid in dirs && dirs[pid] < |pages| && i < UPPER
      && Table(pid, i) in links && links[Table(pid, i)] < |counts|
    ensures
      var t := links[Table(pid, i)];
      Explained(Write(pages, dirs[pid], i, Absent), dirs, counts[t := 0]) <==> Removable(links, pid, i)
  {
    var t, rest, after := links[Table(pid, i)], Around(links, pid, i), Write(pages, dirs[pid], i, Absent);
    AroundCoherent(links, pages, dirs, pid, i);
    AroundMirrors(links, pages, dirs, pid, i);
    AroundBalanced(links, counts, pid, i);
    assert Sole(rest) && KernelFull(rest);
    hide Coherent, Mirrors, Balanced, Sole, Around, KernelFull;
    if Explained(after, dirs, counts[t := 0]) {
      var ls :| MemoryOk(ls, after, dirs, counts[t := 0], NONE) && KernelFull(ls);
      CoherentUnique(ls, rest, after, dirs);
    }
    if Removable(links, pid, i) {
      assert MemoryOk(rest, after, dirs, counts[t := 0], NONE);
    }
  }

  // ----- A copy of the kernel's, or the entry that points back -----

  lemma SharedEntryGoes(links: Links, pages: seq<seq<Entry>>, dirs: map<nat, nat>, counts: seq<nat>, now: seq<nat>,
                        pid: nat, i: nat)
    requires MemoryOk(links, pages, dirs, counts, NONE) && KernelFull(links) && KERNEL in dirs
    requires pid in dirs && dirs[pid] < |pages| && UPPER <= i < ENTRIES
    ensures !Explained(Write(pages, dirs[pid], i, Absent), dirs, now)
  {
    var after := Write(pages, dirs[pid], i, Absent);
    DirsApart(links, pages, dirs, pid);
    DirsApart(links, pages, dirs, KERNEL);
    assert Read(after, dirs[pid], i) == Absent;
    if Explained(after, dirs, now) {
      var ls :| MemoryOk(ls, after, dirs, now, NONE) && KernelFull(ls);
      assert Copies(after, dirs[KERNEL], dirs[pid]);
      if i < WINDOW {
        KernelEntry(ls, after, dirs, now, i);
      }
      assert false;
    }
  }

  lemma KernelEntry(links: Links, pages: seq<seq<Entry>>, dirs: map<nat, nat>, counts: seq<nat>, i: nat)
    requires MemoryOk(links, pages, dirs, counts, NONE) && KernelFull(links) && KERNEL in dirs && UPPER <= i < WINDOW
    ensures Read(pages, dirs[KERNEL], i).Present?
  {
    assert Owned(Table(KERNEL, i));
    assert Agrees(links, Table(KERNEL, i), Walk(pages, dirs, Table(KERNEL, i)));
  }

  /** Unmapping page `i` of the last 4MB clears entry `i` of the directory and releases what it referred
      to.  The memory makes sense afterwards exactly when there was nothing there, or an empty table
      of the process's own. */
  method UnmapWindow(mem: Spaces, pid: nat, i: nat)
    requires mem.Valid() && pid in mem.spaces && i < ENTRIES
    modifies mem, mem.pool.Footprint()
    ensures mem.pool.Valid() && mem.spaces == old(mem.spaces)
    ensures
      var d := old(mem.spaces)[pid];
      var e := old(mem.pages)[d][i];
      && (e.Absent? ==> mem.pages == old(mem.pages) && mem.pool.View() == old(mem.pool.View()))
      && (e.Present? ==>
            && mem.pages == Write(old(mem.pages), d, i, Absent)
            && e.frame < |old(mem.pool.View().counts)| && old(mem.pool.View().counts)[e.frame] == 1
            && mem.pool.View() == Released(old(mem.pool.View()), e.frame)
            && mem.pool.View().counts == old(mem.pool.View().counts)[e.frame := 0])
    ensures mem.links == old(mem.links)
    ensures Explained(mem.pages, mem.spaces, mem.pool.View().counts) <==> Removable(old(mem.links), pid, i)
  {
    hide MemoryOk, FramePool.Valid, FramePool.View, PoolOk, KernelFull, Removable, Explained;
    ghost var counts, links, pages := mem.pool.View().counts, mem.links, mem.pages;
    WindowFacts(links, pages, mem.spaces, counts, NONE, pid, PAGES + i);
    WindowSplit(PAGES + i);
    mem.Known();
    var d := mem.spaces[pid];
    var te := mem.pages[d][i];
    if te.Absent? {
      NothingThere(links, pages, mem.spaces, counts, pid, i);
      return;
    }
    ShownCount(links, pages, mem.spaces, counts, pid, i);
    var freed := mem.pool.Release(te.frame);
    ReleasedOnce(old(mem.pool.View()), te.frame);
    mem.pages := Write(mem.pages, d, i, Absent);
    if i < UPPER {
      OwnEntryGoes(links, pages, mem.spaces, counts, pid, i);
    } else {
      SharedEntryGoes(links, pages, mem.spaces, counts, mem.pool.View().counts, pid, i);
      ShownStays(links, pid, i, te.frame);
    }
  }

  lemma NothingThere(links: Links, pages: seq<seq<Entry>>, dirs: map<nat, nat>, counts: seq<nat>, pid: nat, i: nat)
    requires MemoryOk(links, pages, dirs, counts, NONE) && KernelFull(links)
      && KERNEL in dirs && Shown(pid, i) !in links
    ensures Explained(pages, dirs, counts) && Removable(links, pid, i)
  {}

  lemma ShownStays(links: Links, pid: nat, i: nat, f: nat)
    requires i >= UPPER && Shown(pid, i) in links
    ensures !Removable(links, pid, i)
  {}

  lemma ShownCount(links: Links, pages: seq<seq<Entry>>, dirs: map<nat, nat>, counts: seq<nat>, pid: nat, i: nat)
    requires MemoryOk(links, pages, dirs, counts, NONE) && Shown(pid, i) in links
    ensures links[Shown(pid, i)] < |counts| && counts[links[Shown(pid, i)]] == 1
  {
    var r := Shown(pid, i);
    assert RefsTo(links, links[r]) == {r};
  }

  lemma ReleasedOnce(p: Pool, f: nat)
    requires f < |p.counts| && p.counts[f] == 1
    ensures Released(p, f).counts == p.counts[f := 0]
  {}
}
