/** Destroying an address space (kernel/arch/i586/sw/paging.c, `paging_dir_destroy`).

    The inner loop is meant to release every page of a table, but it looks at the entry with the
    table's own number each time.  A frame there loses all its counts, and all others keep theirs. */
module Teardown {
  import opened Paging
  import opened Frames
  import opened AddressSpaces

  /** The page whose two indexes are both `i`. */
  function Diagonal(i: nat): (p: nat)
    ensures i < UPPER ==> DirIndex(p) == i && TblIndex(p) == i && p < KERNEL_PAGE
  {
    i * 1024 + i
  }

  /** Frame `f` is behind the diagonal page of table `i`. */
  ghost predicate OnDiagonal(links: Links, pid: nat, i: nat, f: nat) {
    i < UPPER && Page(pid, Diagonal(i)) in links && links[Page(pid, Diagonal(i))] == f
  }

  /** Round `i` of the loop releases frame `f`. */
  ghost predicate Hit(links: Links, pid: nat, i: nat, f: nat) {
    OnDiagonal(links, pid, i, f) || (Table(pid, i) in links && links[Table(pid, i)] == f)
  }

  ghost predicate HitBelow(links: Links, pid: nat, n: nat, f: nat) {
    exists i: nat :: i < n && Hit(links, pid, i, f)
  }

  /** After `n` rounds the frames that were hit have no count, and all others the count they had. */
  ghost predicate Torn(links: Links, pid: nat, counts: seq<nat>, now: seq<nat>, n: nat) {
    && |now| == |counts|
    && forall f: nat :: f < |counts| ==> now[f] == if HitBelow(links, pid, n, f) then 0 else counts[f]
  }

  /** What is left of the references when a process is gone. */
  ghost function Others(links: Links, pid: nat): Links {
    map r | r in links && r.pid != pid :: links[r]
  }

  /** Frame `f` is on the diagonal, and only this process refers to it. */
  ghost predicate Spent(links: Links, pid: nat, f: nat) {
    && (exists i: nat :: OnDiagonal(links, pid, i, f))
    && forall q :: q in links && links[q] == f ==> q.pid == pid
  }

  /** All pages of a process are in frames that the loop may and does release. */
  ghost predicate Tidy(links: Links, pid: nat) {
    forall p: nat :: Page(pid, p) in links ==> Spent(links, pid, links[Page(pid, p)])
  }

  // ----- The loop -----

  /** Release the entry with the table's number once for every entry, then the table. */
  method DestroyTable(pool: FramePool, table: seq<Entry>, i: nat, tbl: nat)
    requires pool.Valid() && |table| == ENTRIES && i < ENTRIES && tbl < pool.counts.Length && pool.counts[tbl] == 1
    requires table[i].Present? ==> table[i].frame < pool.counts.Length && table[i].frame != tbl
    modifies pool.Footprint()
    ensures pool.Valid()
    ensures forall f: nat :: f < pool.counts.Length ==>
              pool.counts[f] == if f == tbl || table[i] == Present(f) then 0 else old(pool.counts[f])
  {
    hide FramePool.Valid;
    var te := table[i];
    CountsBounded(pool);
    var j := 0;
    while j != ENTRIES
      invariant 0 <= j <= ENTRIES && pool.Valid()
      invariant forall f: nat :: f < pool.counts.Length ==>
                  pool.counts[f] == if te == Present(f) then Less(old(pool.counts[f]), j) else old(pool.counts[f])
    {
      if te.Present? {
        label L:
        var freed := pool.Release(te.frame);
        ReleasedCounts(old@L(pool.View()), te.frame);
      }
      j := j + 1;
    }
    label M:
    var freed := pool.Release(tbl);
    ReleasedCounts(old@M(pool.View()), tbl);
  }

  function Less(count: nat, n: nat): nat {
    if n <= count then count - n else 0
  }

  lemma CountsBounded(pool: FramePool)
    requires pool.Valid()
    ensures forall f: nat :: f < pool.counts.Length ==> pool.counts[f] <= COUNT_MAX
  {
    assert pool.View().counts == pool.counts[..];
    forall f: nat | f < pool.counts.Length ensures pool.counts[f] <= COUNT_MAX {
      assert pool.View().counts[f] == pool.counts[f];
    }
  }

  lemma ReleasedCounts(p: Pool, f: nat)
    requires f < |p.counts|
    ensures |Released(p, f).counts| == |p.counts|
    ensures forall g: nat :: g < |p.counts| ==>
              Released(p, f).counts[g] == if g == f then Less(p.counts[g], 1) else p.counts[g]
  {}

  lemma TornNothing(links: Links, pid: nat, counts: seq<nat>)
    ensures Torn(links, pid, counts, counts, 0)
  {}

  lemma TornMore(links: Links, pid: nat, counts: seq<nat>, now: seq<nat>, next: seq<nat>, i: nat)
    requires Torn(links, pid, counts, now, i) && |next| == |now|
    requires forall f: nat :: f < |counts| ==> next[f] == if Hit(links, pid, i, f) then 0 else now[f]
    ensures Torn(links, pid, counts, next, i + 1)
  {
    hide Hit;
    forall f: nat | f < |counts| ensures next[f] == if HitBelow(links, pid, i + 1, f) then 0 else counts[f] {
      assert HitBelow(links, pid, i + 1, f) <==> HitBelow(links, pid, i, f) || Hit(links, pid, i, f);
    }
  }

  /** A directory or table has a frame, with one count, to itself. */
  lemma OneCount(links: Links, counts: seq<nat>, r: Ref)
    requires Sole(links) && Balanced(links, counts, NONE) && r in links && !r.Page?
    ensures links[r] < |counts| && counts[links[r]] == 1
  {
    assert RefsTo(links, links[r]) == {r};
  }

  lemma NotHitYet(links: Links, pid: nat, r: Ref, n: nat)
    requires Sole(links) && r in links && !r.Page? && (r.Table? ==> r.pid == pid && n <= r.index)
    ensures !HitBelow(links, pid, n, links[r])
  {
    forall i: nat | i < n ensures !Hit(links, pid, i, links[r]) {}
  }

  /** What round `i` finds. */
  lemma RoundFacts(links: Links, pages: seq<seq<Entry>>, dirs: map<nat, nat>, counts: seq<nat>, pid: nat, i: nat)
    requires MemoryOk(links, pages, dirs, counts, NONE) && pid in dirs && i < UPPER
    ensures dirs[pid] < |pages| && |pages[dirs[pid]]| == ENTRIES
    ensures
      var de := pages[dirs[pid]][i];
      && Agrees(links, Table(pid, i), de)
      && (de.Absent? ==> forall f: nat :: !Hit(links, pid, i, f))
      && (de.Present? ==>
            && de.frame < |pages| && |pages[de.frame]| == ENTRIES && |pages| == |counts|
            && Agrees(links, Page(pid, Diagonal(i)), pages[de.frame][i])
            && (pages[de.frame][i].Present? ==>
                  pages[de.frame][i].frame < |counts| && pages[de.frame][i].frame != de.frame)
            && forall f: nat :: Hit(links, pid, i, f) <==> f == de.frame || pages[de.frame][i] == Present(f))
  {
    hide Walk, Coherent, Mirrors, Count, DirIndex, TblIndex, Diagonal;
    WalkFacts(links, pages, dirs, counts, NONE, pid, Diagonal(i));
  }

  // ----- What is left -----

  lemma OthersCoherent(links: Links, pages: seq<seq<Entry>>, dirs: map<nat, nat>, pid: nat)
    requires Coherent(links, pages, dirs) && Mirrors(pages, dirs) && Sole(links) && KernelFull(links) && pid != KERNEL
    ensures Coherent(Others(links, pid), pages, dirs - {pid})
      && Mirrors(pages, dirs - {pid}) && Sole(Others(links, pid))
    ensures KernelFull(Others(links, pid))
  {
    hide Copies, Owned;
    var rest, gone := Others(links, pid), dirs - {pid};
    forall r | Owned(r) ensures Agrees(rest, r, Walk(pages, gone, r)) {
      assert Agrees(links, r, Walk(pages, dirs, r));
    }
    forall q | q in gone ensures KERNEL in gone && Copies(pages, gone[KERNEL], gone[q]) {
      assert Copies(pages, dirs[KERNEL], dirs[q]);
    }
  }

  /** A frame loses no reference with the process, or has only the process's. */
  lemma OthersCount(links: Links, pid: nat, f: nat)
    ensures Count(Others(links, pid), f) <= Count(links, f)
    ensures Count(Others(links, pid), f) == Count(links, f) <==>
      forall r :: r in links && links[r] == f ==> r.pid != pid
    ensures Count(Others(links, pid), f) == 0 <==> forall r :: r in links && links[r] == f ==> r.pid == pid
  {
    var all, rest := RefsTo(links, f), RefsTo(Others(links, pid), f);
    var mine := set r | r in all && r.pid == pid;
    assert all == rest + mine && rest !! mine;
    assert |all| == |rest| + |mine|;
    assert |mine| == 0 <==> mine == {};
    assert |rest| == 0 <==> rest == {};
    if r :| r in links && links[r] == f && r.pid == pid {
      assert r in mine;
    }
    if r :| r in links && links[r] == f && r.pid != pid {
      assert r in rest;
    }
  }

  /** The count that is left is right for a frame exactly when no page of the process was in it, or it
      was on the diagonal and nobody else's. */
  lemma FrameSettled(links: Links, pid: nat, counts: seq<nat>, now: nat, f: nat)
    requires Sole(links) && Balanced(links, counts, NONE) && f < |counts| && Tables(links, pid)
    requires now ==
      if HitBelow(links, pid, UPPER, f) || (Dir(pid) in links && links[Dir(pid)] == f) then 0 else counts[f]
    ensures now == Count(Others(links, pid), f) <==>
      (forall p: nat :: Page(pid, p) in links && links[Page(pid, p)] == f ==> Spent(links, pid, f))
  {
    hide Count, Diagonal;
    OthersCount(links, pid, f);
    if r :| r in links && links[r] == f && r.pid == pid && !r.Page? {
      assert forall q :: q in links && links[q] == f ==> q == r;
      if r.Table? {
        assert Hit(links, pid, r.index, f);
      }
      assert now == 0 && Count(Others(links, pid), f) == 0;
    } else {
      assert HitBelow(links, pid, UPPER, f) <==> exists i: nat :: OnDiagonal(links, pid, i, f) by {
        if i: nat :| i < UPPER && Hit(links, pid, i, f) {
          assert OnDiagonal(links, pid, i, f);
        }
        if i: nat :| OnDiagonal(links, pid, i, f) {
          assert Hit(links, pid, i, f);
        }
      }
      PagesSettle(links, pid, counts[f], now, f);
    }
  }

  /** The tables of a process lie below the kernel's part. */
  ghost predicate Tables(links: Links, pid: nat) {
    forall r :: r in links && r.Table? && r.pid == pid ==> r.index < UPPER
  }

  lemma PagesSettle(links: Links, pid: nat, count: nat, now: nat, f: nat)
    requires count == Count(links, f) && forall r :: r in links && links[r] == f && r.pid == pid ==> r.Page?
    requires now == if exists i: nat :: OnDiagonal(links, pid, i, f) then 0 else count
    ensures now == Count(Others(links, pid), f) <==>
      (forall p: nat :: Page(pid, p) in links && links[Page(pid, p)] == f ==> Spent(links, pid, f))
  {
    hide Count, Diagonal;
    OthersCount(links, pid, f);
    if r :| r in links && links[r] == f && r.pid == pid {
      assert r == Page(pid, r.page);
    } else {
      assert !exists i: nat :: OnDiagonal(links, pid, i, f);
    }
  }

  lemma OwnTables(links: Links, pages: seq<seq<Entry>>, dirs: map<nat, nat>, pid: nat)
    requires Coherent(links, pages, dirs) && pid != KERNEL
    ensures Tables(links, pid)
  {}

  /** After the loop and the release of the directory. */
  ghost predicate TornDown(links: Links, pid: nat, counts: seq<nat>, now: seq<nat>) {
    && |now| == |counts|
    && forall f: nat :: f < |counts| ==>
         now[f] ==
           if HitBelow(links, pid, UPPER, f) || (Dir(pid) in links && links[Dir(pid)] == f) then 0 else counts[f]
  }

  /** The counts are exact again exactly when the process was tidy. */
  lemma BalancedExactly(links: Links, pid: nat, counts: seq<nat>, now: seq<nat>)
    requires Sole(links) && Balanced(links, counts, NONE) && Tables(links, pid) && TornDown(links, pid, counts, now)
    ensures Balanced(Others(links, pid), now, NONE) <==> Tidy(links, pid)
  {
    hide Count, HitBelow, Spent;
    forall f: nat | f < |counts|
      ensures now[f] == Count(Others(links, pid), f) <==>
        (forall p: nat :: Page(pid, p) in links && links[Page(pid, p)] == f ==> Spent(links, pid, f))
    {
      FrameSettled(links, pid, counts, now[f], f);
    }
    if Tidy(links, pid) {
      forall f: nat | f < |now| ensures now[f] == Count(Others(links, pid), f) {}
    }
    if Balanced(Others(links, pid), now, NONE) {
      forall p: nat | Page(pid, p) in links ensures Spent(links, pid, links[Page(pid, p)]) {
        var f := links[Page(pid, p)];
        assert now[f] == Count(Others(links, pid), f);
      }
    }
  }

  lemma LastRelease(links: Links, pid: nat, counts: seq<nat>, now: seq<nat>, next: seq<nat>, d: nat)
    requires Torn(links, pid, counts, now, UPPER) && |next| == |now| && Dir(pid) in links && links[Dir(pid)] == d
    requires Sole(links) && Balanced(links, counts, NONE) && d < |counts|
    requires forall f: nat :: f < |now| ==> next[f] == if f == d then Less(now[f], 1) else now[f]
    ensures TornDown(links, pid, counts, next)
  {
    hide HitBelow;
    NotHitYet(links, pid, Dir(pid), UPPER);
    OneCount(links, counts, Dir(pid));
  }

  /** All of a process's references go, but the counts are what they should be afterwards, and the
      memory in order, exactly when the process was tidy. */
  method DirDestroy(mem: Spaces, pid: nat)
    requires mem.Valid() && pid in mem.spaces && pid != KERNEL
    modifies mem, mem.pool.Footprint()
    ensures mem.pool.Valid() && mem.spaces == old(mem.spaces) - {pid} && mem.links == Others(old(mem.links), pid)
    ensures TornDown(old(mem.links), pid, old(mem.pool.View().counts), mem.pool.View().counts)
    ensures mem.Valid() <==> Tidy(old(mem.links), pid)
  {
    hide MemoryOk, FramePool.Valid, Torn, TornDown, Hit, HitBelow, KernelFull, Tidy;
    ghost var counts, links := mem.pool.View().counts, mem.links;
    var pool := mem.pool;
    Pieces(links, mem.pages, mem.spaces, counts, pid);
    TornNothing(links, pid, counts);
    var i := 0;
    while i != UPPER
      invariant 0 <= i <= UPPER && pool.Valid() && Torn(links, pid, counts, pool.View().counts, i)
      modifies pool.Footprint()
    {
      RoundFacts(links, mem.pages, mem.spaces, counts, pid, i);
      ghost var now := pool.View().counts;
      var de := mem.pages[mem.spaces[pid]][i];
      if de.Present? {
        StillOne(links, pid, counts, now, i);
        DestroyTable(pool, mem.pages[de.frame], i, de.frame);
      }
      TornMore(links, pid, counts, now, pool.View().counts, i);
      i := i + 1;
    }
    ghost var now := pool.View().counts;
    label L:
    var freed := pool.Release(mem.spaces[pid]);
    ReleasedCounts(old@L(pool.View()), mem.spaces[pid]);
    LastRelease(links, pid, counts, now, pool.View().counts, mem.spaces[pid]);
    Settled(links, mem.pages, mem.spaces, counts, pool.View().counts, pid);
    mem.spaces := mem.spaces - {pid};
    mem.links := Others(links, pid);
  }

  lemma Pieces(links: Links, pages: seq<seq<Entry>>, dirs: map<nat, nat>, counts: seq<nat>, pid: nat)
    requires MemoryOk(links, pages, dirs, counts, NONE) && pid in dirs
    ensures Sole(links) && Balanced(links, counts, NONE)
    ensures Dir(pid) in links && links[Dir(pid)] == dirs[pid] < |counts|
  {
    DirsApart(links, pages, dirs, pid);
  }

  lemma StillOne(links: Links, pid: nat, counts: seq<nat>, now: seq<nat>, i: nat)
    requires Torn(links, pid, counts, now, i) && Sole(links) && Balanced(links, counts, NONE) && Table(pid, i) in links
    ensures links[Table(pid, i)] < |now| && now[links[Table(pid, i)]] == 1
  {
    hide HitBelow;
    NotHitYet(links, pid, Table(pid, i), i);
    OneCount(links, counts, Table(pid, i));
  }

  lemma Settled(links: Links, pages: seq<seq<Entry>>, dirs: map<nat, nat>, counts: seq<nat>, now: seq<nat>, pid: nat)
    requires MemoryOk(links, pages, dirs, counts, NONE) && KernelFull(links) && pid != KERNEL
    requires TornDown(links, pid, counts, now)
    ensures MemoryOk(Others(links, pid), pages, dirs - {pid}, now, NONE) <==> Tidy(links, pid)
    ensures KernelFull(Others(links, pid))
  {
    hide TornDown, Tidy, Others, KernelFull, Count;
    OwnTables(links, pages, dirs, pid);
    OthersCoherent(links, pages, dirs, pid);
    LengthKept(links, pid, counts, now);
    BalancedExactly(links, pid, counts, now);
  }

  lemma LengthKept(links: Links, pid: nat, counts: seq<nat>, now: seq<nat>)
    requires TornDown(links, pid, counts, now)
    ensures |now| == |counts|
  {}

  // ----- What goes wrong -----

  /** A page off the diagonal leaves a frame with a count and no reference. */
  lemma PageLeaks(links: Links, pid: nat, counts: seq<nat>, now: seq<nat>, p: nat)
    requires Balanced(links, counts, NONE) && TornDown(links, pid, counts, now)
    requires Page(pid, p) in links && DirIndex(p) != TblIndex(p)
    requires forall q :: q in links && links[q] == links[Page(pid, p)] ==> q == Page(pid, p)
    ensures links[Page(pid, p)] < |now| && now[links[Page(pid, p)]] == 1
    ensures forall q :: q in Others(links, pid) ==> Others(links, pid)[q] != links[Page(pid, p)]
  {
    hide DirIndex, TblIndex, Diagonal;
    var f := links[Page(pid, p)];
    assert RefsTo(links, f) == {Page(pid, p)};
    forall i: nat ensures i < UPPER ==> !Hit(links, pid, i, f) {}
  }

  /** A page on the diagonal that another process shares leaves that one a frame without a count. */
  lemma PageDangles(links: Links, pid: nat, counts: seq<nat>, now: seq<nat>, i: nat, q: Ref)
    requires Balanced(links, counts, NONE) && TornDown(links, pid, counts, now)
    requires i < UPPER && Page(pid, Diagonal(i)) in links
    requires q in links && q.pid != pid && links[q] == links[Page(pid, Diagonal(i))]
    ensures q in Others(links, pid) && Others(links, pid)[q] < |now| && now[Others(links, pid)[q]] == 0
  {
    hide Diagonal;
    assert OnDiagonal(links, pid, i, links[q]) && Hit(links, pid, i, links[q]);
  }
}
