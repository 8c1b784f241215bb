/** The address spaces of all processes: page tables kept in counted frames, and the range
    operations on them (kernel/core/memory/virtual.c). */
module AddressSpaces {
  import opened Paging
  import opened Frames
  import BmStacks

  const PAGE := 4096
  const WORD := 0x1_0000_0000

  /** Where the kernel's part ends and a directory's view of its own tables begins. */
  const TOP := 0xFFC0_0000

  /** Where the kernel's part begins. */
  const KERNEL_BASE := 0xC000_0000

  // ----- Ranges of pages -----

  /** The first page that a range starting at `virt` touches. */
  function First(virt: nat): nat {
    virt / PAGE
  }

  /** Where a range ends, in 32 bits. */
  function End(virt: nat, size: nat): nat {
    (virt + size) % WORD
  }

  /** One past the last page that a range reaches; a range that wraps around may reach none. */
  function Limit(virt: nat, size: nat): (limit: nat)
    ensures First(virt) <= limit
  {
    if (End(virt, size) + PAGE - 1) / PAGE <= First(virt) then First(virt) else (End(virt, size) + PAGE - 1) / PAGE
  }

  /** One past the last page that is looked at: the first page always is. */
  function Checked(virt: nat, size: nat): nat {
    if Limit(virt, size) == First(virt) then First(virt) + 1 else Limit(virt, size)
  }

  /** A range in 32 bits that stays below the directories' views of their own tables. */
  predicate Ranged(virt: nat, size: nat) {
    0 < size < WORD && virt < TOP && End(virt, size) <= TOP
  }

  /** A range in 32 bits that stays below the last page, behind which a loop starts again at zero. */
  predicate Spaced(virt: nat, size: nat) {
    0 < size < WORD && virt < WORD - PAGE && End(virt, size) <= WORD - PAGE
  }

  lemma EndCases(virt: nat, size: nat)
    requires virt < WORD && size < WORD
    ensures End(virt, size) == if virt + size < WORD then virt + size else virt + size - WORD
  {}

  lemma LimitMeans(virt: nat, size: nat, p: nat)
    requires Spaced(virt, size) && First(virt) <= p
    ensures p * PAGE < End(virt, size) <==> p < Limit(virt, size)
    ensures First(virt) < SPACE && Limit(virt, size) <= SPACE
    ensures Ranged(virt, size) ==> First(virt) < PAGES && Limit(virt, size) <= PAGES
    ensures virt + size < WORD ==> First(virt) < Limit(virt, size)
  {
    EndCases(virt, size);
    var e := End(virt, size);
    hide End;
    PageEnds(e, p);
    PageEnds(e, First(virt));
    hide First;
    assert First(virt) * PAGE <= virt < First(virt) * PAGE + PAGE by { PageStarts(virt); }
  }

  lemma PageStarts(virt: nat)
    ensures First(virt) * PAGE <= virt < First(virt) * PAGE + PAGE
  {}

  lemma PageEnds(e: nat, p: nat)
    ensures p * PAGE < e <==> p < (e + PAGE - 1) / PAGE
    ensures e <= TOP ==> (e + PAGE - 1) / PAGE <= PAGES
    ensures e <= WORD ==> (e + PAGE - 1) / PAGE <= SPACE
  {}

  /** An aligned range reaches its own pages, or none if it wraps around. */
  lemma AlignedRange(virt: nat, size: nat)
    requires virt % PAGE == 0 && size % PAGE == 0 && Ranged(virt, size)
    ensures Limit(virt, size) == First(virt) + if virt + size < WORD then size / PAGE else 0
    ensures 0 < size / PAGE && (virt + size <= KERNEL_BASE <==> First(virt) + size / PAGE <= KERNEL_PAGE)
  {
    EndCases(virt, size);
    var p, n := virt / PAGE, size / PAGE;
    assert virt == p * PAGE && size == n * PAGE;
    if virt + size < WORD {
      PageCount(p + n);
    } else {
      PageCount(p + n - WORD / PAGE);
    }
  }

  /** How many pages a look at an aligned range takes in: its own, or the first if it wraps around. */
  function Looked(virt: nat, size: nat): nat {
    if virt + size < 0x1_0000_0000 then size / 4096 else 1
  }

  lemma CheckedExactly(virt: nat, size: nat)
    requires virt % PAGE == 0 && size % PAGE == 0 && virt < WORD && 0 < size < WORD
    ensures First(virt) == virt / 4096 && Checked(virt, size) == virt / 4096 + Looked(virt, size)
  {
    EndCases(virt, size);
    var v, n := virt / PAGE, size / PAGE;
    assert virt == PAGE * v && size == PAGE * n;
    var e := End(virt, size);
    assert e == PAGE * (if virt + size < WORD then v + n else v + n - 0x10_0000);
    hide End;
    PageCount(if virt + size < WORD then v + n else v + n - 0x10_0000);
  }

  /** All, or none, of the pages that a look at the range takes in are there. */
  ghost predicate AllPresent(links: Links, pid: nat, virt: nat, size: nat) {
    forall p :: virt / 4096 <= p < virt / 4096 + Looked(virt, size) ==> Home(pid, p) in links
  }

  ghost predicate NonePresent(links: Links, pid: nat, virt: nat, size: nat) {
    forall p :: virt / 4096 <= p < virt / 4096 + Looked(virt, size) ==> Home(pid, p) !in links
  }

  lemma PresentExactly(links: Links, pid: nat, virt: nat, size: nat)
    requires virt % PAGE == 0 && size % PAGE == 0 && virt < WORD && 0 < size < WORD
    ensures AllPresent(links, pid, virt, size) <==> Span(pid, First(virt), Checked(virt, size)) <= links.Keys
    ensures NonePresent(links, pid, virt, size) <==> Span(pid, First(virt), Checked(virt, size)) !! links.Keys
  {
    CheckedExactly(virt, size);
    hide Checked, First, Looked, Home;
  }

  lemma PageCount(n: nat)
    ensures (n * PAGE + PAGE - 1) / PAGE == n
  {}

  ghost function Span(pid: nat, lo: nat, hi: nat): set<Ref> {
    set p: nat | lo <= p < hi :: Home(pid, p)
  }

  // ----- Sharing on the flat map -----

  ghost function ShareOne(m: Links, to: Ref, from: Ref): Links {
    if from in m && to !in m then m[to := m[from]] else m
  }

  /** Share `n` pages one after the other; missing sources and occupied targets are skipped. */
  ghost function Shared(m: Links, dest: nat, src: nat, d: nat, s: nat, n: nat): Links
    decreases n
  {
    if n == 0 then m
    else ShareOne(Shared(m, dest, src, d, s, n - 1), Home(dest, d + n - 1), Home(src, s + n - 1))
  }

  /** The source page for target page `p`, when `d` takes over from `s`. */
  ghost function Source(src: nat, s: nat, d: nat, p: nat): Ref
    requires d <= p
  {
    Home(src, p - d + s)
  }

  lemma SpanMore(pid: nat, lo: nat, hi: nat)
    requires lo <= hi
    ensures Span(pid, lo, hi + 1) == Span(pid, lo, hi) + {Home(pid, hi)} && Home(pid, hi) !in Span(pid, lo, hi)
  {}

  lemma InSpan(pid: nat, lo: nat, hi: nat, p: nat)
    ensures Home(pid, p) in Span(pid, lo, hi) <==> lo <= p < hi
  {}

  /** Between ranges that have no page in common every page is shared on its own. */
  lemma {:induction false} SharedPointwise(m: Links, dest: nat, src: nat, d: nat, s: nat, n: nat)
    requires Span(dest, d, d + n) !! Span(src, s, s + n)
    ensures
      var t := Shared(m, dest, src, d, s, n);
      && (forall r :: r in m ==> r in t && t[r] == m[r])
      && (forall r :: r in t && r !in m ==> r in Span(dest, d, d + n))
      && (forall p: nat :: d <= p < d + n && Home(dest, p) !in m ==>
            if Source(src, s, d, p) in m then Home(dest, p) in t && t[Home(dest, p)] == m[Source(src, s, d, p)]
            else Home(dest, p) !in t)
  {
    hide Home;
    if n > 0 {
      SpanMore(dest, d, d + n - 1);
      SpanMore(src, s, s + n - 1);
      hide Span;
      SharedPointwise(m, dest, src, d, s, n - 1);
      var t := Shared(m, dest, src, d, s, n - 1);
      assert Home(src, s + n - 1) in t <==> Home(src, s + n - 1) in m;
      assert Home(dest, d + n - 1) in t <==> Home(dest, d + n - 1) in m;
      forall p: nat | d <= p < d + n - 1 ensures Home(dest, p) != Home(dest, d + n - 1) {
        InSpan(dest, d, d + n - 1, p);
      }
    }
  }

  // ----- Moving on the flat map -----

  /** Move `n` pages one after the other. */
  ghost function Moved(m: Links, dest: nat, src: nat, d: nat, s: nat, n: nat): Links
    decreases n
  {
    if n == 0 then m
    else
      var t := Moved(m, dest, src, d, s, n - 1);
      var from := Home(src, s + n - 1);
      if from in t then (t - {from})[Home(dest, d + n - 1) := t[from]] else t
  }

  /** The source range is full and the target range empty. */
  ghost predicate Movable(m: Links, dest: nat, src: nat, d: nat, s: nat, n: nat) {
    Span(src, s, s + n) <= m.Keys && Span(dest, d, d + n) !! m.Keys
  }

  /** `t` is `m` with the source range moved to the target range. */
  ghost predicate IsMoved(m: Links, t: Links, dest: nat, src: nat, d: nat, s: nat, n: nat)
    requires Movable(m, dest, src, d, s, n)
  {
    && (forall r :: r in t <==> r in Span(dest, d, d + n) || (r in m && r !in Span(src, s, s + n)))
    && (forall r :: r in m && r in t ==> t[r] == m[r])
    && (forall p: nat :: d <= p < d + n ==> Carries(m, t, Home(dest, p), Source(src, s, d, p)))
  }

  ghost predicate Carries(m: Links, t: Links, to: Ref, from: Ref) {
    to in t && from in m && t[to] == m[from]
  }

  lemma {:induction false} MovedPointwise(m: Links, dest: nat, src: nat, d: nat, s: nat, n: nat)
    requires Movable(m, dest, src, d, s, n)
    ensures IsMoved(m, Moved(m, dest, src, d, s, n), dest, src, d, s, n)
  {
    hide Home, Movable, IsMoved;
    if n == 0 {
      NothingMoved(m, dest, src, d, s);
    } else {
      MovableLess(m, dest, src, d, s, n - 1);
      MovedPointwise(m, dest, src, d, s, n - 1);
      MoveOneMore(m, Moved(m, dest, src, d, s, n - 1), dest, src, d, s, n - 1);
    }
  }

  lemma NothingMoved(m: Links, dest: nat, src: nat, d: nat, s: nat)
    requires Movable(m, dest, src, d, s, 0)
    ensures IsMoved(m, m, dest, src, d, s, 0)
  {}

  lemma MovableLess(m: Links, dest: nat, src: nat, d: nat, s: nat, n: nat)
    requires Movable(m, dest, src, d, s, n + 1)
    ensures Movable(m, dest, src, d, s, n)
  {
    hide Home;
    SpanMore(dest, d, d + n);
    SpanMore(src, s, s + n);
    hide Span;
  }

  lemma MoveOneMore(m: Links, t: Links, dest: nat, src: nat, d: nat, s: nat, n: nat)
    requires Movable(m, dest, src, d, s, n) && Movable(m, dest, src, d, s, n + 1) && IsMoved(m, t, dest, src, d, s, n)
    ensures Home(src, s + n) in t
    ensures IsMoved(m, (t - {Home(src, s + n)})[Home(dest, d + n) := t[Home(src, s + n)]], dest, src, d, s, n + 1)
  {
    hide Home;
    var from, to := Home(src, s + n), Home(dest, d + n);
    SpanMore(dest, d, d + n);
    SpanMore(src, s, s + n);
    var u := (t - {from})[to := t[from]];
    forall p: nat | d <= p < d + n ensures Carries(m, u, Home(dest, p), Source(src, s, d, p)) {
      InSpan(dest, d, d + n, p);
      assert Carries(m, t, Home(dest, p), Source(src, s, d, p));
    }
    assert Carries(m, u, to, Source(src, s, d, d + n));
    hide Span, Carries;
  }

  lemma IsMovedUnique(m: Links, t: Links, u: Links, dest: nat, src: nat, d: nat, s: nat, n: nat)
    requires Movable(m, dest, src, d, s, n)
    requires IsMoved(m, t, dest, src, d, s, n) && IsMoved(m, u, dest, src, d, s, n)
    ensures t == u
  {
    hide Home;
    forall r | r in t ensures r in u && t[r] == u[r] {
      if r in Span(dest, d, d + n) {
        var p: nat :| d <= p < d + n && r == Home(dest, p);
        assert Carries(m, t, Home(dest, p), Source(src, s, d, p));
        assert Carries(m, u, Home(dest, p), Source(src, s, d, p));
      }
    }
    assert t.Keys == u.Keys;
  }

  /** Moving pages to free places changes no frame's count. */
  lemma {:induction false} MovedKeepsCounts(m: Links, dest: nat, src: nat, d: nat, s: nat, n: nat)
    requires Movable(m, dest, src, d, s, n)
    ensures forall g: nat :: Count(Moved(m, dest, src, d, s, n), g) == Count(m, g)
  {
    hide Home, Count;
    if n > 0 {
      SpanMore(dest, d, d + n - 1);
      SpanMore(src, s, s + n - 1);
      hide Span;
      MovedKeepsCounts(m, dest, src, d, s, n - 1);
      MovedPointwise(m, dest, src, d, s, n - 1);
      var t := Moved(m, dest, src, d, s, n - 1);
      var from, to := Home(src, s + n - 1), Home(dest, d + n - 1);
      assert from in t && to !in t;
      hide IsMoved, Movable;
      CountRemove(t, from);
      CountAdd(t - {from}, to, t[from]);
    }
  }

  /** A frame that a page refers to is neither a table nor a directory, so its count is its pages'. */
  lemma PageFrameCount(links: Links, f: nat)
    requires Sole(links) && Count(Flat(links), f) > 0
    ensures Count(links, f) == Count(Flat(links), f)
  {
    assert RefsTo(Flat(links), f) != {};
    var r :| r in RefsTo(Flat(links), f);
    assert RefsTo(Flat(links), f) == RefsTo(links, f);
  }

  /** Sharing a full range into an empty one and unmapping the source is a move. */
  lemma ShareUnmapIsMove(m: Links, dest: nat, src: nat, d: nat, s: nat, n: nat)
    requires Movable(m, dest, src, d, s, n)
    ensures IsMoved(m, Shared(m, dest, src, d, s, n) - Span(src, s, s + n), dest, src, d, s, n)
  {
    hide Home, Shared;
    SharedPointwise(m, dest, src, d, s, n);
    var t := Shared(m, dest, src, d, s, n) - Span(src, s, s + n);
    forall p: nat | d <= p < d + n ensures Carries(m, t, Home(dest, p), Source(src, s, d, p)) {
      InSpan(dest, d, d + n, p);
      InSpan(src, s, s + n, p - d + s);
    }
    forall r | r in Span(dest, d, d + n) ensures r in t {
      var p: nat :| d <= p < d + n && r == Home(dest, p);
      assert Carries(m, t, Home(dest, p), Source(src, s, d, p));
    }
  }

  // ----- The frames that mapping takes -----

  /** The table that a page needs. */
  function TableOf(r: Ref): Ref {
    if r.Page? then Table(r.pid, DirIndex(r.page)) else r
  }

  ghost predicate AllPages(pages: set<Ref>) {
    forall r :: r in pages ==> r.Page?
  }

  /** The tables that have to be made for `pages` when there are `keys`. */
  ghost function NewTables(keys: set<Ref>, pages: set<Ref>): set<Ref> {
    (set r | r in pages && r !in keys :: TableOf(r)) - keys
  }

  /** The frames for new pages and their tables. */
  ghost function Need(keys: set<Ref>, pages: set<Ref>): nat {
    |pages - keys| + |NewTables(keys, pages)|
  }

  function Cost(keys: set<Ref>, r: Ref): nat {
    if TableOf(r) in keys then 0 else 1
  }

  /** The references once `pages` are there. */
  ghost function Grown(keys: set<Ref>, pages: set<Ref>): set<Ref> {
    keys + pages + NewTables(keys, pages)
  }

  lemma TablesAdd(keys: set<Ref>, pages: set<Ref>, r: Ref)
    ensures r in keys ==> NewTables(keys, pages + {r}) == NewTables(keys, pages)
    ensures r !in keys ==> NewTables(keys, pages + {r}) == NewTables(keys, pages) + ({TableOf(r)} - keys)
  {}

  lemma TableOnly(keys: set<Ref>, pages: set<Ref>, r: Ref)
    requires AllPages(pages) && r.Page?
    ensures r !in NewTables(keys, pages)
  {}

  /** One page more needs no table that has been made already. */
  lemma TablesMore(keys: set<Ref>, pages: set<Ref>, r: Ref)
    requires AllPages(pages) && r.Page? && r !in keys
    ensures Grown(keys, pages + {r}) == Grown(keys, pages) + {r, TableOf(r)}
    ensures |NewTables(keys, pages + {r})| == |NewTables(keys, pages)| + Cost(Grown(keys, pages), r)
  {
    hide NewTables, TableOf;
    var t, tables := TableOf(r), NewTables(keys, pages);
    TablesAdd(keys, pages, r);
    assert t.Table? by {
      TableOfPage(r);
    }
    if t in keys || t in tables {
      assert tables + ({t} - keys) == tables;
    } else {
      assert tables + ({t} - keys) == tables + {t};
    }
  }

  lemma TableOfPage(r: Ref)
    requires r.Page?
    ensures TableOf(r).Table?
  {}

  lemma NeedMore(keys: set<Ref>, pages: set<Ref>, r: Ref)
    requires AllPages(pages) && r.Page? && r !in pages
    ensures r in Grown(keys, pages) <==> r in keys
    ensures r in keys ==>
      Grown(keys, pages + {r}) == Grown(keys, pages) && Need(keys, pages + {r}) == Need(keys, pages)
    ensures r !in keys ==>
      && Grown(keys, pages + {r}) == Grown(keys, pages) + {r, TableOf(r)}
      && Need(keys, pages + {r}) == Need(keys, pages) + 1 + Cost(Grown(keys, pages), r)
  {
    hide NewTables, TableOf, Cost;
    TableOnly(keys, pages, r);
    TablesAdd(keys, pages, r);
    if r in keys {
      assert (pages + {r}) - keys == pages - keys;
    } else {
      TablesMore(keys, pages, r);
      assert (pages + {r}) - keys == (pages - keys) + {r};
    }
  }

  lemma NeedGrows(keys: set<Ref>, some: set<Ref>, all: set<Ref>)
    requires some <= all
    ensures Need(keys, some) <= Need(keys, all) && |NewTables(keys, some)| <= |NewTables(keys, all)|
  {
    Smaller(some - keys, all - keys);
    assert NewTables(keys, some) <= NewTables(keys, all);
    Smaller(NewTables(keys, some), NewTables(keys, all));
  }

  lemma Smaller(a: set<Ref>, b: set<Ref>)
    requires a <= b
    ensures |a| <= |b|
  {
    assert b == a + (b - a);
  }

  lemma NeedNothing(keys: set<Ref>)
    ensures NewTables(keys, {}) == {} && Need(keys, {}) == 0 && Grown(keys, {}) == keys
  {}

  lemma SpanPages(pid: nat, lo: nat, hi: nat)
    requires hi <= PAGES
    ensures AllPages(Span(pid, lo, hi))
  {}

  // ----- Sharing that fits -----

  /** Out of frames, or the frame of a source page has its 8-bit count at the limit: the kernel stops
      at an assertion. */
  ghost predicate Stuck(p: Pool, links: Links, src: nat, lo: nat, hi: nat) {
    p.empty || exists q: nat :: lo <= q < hi && FullPage(p, links, Home(src, q))
  }

  ghost predicate FullPage(p: Pool, links: Links, r: Ref) {
    r in links && links[r] < |p.counts| && p.counts[links[r]] == COUNT_MAX
  }

  /** No frame gets more references than its 8-bit count can hold. */
  ghost predicate Countable(m: Links) {
    forall f: nat :: Count(m, f) <= 255
  }

  ghost function Added(m: Links, dest: nat, src: nat, d: nat, s: nat, n: nat): set<Ref> {
    Shared(m, dest, src, d, s, n).Keys - m.Keys
  }

  /** All counts can be held, and there are frames for the tables. */
  ghost predicate ShareFits(m: Links, keys: set<Ref>, avail: nat, dest: nat, src: nat, d: nat, s: nat, n: nat) {
    Countable(Shared(m, dest, src, d, s, n)) && |NewTables(keys, Added(m, dest, src, d, s, n))| <= avail
  }

  lemma {:induction false} SharedGrows(m: Links, dest: nat, src: nat, d: nat, s: nat, i: nat, n: nat)
    requires i <= n
    ensures
      var a, b := Shared(m, dest, src, d, s, i), Shared(m, dest, src, d, s, n);
      a.Keys <= b.Keys && forall r :: r in a ==> b[r] == a[r]
    decreases n
  {
    hide Home;
    if i < n {
      SharedGrows(m, dest, src, d, s, i, n - 1);
    }
  }

  lemma CountGrows(a: Links, b: Links, f: nat)
    requires a.Keys <= b.Keys && forall r :: r in a ==> b[r] == a[r]
    ensures Count(a, f) <= Count(b, f)
  {
    assert RefsTo(a, f) <= RefsTo(b, f);
    Smaller(RefsTo(a, f), RefsTo(b, f));
  }

  /** A share that stops at step `i` did not fit. */
  lemma ShareStops(m: Links, keys: set<Ref>, avail: nat, dest: nat, src: nat, d: nat, s: nat, i: nat, n: nat)
    requires i <= n && !ShareFits(m, keys, avail, dest, src, d, s, i)
    ensures !ShareFits(m, keys, avail, dest, src, d, s, n)
  {
    hide Shared, Count;
    SharedGrows(m, dest, src, d, s, i, n);
    var a, b := Shared(m, dest, src, d, s, i), Shared(m, dest, src, d, s, n);
    if !Countable(a) {
      var f: nat :| Count(a, f) > COUNT_MAX;
      CountGrows(a, b, f);
    } else {
      NeedGrows(keys, a.Keys - m.Keys, b.Keys - m.Keys);
    }
  }

  /** The next page of a share has no source, or its target is occupied. */
  ghost predicate Skipped(m: Links, dest: nat, src: nat, d: nat, s: nat, i: nat) {
    var t := Shared(m, dest, src, d, s, i);
    Home(src, s + i) !in t || Home(dest, d + i) in t
  }

  lemma SharedStep(m: Links, dest: nat, src: nat, d: nat, s: nat, i: nat)
    ensures
      Shared(m, dest, src, d, s, i + 1) == ShareOne(Shared(m, dest, src, d, s, i), Home(dest, d + i), Home(src, s + i))
  {}

  lemma AddedMore(m: Links, dest: nat, src: nat, d: nat, s: nat, i: nat)
    requires d + i < PAGES
    ensures
      var added, next := Added(m, dest, src, d, s, i), Added(m, dest, src, d, s, i + 1);
      && AllPages(added) && Home(dest, d + i).Page?
      && (Skipped(m, dest, src, d, s, i) ==> next == added)
      && (!Skipped(m, dest, src, d, s, i) ==> next == added + {Home(dest, d + i)})
  {
    hide Shared;
    AddedPages(m, dest, src, d, s, i);
    SharedStep(m, dest, src, d, s, i);
  }

  lemma {:induction false} AddedPages(m: Links, dest: nat, src: nat, d: nat, s: nat, i: nat)
    requires d + i <= PAGES
    ensures AllPages(Added(m, dest, src, d, s, i)) && m.Keys <= Shared(m, dest, src, d, s, i).Keys
    decreases i
  {
    if i > 0 {
      AddedPages(m, dest, src, d, s, i - 1);
    }
  }

  lemma NothingShared(m: Links, keys: set<Ref>, dest: nat, src: nat, d: nat, s: nat)
    ensures Shared(m, dest, src, d, s, 0) == m && Added(m, dest, src, d, s, 0) == {}
    ensures Grown(keys, Added(m, dest, src, d, s, 0)) == keys && NewTables(keys, Added(m, dest, src, d, s, 0)) == {}
  {
    assert Added(m, dest, src, d, s, 0) == {};
    NeedNothing(keys);
  }

  lemma Keys(links: Links, r: Ref)
    ensures r.Page? ==> (r in links <==> r in Flat(links)) && (r in links ==> links[r] == Flat(links)[r])
  {}

  lemma Fits(m: Links, keys: set<Ref>, avail: nat, dest: nat, src: nat, d: nat, s: nat, n: nat)
    requires Countable(Shared(m, dest, src, d, s, n)) && |NewTables(keys, Added(m, dest, src, d, s, n))| <= avail
    ensures ShareFits(m, keys, avail, dest, src, d, s, n)
  {}

  /** What the next page of a share adds to the references. */
  lemma ShareStep(links: Links, dest: nat, src: nat, d: nat, s: nat, i: nat)
    requires d + i < PAGES
    ensures
      var m, now := Flat(links), Grown(links.Keys, Added(Flat(links), dest, src, d, s, i));
      var next := Added(m, dest, src, d, s, i + 1);
      && (Skipped(m, dest, src, d, s, i) ==> next == Added(m, dest, src, d, s, i))
      && (!Skipped(m, dest, src, d, s, i) ==>
            && Grown(links.Keys, next) == now + {Home(dest, d + i), TableOf(Home(dest, d + i))}
            && |NewTables(links.Keys, next)| ==
               |NewTables(links.Keys, Added(m, dest, src, d, s, i))| + Cost(now, Home(dest, d + i)))
  {
    hide NewTables, Cost, Home, Added, TableOf, Grown, Shared, AllPages;
    AddedMore(Flat(links), dest, src, d, s, i);
    AddedFresh(links, dest, src, d, s, i);
    if !Skipped(Flat(links), dest, src, d, s, i) {
      TablesMore(links.Keys, Added(Flat(links), dest, src, d, s, i), Home(dest, d + i));
    }
  }

  /** A page whose count is at its limit, or that has no frame for its table, does not fit. */
  lemma StepFails(links: Links, avail: nat, dest: nat, src: nat, d: nat, s: nat, i: nat)
    requires d + i < PAGES && !Skipped(Flat(links), dest, src, d, s, i)
    requires
      var m := Shared(Flat(links), dest, src, d, s, i);
      || Count(m, m[Home(src, s + i)]) >= COUNT_MAX
      || |NewTables(links.Keys, Added(Flat(links), dest, src, d, s, i + 1))| > avail
    ensures !ShareFits(Flat(links), links.Keys, avail, dest, src, d, s, i + 1)
  {
    hide Count, NewTables, Added, Home;
    var m := Shared(Flat(links), dest, src, d, s, i);
    CountOver(m, Home(dest, d + i), Home(src, s + i));
  }

  lemma AddedFresh(links: Links, dest: nat, src: nat, d: nat, s: nat, i: nat)
    requires d + i < PAGES
    ensures
      var m, to := Shared(Flat(links), dest, src, d, s, i), Home(dest, d + i);
      to !in m ==> to !in links && to !in Added(Flat(links), dest, src, d, s, i)
  {
    AddedPages(Flat(links), dest, src, d, s, i);
    Keys(links, Home(dest, d + i));
  }

  /** A count at its limit cannot take one more page. */
  lemma CountOver(m: Links, to: Ref, from: Ref)
    requires from in m && to !in m
    ensures Count(m, m[from]) >= COUNT_MAX ==> !Countable(m[to := m[from]])
  {
    hide Count;
    CountAdd(m, to, m[from]);
    assert Count(m[to := m[from]], m[from]) == Count(m, m[from]) + 1;
  }

  /** The counts that are kept hold the references of all pages. */
  lemma CountsHold(links: Links, pages: seq<seq<Entry>>, dirs: map<nat, nat>, p: Pool, reserved: set<nat>)
    requires MemoryOk(links, pages, dirs, p.counts, NONE) && PoolOk(p, reserved)
    ensures Countable(Flat(links))
  {
    forall f: nat ensures Count(Flat(links), f) <= COUNT_MAX {
      CountGrows(Flat(links), links, f);
      if f >= |p.counts| {
        assert RefsTo(links, f) == {};
      }
    }
  }

  /** The count of a page's frame is its number of pages. */
  lemma PageCountIs(links: Links, pages: seq<seq<Entry>>, dirs: map<nat, nat>, counts: seq<nat>, r: Ref)
    requires MemoryOk(links, pages, dirs, counts, NONE) && r in links && r.Page?
    ensures links[r] < |counts| && counts[links[r]] == Count(Flat(links), links[r])
  {
    CountPositive(Flat(links), r);
    PageFrameCount(links, links[r]);
  }

  // ----- Single pages -----

  /** No frame with a count lost or gained one, and nothing became free. */
  ghost predicate Steady(before: Pool, after: Pool) {
    && before.taken <= after.taken && |after.counts| == |before.counts|
    && forall g: nat :: g < |before.counts| && before.counts[g] > 0 ==> after.counts[g] == before.counts[g]
  }

  /** No directory or table sits in frame `f`. */
  ghost predicate Plain(links: Links, f: nat) {
    forall r :: r in links && links[r] == f ==> r.Page?
  }

  lemma TakenSteady(p: Pool, f: nat, reserved: set<nat>)
    requires PoolOk(p, reserved) && f < |p.counts| && f !in p.taken
    ensures Steady(p, Taken(p, f)) && p.counts[f] == 0 && Taken(p, f).counts == p.counts[f := 1]
  {}

  lemma CountedIsTaken(p: Pool, f: nat, reserved: set<nat>)
    requires PoolOk(p, reserved) && f < |p.counts| && p.counts[f] > 0
    ensures f in p.taken
  {}

  lemma LooseIsCounted(links: Links, pages: seq<seq<Entry>>, dirs: map<nat, nat>, counts: seq<nat>, loose: nat)
    requires MemoryOk(links, pages, dirs, counts, loose) && loose < |counts|
    ensures counts[loose] > 0
  {}

  lemma FlatTable(links: Links, pid: nat, i: nat, t: nat)
    ensures Flat(links[Table(pid, i) := t]) == Flat(links)
  {}

  lemma FlatPage(links: Links, r: Ref, f: nat)
    requires r.Page?
    ensures Flat(links[r := f]) == Flat(links)[r := f]
    ensures Flat(links - {r}) == Flat(links) - {r}
    ensures r in links <==> r in Flat(links)
    ensures r in links ==> links[r] == Flat(links)[r]
  {}

  /** Tables are never given up, and a page comes and goes without touching them. */
  lemma FullStays(links: Links, r: Ref, f: nat)
    requires KernelFull(links)
    ensures KernelFull(links[r := f]) && (r.Page? ==> KernelFull(links - {r}))
  {}

  /** What a new directory is filled with: itself, and the kernel's entries one after the other. */
  method NewDirectory(pages: seq<seq<Entry>>, dirs: map<nat, nat>, d: nat) returns (dir: seq<Entry>)
    requires KERNEL in dirs ==> dirs[KERNEL] < |pages| && |pages[dirs[KERNEL]]| == ENTRIES
    ensures dir == DirImage(pages, dirs, d)
  {
    dir := Blank()[WINDOW := Present(d)];
    if KERNEL in dirs {
      var i := UPPER;
      while i != WINDOW
        invariant UPPER <= i <= WINDOW && |dir| == ENTRIES
        invariant dir[WINDOW] == Present(d) && forall j :: 0 <= j < UPPER || i <= j < WINDOW ==> dir[j].Absent?
        invariant forall j :: UPPER <= j < i ==> dir[j] == pages[dirs[KERNEL]][j]
      {
        dir := dir[i := pages[dirs[KERNEL]][i]];
        i := i + 1;
      }
    }
  }

  /** `after` has all of `span`; what it adds lies in `span`, and every added page has a frame of
      its own that was not taken before. */
  ghost predicate Filled(before: Links, after: Links, span: set<Ref>, taken: set<nat>) {
    && after.Keys == before.Keys + span
    && (forall r :: r in before ==> r in after && after[r] == before[r])
    && (forall r :: r in after && r !in before ==> after[r] !in taken)
    && (forall r, q :: r in after && q in after && r !in before && q !in before && after[r] == after[q] ==> r == q)
  }

  lemma FilledNothing(m: Links, pid: nat, lo: nat, taken: set<nat>)
    ensures Filled(m, m, Span(pid, lo, lo), taken)
  {}

  lemma EmptySpan(pid: nat, lo: nat)
    ensures Span(pid, lo, lo) == {}
  {}

  lemma SpanGrows(pid: nat, lo: nat, mid: nat, hi: nat)
    requires mid <= hi
    ensures Span(pid, lo, mid) <= Span(pid, lo, hi)
  {}

  /** What one page more takes. */
  lemma SpanStep(keys: set<Ref>, pid: nat, lo: nat, p: nat)
    requires lo <= p < PAGES
    ensures
      var r, now := Home(pid, p), Grown(keys, Span(pid, lo, p));
      && (r in now ==>
            && Grown(keys, Span(pid, lo, p + 1)) == now
            && Need(keys, Span(pid, lo, p + 1)) == Need(keys, Span(pid, lo, p)))
      && (r !in now ==>
            && Grown(keys, Span(pid, lo, p + 1)) == now + {r, TableOf(r)}
            && Need(keys, Span(pid, lo, p + 1)) == Need(keys, Span(pid, lo, p)) + 1 + Cost(now, r))
  {
    hide Need, Grown, Cost, TableOf;
    SpanMore(pid, lo, p);
    SpanPages(pid, lo, p);
    NeedMore(keys, Span(pid, lo, p), Home(pid, p));
  }

  lemma SpanNeeds(keys: set<Ref>, pid: nat, lo: nat, mid: nat, hi: nat)
    requires mid <= hi
    ensures Need(keys, Span(pid, lo, mid)) <= Need(keys, Span(pid, lo, hi))
  {
    SpanGrows(pid, lo, mid, hi);
    NeedGrows(keys, Span(pid, lo, mid), Span(pid, lo, hi));
  }

  lemma SteadyOn(a: Pool, b: Pool, c: Pool)
    requires Steady(a, b) && Steady(b, c)
    ensures Steady(a, c) && a.taken <= b.taken <= c.taken
  {}

  lemma SteadyNothing(p: Pool)
    ensures Steady(p, p)
  {}

  lemma FilledAlready(before: Links, m: Links, pid: nat, lo: nat, p: nat, taken: set<nat>)
    requires Filled(before, m, Span(pid, lo, p), taken) && Home(pid, p) in m && lo <= p
    ensures Filled(before, m, Span(pid, lo, p + 1), taken)
  {
    SpanMore(pid, lo, p);
  }

  lemma FilledMore(before: Links, m: Links, pid: nat, lo: nat, p: nat, f: nat, taken: set<nat>, now: set<nat>)
    requires Filled(before, m, Span(pid, lo, p), taken) && Home(pid, p) !in m && lo <= p
    requires taken <= now && f !in now && forall r :: r in m && r !in before ==> m[r] in now
    ensures Filled(before, m[Home(pid, p) := f], Span(pid, lo, p + 1), taken)
  {
    SpanMore(pid, lo, p);
  }

  /** A frame that has just been taken is loose: it has a count and no reference. */
  lemma LooseFrame(links: Links, pages: seq<seq<Entry>>, dirs: map<nat, nat>, counts: seq<nat>, f: nat)
    requires MemoryOk(links, pages, dirs, counts, NONE) && f < |counts| && counts[f] == 0
    ensures MemoryOk(links, pages, dirs, counts[f := 1], f) && Plain(links, f)
  {
    CountZero(links, f);
  }

  /** A page's frame is plain and has room in its count only below the maximum. */
  lemma SharedFrame(links: Links, pages: seq<seq<Entry>>, dirs: map<nat, nat>, counts: seq<nat>, r: Ref)
    requires MemoryOk(links, pages, dirs, counts, NONE) && r in links && r.Page?
    ensures
      var f := links[r];
      && f < |counts| && counts[f] > 0 && Plain(links, f)
      && MemoryOk(links, pages, dirs, counts[f := counts[f] + 1], f)
  {
    CountPositive(links, r);
    hide Count;
  }

  lemma RetainedCounts(p: Pool, f: nat)
    requires f < |p.counts| && p.counts[f] > 0
    ensures Retained(p, f).counts == p.counts[f := p.counts[f] + 1]
  {}

  lemma PlainRefs(links: Links, f: nat)
    requires Plain(links, f)
    ensures forall r :: r in links && links[r] == f ==> r.Page?
  {}

  /** Outside the reserved frames, exactly the frames that nothing refers to are free. */
  lemma FreeExactly(links: Links, pages: seq<seq<Entry>>, dirs: map<nat, nat>, p: Pool, reserved: set<nat>, f: nat)
    requires MemoryOk(links, pages, dirs, p.counts, NONE) && PoolOk(p, reserved)
    requires f < |p.counts| && f !in reserved
    ensures f !in p.taken <==> forall r :: r in links ==> links[r] != f
  {
    if f !in p.taken {
      CountZero(links, f);
    } else {
      var r :| r in RefsTo(links, f);
      assert links[r] == f;
    }
  }

  class Spaces {
    const pool: FramePool
    var pages: seq<seq<Entry>>
    var spaces: map<nat, nat>
    ghost var links: Links

    /** The tables are in order, but the kernel's part need not be there yet. */
    ghost predicate Booting(loose: int)
      reads this, pool.Footprint()
    {
      pool.Valid() && MemoryOk(links, pages, spaces, pool.View().counts, loose)
    }

    ghost predicate ValidBut(loose: int)
      reads this, pool.Footprint()
    {
      Booting(loose) && KERNEL in spaces && KernelFull(links)
    }

    /** Every frame's count is its number of references, from whatever process. */
    ghost predicate Valid()
      reads this, pool.Footprint()
    {
      ValidBut(NONE)
    }

    constructor (pool: FramePool)
      requires pool.Valid() && forall f: nat :: f < pool.counts.Length ==> pool.counts[f] == 0
      ensures Booting(NONE) && this.pool == pool && spaces == map[] && links == map[]
    {
      this.pool := pool;
      pages := seq(pool.counts.Length, _ => Blank());
      spaces, links := map[], map[];
      new;
      assert forall f: nat :: RefsTo(links, f) == {};
    }

    /** A directory of its own for the kernel, or for a new process, which gets the kernel's part with it. */
    method DirCreate(pid: nat) returns (ok: bool)
      requires Booting(NONE) && pid !in spaces && (pid == KERNEL <==> KERNEL !in spaces)
      modifies this, pool.Footprint()
      ensures ok <==> old(Avail(pool.View())) > 0
      ensures !ok ==> pool.View().empty
      ensures ok ==> Avail(pool.View()) == old(Avail(pool.View())) - 1
      ensures ok ==> Booting(NONE) && spaces.Keys == old(spaces).Keys + {pid}
      ensures ok ==> links.Keys == old(links).Keys + {Dir(pid)} && (old(KernelFull(links)) ==> KernelFull(links))
      ensures ok ==> Flat(links) == old(Flat(links)) && Steady(old(pool.View()), pool.View())
    {
      hide MemoryOk, FramePool.Valid, FramePool.View, PoolOk, Taken, DirImage, KernelFull, Avail;
      Known();
      if pool.map_.head == BmStacks.NULL {
        return false;
      }
      var d := pool.Alloc();
      TakenAvail(old(pool.View()), d);
      TakenSteady(old(pool.View()), d, pool.reserved);
      DirAdded(links, pages, spaces, old(pool.View()).counts, pid, d);
      KernelAt(old(pool.View()).counts);
      var dir := NewDirectory(pages, spaces, d);
      if KernelFull(links) {
        FullStays(links, Dir(pid), d);
      }
      pages := pages[d := dir];
      spaces := spaces[pid := d];
      links := links[Dir(pid) := d];
      assert Flat(links) == old(Flat(links));
      ok := true;
    }

    lemma KernelAt(counts: seq<nat>)
      requires MemoryOk(links, pages, spaces, counts, NONE)
      ensures KERNEL in spaces ==> spaces[KERNEL] < |pages| && |pages[spaces[KERNEL]]| == ENTRIES
    {
      if KERNEL in spaces {
        WalkFacts(links, pages, spaces, counts, NONE, KERNEL, 0);
      }
    }

    /** Hang a new table into a directory where it has none of its own or the kernel's. */
    method AddTable(ghost loose: int, pid: nat, i: nat) returns (t: nat)
      requires Booting(loose) && pid in spaces && OwnEntry(pid, i) && Table(pid, i) !in links
      requires i < UPPER || spaces.Keys == {KERNEL}
      requires pool.map_.head != BmStacks.NULL && (0 <= loose ==> loose < pool.counts.Length)
      modifies this, pool.Footprint()
      ensures Booting(loose) && spaces == old(spaces) && links == old(links)[Table(pid, i) := t]
      ensures t < |pages| && (0 <= loose ==> t != loose)
      ensures old(Avail(pool.View())) > 0 && Avail(pool.View()) == old(Avail(pool.View())) - 1
      ensures Flat(links) == old(Flat(links)) && Steady(old(pool.View()), pool.View())
    {
      hide MemoryOk, FramePool.Valid, FramePool.View, PoolOk, Flat, Taken, Avail;
      ghost var counts := pool.View().counts;
      Known();
      if 0 <= loose {
        LooseIsCounted(links, pages, spaces, counts, loose);
        CountedIsTaken(pool.View(), loose, pool.reserved);
      }
      t := pool.Alloc();
      TakenAvail(old(pool.View()), t);
      TakenSteady(old(pool.View()), t, pool.reserved);
      TableAdded(links, pages, spaces, counts, loose, pid, i, t);
      FlatTable(links, pid, i, t);
      pages := Write(pages, spaces[pid], i, Present(t))[t := Blank()];
      links := links[Table(pid, i) := t];
    }

    /** The kernel's directory gets all the tables of its part, before any process has a directory. */
    method PagingInit() returns (ok: bool)
      requires Booting(NONE) && spaces == map[] && links == map[]
      modifies this, pool.Footprint()
      ensures ok <==> old(Avail(pool.View())) >= 1 + (WINDOW - UPPER)
      ensures !ok ==> pool.View().empty
      ensures ok ==> Valid() && spaces.Keys == {KERNEL} && Flat(links) == map[]
    {
      hide MemoryOk, FramePool.Valid, FramePool.View, Steady, Avail;
      ok := DirCreate(KERNEL);
      if !ok {
        return;
      }
      var i := UPPER;
      while i != WINDOW
        invariant UPPER <= i <= WINDOW && Booting(NONE) && spaces.Keys == {KERNEL} && Flat(links) == map[]
        invariant forall j :: UPPER <= j < WINDOW ==> (Table(KERNEL, j) in links <==> j < i)
        invariant Avail(pool.View()) == old(Avail(pool.View())) - 1 - (i - UPPER)
      {
        Known();
        if pool.map_.head == BmStacks.NULL {
          return false;
        }
        var t := AddTable(NONE, KERNEL, i);
        i := i + 1;
      }
    }

    /** The entry of one page, absent if it has no table. */
    method Lookup(ghost loose: int, pid: nat, page: nat) returns (e: Entry)
      requires ValidBut(loose) && pid in spaces && page < SPACE
      ensures ValidBut(loose) && Agrees(links, Home(pid, page), e)
    {
      hide MemoryOk, FramePool.Valid, FramePool.View;
      if page < PAGES {
        WalkFacts(links, pages, spaces, pool.View().counts, loose, pid, page);
      } else {
        WindowFacts(links, pages, spaces, pool.View().counts, loose, pid, page);
      }
      var de := pages[spaces[pid]][DirIndex(page)];
      if de.Absent? {
        return Absent;
      }
      e := pages[de.frame][TblIndex(page)];
    }

    /** Find the table for a page, creating it in a new frame if necessary;
        without a frame the kernel stops. */
    method TableFor(ghost loose: int, pid: nat, page: nat) returns (ok: bool, t: nat)
      requires ValidBut(loose) && pid in spaces && page < PAGES
      requires 0 <= loose ==> loose < pool.counts.Length
      modifies this, pool.Footprint()
      ensures ok <==> Cost(old(links).Keys, Home(pid, page)) <= old(Avail(pool.View()))
      ensures !ok ==> pool.View().empty
      ensures ok ==> Avail(pool.View()) == old(Avail(pool.View())) - Cost(old(links).Keys, Home(pid, page))
      ensures ok ==> ValidBut(loose) && spaces == old(spaces)
      ensures ok ==>
        var table := Table(Owner(pid, page), DirIndex(page));
        links.Keys == old(links).Keys + {table} && t == links[table] < |pages|
      ensures ok ==> Flat(links) == old(Flat(links)) && Steady(old(pool.View()), pool.View())
      ensures ok && 0 <= loose && old(Plain(links, loose)) ==> Plain(links, loose)
    {
      hide MemoryOk, FramePool.Valid, FramePool.View, PoolOk, Flat, Avail;
      WalkFacts(links, pages, spaces, pool.View().counts, loose, pid, page);
      var i := DirIndex(page);
      var de := pages[spaces[pid]][i];
      if de.Present? {
        assert links.Keys == links.Keys + {Table(Owner(pid, page), i)};
        return true, de.frame;
      }
      Known();
      if pool.map_.head == BmStacks.NULL {
        return false, 0;
      }
      assert Table(Owner(pid, page), i) !in links;
      ghost var before := links;
      t := AddTable(loose, pid, i);
      FullStays(before, Table(pid, i), t);
      ok := true;
    }

    lemma Known()
      requires pool.Valid()
      ensures PoolOk(pool.View(), pool.reserved) && pool.View().counts == pool.counts[..]
      ensures pool.View().empty <==> pool.map_.head == BmStacks.NULL
      ensures Avail(pool.View()) == 0 <==> pool.map_.head == BmStacks.NULL
    {
      pool.RoomLeft();
    }

    /** Point a page at a frame whose count already covers it; a present page is left alone. */
    method Map(pid: nat, page: nat, f: nat) returns (ok: bool, done: bool)
      requires f < pool.counts.Length && ValidBut(f) && Plain(links, f) && pid in spaces && page < PAGES
      modifies this, pool.Footprint()
      ensures ok <==> Cost(old(links).Keys, Home(pid, page)) <= old(Avail(pool.View()))
      ensures !ok ==> pool.View().empty
      ensures ok ==> Avail(pool.View()) == old(Avail(pool.View())) - Cost(old(links).Keys, Home(pid, page))
      ensures ok ==> links.Keys == old(links).Keys + {Home(pid, page), TableOf(Home(pid, page))}
      ensures done ==> ok
      ensures ok ==> spaces == old(spaces) && Steady(old(pool.View()), pool.View())
      ensures ok ==> (done <==> Home(pid, page) !in old(links))
      ensures done ==> Valid() && Flat(links) == old(Flat(links))[Home(pid, page) := f]
      ensures ok && !done ==> ValidBut(f) && Flat(links) == old(Flat(links))
    {
      hide MemoryOk, FramePool.Valid, FramePool.View, PoolOk, Flat, Plain, Steady, KernelFull, Avail, Cost;
      FlatPage(links, Home(pid, page), f);
      var t;
      ok, t := TableFor(f, pid, page);
      if !ok {
        return false, false;
      }
      FlatPage(links, Home(pid, page), f);
      WalkFacts(links, pages, spaces, pool.View().counts, f, pid, page);
      var te := pages[t][TblIndex(page)];
      done := te.Absent?;
      if done {
        Known();
        PlainRefs(links, f);
        PageSet(links, pages, spaces, pool.View().counts, Owner(pid, page), page, f);
        FullStays(links, Home(pid, page), f);
        pages := Write(pages, t, TblIndex(page), Present(f));
        links := links[Home(pid, page) := f];
      }
    }

    /** Clear a page and give up its count on the frame. */
    method Unmap(pid: nat, page: nat)
      requires Valid() && pid in spaces && page < PAGES
      modifies this, pool.Footprint()
      ensures Valid() && spaces == old(spaces) && links == old(links) - {Home(pid, page)}
    {
      hide MemoryOk, FramePool.Valid, FramePool.View, PoolOk, KernelFull;
      ghost var counts := pool.View().counts;
      WalkFacts(links, pages, spaces, counts, NONE, pid, page);
      Known();
      var de := pages[spaces[pid]][DirIndex(page)];
      if de.Absent? || pages[de.frame][TblIndex(page)].Absent? {
        return;
      }
      PageCleared(links, pages, spaces, counts, Owner(pid, page), page);
      FullStays(links, Home(pid, page), 0);
      var freed := pool.Release(pages[de.frame][TblIndex(page)].frame);
      pages := Write(pages, de.frame, TblIndex(page), Absent);
      links := links - {Home(pid, page)};
    }

    // ----- Ranges -----

    /** 1 if every page that the range touches is present, 0 if none is, -1 if only some are. */
    method VirtualIsMapped(pid: nat, virt: nat, size: nat) returns (state: int)
      requires Valid() && pid in spaces && Spaced(virt, size)
      ensures state in {1, 0, -1}
      ensures state == 1 <==> Span(pid, First(virt), Checked(virt, size)) <= links.Keys
      ensures state == 0 <==> Span(pid, First(virt), Checked(virt, size)) !! links.Keys
    {
      hide MemoryOk, FramePool.Valid, FramePool.View;
      LimitMeans(virt, size, First(virt));
      var page := virt / PAGE;
      var first := Lookup(NONE, pid, page);
      InSpan(pid, First(virt), Checked(virt, size), page);
      page := page + 1;
      while page * PAGE < End(virt, size)
        invariant Valid() && First(virt) < page <= Checked(virt, size)
        invariant forall p: nat :: First(virt) <= p < page ==> (Home(pid, p) in links <==> first.Present?)
      {
        LimitMeans(virt, size, page);
        var e := Lookup(NONE, pid, page);
        if e.Present? != first.Present? {
          InSpan(pid, First(virt), Checked(virt, size), page);
          return -1;
        }
        page := page + 1;
      }
      LimitMeans(virt, size, page);
      state := if first.Present? then 1 else 0;
    }

    method VirtualUnmap(pid: nat, virt: nat, size: nat)
      requires Valid() && pid in spaces && Ranged(virt, size)
      modifies this, pool.Footprint()
      ensures Valid() && spaces == old(spaces)
      ensures links == old(links) - Span(pid, First(virt), Limit(virt, size))
    {
      hide MemoryOk, FramePool.Valid, FramePool.View;
      LimitMeans(virt, size, First(virt));
      var page := virt / PAGE;
      while page * PAGE < End(virt, size)
        invariant First(virt) <= page <= Limit(virt, size)
        invariant Valid() && spaces == old(spaces)
        invariant links == old(links) - Span(pid, First(virt), page)
      {
        LimitMeans(virt, size, page);
        Unmap(pid, page);
        SpanMore(pid, First(virt), page);
        page := page + 1;
      }
      LimitMeans(virt, size, page);
    }

    /** Point one page at a new frame. */
    method AllocPage(pid: nat, page: nat) returns (ok: bool)
      requires Valid() && pid in spaces && page < PAGES && Home(pid, page) !in links
      modifies this, pool.Footprint()
      ensures ok <==> 1 + Cost(old(links).Keys, Home(pid, page)) <= old(Avail(pool.View()))
      ensures !ok ==> pool.View().empty
      ensures ok ==> Avail(pool.View()) == old(Avail(pool.View())) - 1 - Cost(old(links).Keys, Home(pid, page))
      ensures ok ==> links.Keys == old(links).Keys + {Home(pid, page), TableOf(Home(pid, page))}
      ensures ok ==> Valid() && spaces == old(spaces) && Steady(old(pool.View()), pool.View())
      ensures ok ==> Home(pid, page) in links && links[Home(pid, page)] !in old(pool.View()).taken
      ensures ok ==> links[Home(pid, page)] in pool.View().taken
      ensures ok ==> Flat(links) == old(Flat(links))[Home(pid, page) := links[Home(pid, page)]]
    {
      hide MemoryOk, FramePool.Valid, FramePool.View, PoolOk, Flat, Plain, Taken, Avail, Cost;
      Known();
      if pool.map_.head == BmStacks.NULL {
        return false;
      }
      var f := pool.Alloc();
      TakenAvail(old(pool.View()), f);
      TakenSteady(old(pool.View()), f, pool.reserved);
      LooseFrame(links, pages, spaces, old(pool.View()).counts, f);
      Known();
      CountedIsTaken(pool.View(), f, pool.reserved);
      var done;
      ok, done := Map(pid, page, f);
      FlatPage(links, Home(pid, page), f);
    }

    /** Give every page of a range that has none a new frame. */
    method VirtualAlloc(pid: nat, virt: nat, size: nat) returns (ok: bool)
      requires Valid() && pid in spaces && Ranged(virt, size)
      modifies this, pool.Footprint()
      ensures ok <==> Need(old(links).Keys, Span(pid, First(virt), Limit(virt, size))) <= old(Avail(pool.View()))
      ensures !ok ==> pool.View().empty
      ensures ok ==> Valid() && spaces == old(spaces) && Steady(old(pool.View()), pool.View())
      ensures ok ==>
        Filled(old(Flat(links)), Flat(links), Span(pid, First(virt), Limit(virt, size)), old(pool.View()).taken)
    {
      hide MemoryOk, FramePool.Valid, FramePool.View, PoolOk, Flat, Filled, Avail, Cost, Need, Grown, Span,
        Steady, TableOf;
      LimitMeans(virt, size, First(virt));
      var page := virt / PAGE;
      ghost var keys := links.Keys;
      EmptySpan(pid, page);
      NeedNothing(keys);
      ghost var before, taken := Flat(links), pool.View().taken;
      FilledNothing(before, pid, page, taken);
      SteadyNothing(pool.View());
      while page * PAGE < End(virt, size)
        invariant First(virt) <= page <= Limit(virt, size)
        invariant Valid() && spaces == old(spaces) && Steady(old(pool.View()), pool.View())
        invariant Filled(before, Flat(links), Span(pid, First(virt), page), taken)
        invariant forall r :: r in Flat(links) && r !in before ==> Flat(links)[r] in pool.View().taken
        invariant links.Keys == Grown(keys, Span(pid, First(virt), page))
        invariant Avail(pool.View()) + Need(keys, Span(pid, First(virt), page)) == old(Avail(pool.View()))
      {
        LimitMeans(virt, size, page);
        FlatPage(links, Home(pid, page), 0);
        SpanStep(keys, pid, First(virt), page);
        var e := Lookup(NONE, pid, page);
        if e.Absent? {
          label L:
          ok := AllocPage(pid, page);
          if !ok {
            SpanNeeds(keys, pid, First(virt), page + 1, Limit(virt, size));
            return false;
          }
          SteadyOn(old(pool.View()), old@L(pool.View()), pool.View());
          FilledMore(before, old@L(Flat(links)), pid, First(virt), page,
                     links[Home(pid, page)], taken, old@L(pool.View()).taken);
        } else {
          FilledAlready(before, Flat(links), pid, First(virt), page, taken);
        }
        page := page + 1;
      }
      LimitMeans(virt, size, page);
      ok := true;
    }

    /** One page of a share: skipped if the source is missing or the target occupied. */
    method SharePage(dest: nat, src: nat, to: nat, from: nat) returns (ok: bool)
      requires Valid() && dest in spaces && src in spaces && to < PAGES && from < PAGES
      modifies this, pool.Footprint()
      ensures ok <==>
        || Home(src, from) !in old(links) || Home(dest, to) in old(links)
        || (&& Count(old(Flat(links)), old(links)[Home(src, from)]) < COUNT_MAX
            && Cost(old(links).Keys, Home(dest, to)) <= old(Avail(pool.View())))
      ensures !ok ==> Stuck(pool.View(), links, src, from, from + 1)
      ensures ok ==> Valid() && spaces == old(spaces)
      ensures ok ==> Flat(links) == ShareOne(old(Flat(links)), Home(dest, to), Home(src, from))
      ensures Home(src, from) !in old(links) || Home(dest, to) in old(links) ==>
        links == old(links) && Avail(pool.View()) == old(Avail(pool.View()))
      ensures ok && Home(src, from) in old(links) && Home(dest, to) !in old(links) ==>
        && links.Keys == old(links).Keys + {Home(dest, to), TableOf(Home(dest, to))}
        && Avail(pool.View()) == old(Avail(pool.View())) - Cost(old(links).Keys, Home(dest, to))
    {
      hide MemoryOk, FramePool.Valid, FramePool.View, PoolOk, Flat, Plain, Retained, Steady, Avail, Cost, Count;
      FlatPage(links, Home(src, from), 0);
      FlatPage(links, Home(dest, to), 0);
      var e := Lookup(NONE, src, from);
      var there := Lookup(NONE, dest, to);
      if e.Absent? || there.Present? {
        return true;
      }
      Known();
      SharedFrame(links, pages, spaces, pool.View().counts, Home(src, from));
      PageCountIs(links, pages, spaces, pool.View().counts, Home(src, from));
      if pool.counts[e.frame] == COUNT_MAX {
        return false;
      }
      RetainedCounts(pool.View(), e.frame);
      RetainedAvail(pool.View(), e.frame);
      pool.Retain(e.frame);
      var done;
      ok, done := Map(dest, to, e.frame);
    }

    /** Share a range of `src`'s pages into `dest`. */
    method VirtualShare(dest: nat, src: nat, to: nat, from: nat, size: nat) returns (ok: bool)
      requires Valid() && dest in spaces && src in spaces
      requires Ranged(from, size) && First(to) + Limit(from, size) - First(from) <= PAGES
      modifies this, pool.Footprint()
      ensures ok <==>
        ShareFits(old(Flat(links)), old(links).Keys, old(Avail(pool.View())),
                  dest, src, First(to), First(from), Limit(from, size) - First(from))
      ensures !ok ==> Stuck(pool.View(), links, src, First(from), Limit(from, size))
      ensures ok ==> Valid() && spaces == old(spaces)
      ensures ok ==>
        Flat(links) == Shared(old(Flat(links)), dest, src, First(to), First(from), Limit(from, size) - First(from))
    {
      hide MemoryOk, FramePool.Valid, FramePool.View, PoolOk, Flat, Steady, ShareOne, Avail, Cost, Count, NewTables,
        Shared, FullPage, Grown, Added, TableOf, ShareFits, Countable;
      LimitMeans(from, size, First(from));
      var curr, target := from / PAGE, to / PAGE;
      ghost var before, keys, avail := Flat(links), links.Keys, Avail(pool.View());
      ghost var d, s, n := First(to), First(from), Limit(from, size) - First(from);
      NothingShared(before, keys, dest, src, d, s);
      while curr * PAGE < End(from, size)
        invariant First(from) <= curr <= Limit(from, size) && target == First(to) + curr - First(from)
        invariant Valid() && spaces == old(spaces)
        invariant Flat(links) == Shared(before, dest, src, d, s, curr - s)
        invariant links.Keys == Grown(keys, Added(before, dest, src, d, s, curr - s))
        invariant Avail(pool.View()) + |NewTables(keys, Added(before, dest, src, d, s, curr - s))| == avail
      {
        LimitMeans(from, size, curr);
        Keys(links, Home(dest, target));
        Keys(links, Home(src, curr));
        ShareStep(old(links), dest, src, d, s, curr - s);
        SharedStep(before, dest, src, d, s, curr - s);
        ok := SharePage(dest, src, target, curr);
        if !ok {
          StepFails(old(links), avail, dest, src, d, s, curr - s);
          ShareStops(before, keys, avail, dest, src, d, s, curr - s + 1, n);
          return false;
        }
        curr, target := curr + 1, target + 1;
      }
      LimitMeans(from, size, curr);
      Known();
      CountsHold(links, pages, spaces, pool.View(), pool.reserved);
      Fits(before, keys, avail, dest, src, d, s, n);
      ok := true;
    }
  }
}
