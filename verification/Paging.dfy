/** Two-level page tables held in physical frames (kernel/arch/i586/sw/paging.c): a directory of
    1024 entries leads to tables of 1024 entries, and the upper and lower ten bits of a page
    number select the two entries.

    From 3GB up, every directory copies the kernel's entries, so that all processes share the
    kernel's tables there; the last entry of a directory points to the directory itself.

    The value of the tables is a flat map from references to frames: directories, tables and
    pages, each belonging to one process or, in the shared part, to the kernel. */
module Paging {
  datatype Entry = Absent | Present(frame: nat)

  const ENTRIES := 1024

  /** The first directory entry of the kernel's part, and the entry that points back. */
  const UPPER := 768
  const WINDOW := 1023

  /** Page numbers where the kernel's part begins and ends. */
  const KERNEL_PAGE := 768 * 1024
  const PAGES := 1023 * 1024

  /** One past the last page: from `PAGES` up, a directory's entries show as pages. */
  const SPACE := 1024 * 1024

  const KERNEL := 0

  /** Everything that can hold on to a frame. */
  datatype Ref = Dir(pid: nat) | Table(pid: nat, index: nat) | Page(pid: nat, page: nat)

  function DirIndex(page: nat): nat {
    page / ENTRIES
  }

  function TblIndex(page: nat): nat {
    page % ENTRIES
  }

  /** The upper and lower ten bits make up the page number, and so determine it. */
  lemma SplitUnique(p: nat, q: nat)
    ensures p == ENTRIES * DirIndex(p) + TblIndex(p) && TblIndex(p) < ENTRIES
    ensures (p < PAGES <==> DirIndex(p) < WINDOW) && (p < KERNEL_PAGE <==> DirIndex(p) < UPPER)
    ensures DirIndex(p) == DirIndex(q) && TblIndex(p) == TblIndex(q) ==> p == q
  {
    assert p == 1024 * (p / 1024) + p % 1024;
    assert q == 1024 * (q / 1024) + q % 1024;
  }

  /** Entry `i` of the table in frame `f`. */
  function Read(pages: seq<seq<Entry>>, f: nat, i: nat): Entry {
    if f < |pages| && i < |pages[f]| then pages[f][i] else Absent
  }

  function Write(pages: seq<seq<Entry>>, f: nat, i: nat, e: Entry): seq<seq<Entry>>
    requires f < |pages| && i < |pages[f]|
  {
    pages[f := pages[f][i := e]]
  }

  function Blank(): seq<Entry> {
    seq(ENTRIES, _ => Absent)
  }

  /** What a reference leads to, found the way the hardware does. */
  function Walk(pages: seq<seq<Entry>>, dirs: map<nat, nat>, r: Ref): Entry {
    match r
    case Dir(pid) => if pid in dirs then Present(dirs[pid]) else Absent
    case Table(pid, i) => if pid in dirs then Read(pages, dirs[pid], i) else Absent
    case Page(pid, p) =>
      if pid in dirs && Read(pages, dirs[pid], DirIndex(p)).Present? then
        Read(pages, Read(pages, dirs[pid], DirIndex(p)).frame, TblIndex(p))
      else
        Absent
  }

  type Links = map<Ref, nat>

  ghost predicate Agrees(links: Links, r: Ref, e: Entry) {
    if e.Present? then r in links && links[r] == e.frame else r !in links
  }

  /** A directory entry that a process has for itself; the kernel has all of them but the last. */
  predicate OwnEntry(pid: nat, i: nat) {
    i < WINDOW && (i < UPPER || pid == KERNEL)
  }

  /** A reference that is not a copy of one of the kernel's. */
  predicate Owned(r: Ref) {
    match r
    case Dir(_) => true
    case Table(pid, i) => OwnEntry(pid, i)
    case Page(pid, p) => OwnEntry(pid, DirIndex(p))
  }

  /** Whose table holds the entry for page `p` of process `pid`. */
  function Owner(pid: nat, p: nat): nat {
    if p < KERNEL_PAGE then pid else KERNEL
  }

  /** What entry `i` of a process's directory refers to: a table of its own or of the kernel's, or,
      in the last place, the directory itself. */
  function Shown(pid: nat, i: nat): Ref {
    if i == WINDOW then Dir(pid) else Table(if i < UPPER then pid else KERNEL, i)
  }

  /** The one reference behind page `p` as process `pid` sees it.  The last 1024 pages are the
      directory's own entries. */
  function Home(pid: nat, p: nat): Ref {
    if PAGES <= p < SPACE then Shown(pid, p - PAGES) else Page(Owner(pid, p), p)
  }

  /** The flat map says what a walk finds. */
  ghost predicate Coherent(links: Links, pages: seq<seq<Entry>>, dirs: map<nat, nat>) {
    forall r :: if Owned(r) then Agrees(links, r, Walk(pages, dirs, r)) else r !in links
  }

  /** The directory in frame `d` points back to itself and has the entries of `kernel` from 3GB up. */
  ghost predicate Copies(pages: seq<seq<Entry>>, kernel: nat, d: nat) {
    && Read(pages, d, WINDOW) == Present(d)
    && forall i :: UPPER <= i < WINDOW ==> Read(pages, d, i) == Read(pages, kernel, i)
  }

  ghost predicate Mirrors(pages: seq<seq<Entry>>, dirs: map<nat, nat>) {
    forall pid :: pid in dirs ==> KERNEL in dirs && Copies(pages, dirs[KERNEL], dirs[pid])
  }

  /** The kernel's tables are all there, so no copy ever has to change. */
  ghost predicate KernelFull(links: Links) {
    forall i :: UPPER <= i < WINDOW ==> Table(KERNEL, i) in links
  }

  /** Nothing else refers to the frame of a directory or a table. */
  ghost predicate Sole(links: Links) {
    forall r, q :: r in links && q in links && !r.Page? && links[r] == links[q] ==> r == q
  }

  ghost predicate Sized(pages: seq<seq<Entry>>, n: nat) {
    |pages| == n && forall f :: 0 <= f < n ==> |pages[f]| == ENTRIES
  }

  // ----- Counting references -----

  ghost function RefsTo(links: Links, f: nat): set<Ref> {
    set r | r in links && links[r] == f
  }

  ghost function Count(links: Links, f: nat): nat {
    |RefsTo(links, f)|
  }

  lemma CountAddAt(links: Links, r: Ref, f: nat, g: nat)
    requires r !in links
    ensures Count(links[r := f], g) == Count(links, g) + if g == f then 1 else 0
  {
    if g == f {
      assert RefsTo(links[r := f], g) == RefsTo(links, g) + {r};
    } else {
      assert RefsTo(links[r := f], g) == RefsTo(links, g);
    }
  }

  lemma CountAdd(links: Links, r: Ref, f: nat)
    requires r !in links
    ensures forall g: nat :: Count(links[r := f], g) == Count(links, g) + if g == f then 1 else 0
  {
    hide Count;
    forall g: nat ensures Count(links[r := f], g) == Count(links, g) + if g == f then 1 else 0 {
      CountAddAt(links, r, f, g);
    }
  }

  lemma CountRemove(links: Links, r: Ref)
    requires r in links
    ensures forall g: nat :: Count(links - {r}, g) == Count(links, g) - if g == links[r] then 1 else 0
  {
    hide Count;
    forall g: nat ensures Count(links - {r}, g) == Count(links, g) - if g == links[r] then 1 else 0 {
      assert links == (links - {r})[r := links[r]];
      CountAddAt(links - {r}, r, links[r], g);
    }
  }

  lemma CountPositive(links: Links, r: Ref)
    requires r in links
    ensures Count(links, links[r]) > 0
  {
    assert r in RefsTo(links, links[r]);
  }

  /** A frame without references is not the target of any. */
  lemma CountZero(links: Links, f: nat)
    requires Count(links, f) == 0
    ensures forall r :: r in links ==> links[r] != f
  {
    forall r | r in links ensures links[r] != f {
      if links[r] == f {
        CountPositive(links, r);
      }
    }
  }

  /** The counts are exact; `loose` is a frame with one count that no reference has taken up yet. */
  ghost predicate Balanced(links: Links, counts: seq<nat>, loose: int) {
    && (forall r :: r in links ==> links[r] < |counts|)
    && (forall f: nat :: f < |counts| ==> counts[f] == Count(links, f) + if f == loose then 1 else 0)
  }

  const NONE := -1

  // ----- Writing entries -----

  /** Directories are where the flat map says, apart from one another and from all tables. */
  lemma DirsApart(links: Links, pages: seq<seq<Entry>>, dirs: map<nat, nat>, pid: nat)
    requires Coherent(links, pages, dirs) && pid in dirs
    ensures Dir(pid) in links && links[Dir(pid)] == dirs[pid]
    ensures Sole(links) ==> forall r :: r in links && r != Dir(pid) ==> links[r] != dirs[pid]
  {
    assert Agrees(links, Dir(pid), Walk(pages, dirs, Dir(pid)));
  }

  /** Writing an entry of a table changes the one page it stands for and nothing else. */
  lemma TableWrite(links: Links, pages: seq<seq<Entry>>, dirs: map<nat, nat>, pid: nat, p: nat, e: Entry, r: Ref)
    requires Coherent(links, pages, dirs) && Sole(links) && Sized(pages, |pages|) && Owned(r)
    requires Table(pid, DirIndex(p)) in links && links[Table(pid, DirIndex(p))] < |pages|
    ensures
      var after := Write(pages, links[Table(pid, DirIndex(p))], TblIndex(p), e);
      Walk(after, dirs, r) == if r == Page(pid, p) then e else Walk(pages, dirs, r)
  {
    var t := links[Table(pid, DirIndex(p))];
    assert Agrees(links, Table(pid, DirIndex(p)), Walk(pages, dirs, Table(pid, DirIndex(p))));
    if r.pid in dirs {
      DirsApart(links, pages, dirs, r.pid);
      if r.Page? {
        var k := DirIndex(r.page);
        assert Agrees(links, Table(r.pid, k), Walk(pages, dirs, Table(r.pid, k)));
        SplitUnique(p, r.page);
      }
    }
  }

  lemma CopiesKept(pages: seq<seq<Entry>>, after: seq<seq<Entry>>, kernel: nat, d: nat)
    requires Copies(pages, kernel, d)
    requires forall f :: f == kernel || f == d ==>
      (f < |pages| <==> f < |after|) && (f < |pages| ==> pages[f] == after[f])
    ensures Copies(after, kernel, d)
  {
    forall i ensures Read(after, d, i) == Read(pages, d, i) && Read(after, kernel, i) == Read(pages, kernel, i) {}
  }

  lemma TableWriteMirrors(links: Links, pages: seq<seq<Entry>>, dirs: map<nat, nat>, q: Ref, i: nat, e: Entry)
    requires Coherent(links, pages, dirs) && Sole(links) && Sized(pages, |pages|) && Mirrors(pages, dirs)
    requires q in links && q.Table? && links[q] < |pages| && i < ENTRIES
    ensures Mirrors(Write(pages, links[q], i, e), dirs)
  {
    hide Read;
    var after := Write(pages, links[q], i, e);
    forall pid | pid in dirs ensures Copies(after, dirs[KERNEL], dirs[pid]) {
      DirsApart(links, pages, dirs, pid);
      DirsApart(links, pages, dirs, KERNEL);
      CopiesKept(pages, after, dirs[KERNEL], dirs[pid]);
    }
  }

  /** Hanging a blank table, in a frame nothing refers to, into a directory. */
  lemma TableHung(links: Links, pages: seq<seq<Entry>>, dirs: map<nat, nat>, pid: nat, i: nat, t: nat, r: Ref)
    requires Coherent(links, pages, dirs) && Sole(links) && Sized(pages, |pages|) && Owned(r)
    requires Dir(pid) in links && links[Dir(pid)] < |pages| && OwnEntry(pid, i) && t < |pages|
    requires Table(pid, i) !in links && forall q :: q in links ==> links[q] != t
    ensures
      var after := Write(pages, links[Dir(pid)], i, Present(t))[t := Blank()];
      Walk(after, dirs, r) == if r == Table(pid, i) then Present(t) else Walk(pages, dirs, r)
  {
    assert Agrees(links, Dir(pid), Walk(pages, dirs, Dir(pid)));
    assert Agrees(links, Table(pid, i), Walk(pages, dirs, Table(pid, i)));
    if r.pid in dirs {
      DirsApart(links, pages, dirs, r.pid);
      if r.Page? {
        var k := DirIndex(r.page);
        assert Agrees(links, Table(r.pid, k), Walk(pages, dirs, Table(r.pid, k)));
      }
    }
  }

  lemma EntrySet(pages: seq<seq<Entry>>, after: seq<seq<Entry>>, f: nat, i: nat, t: nat, kernel: nat, d: nat)
    requires Sized(pages, |pages|) && f < |pages| && t < |pages| && i < WINDOW && t != kernel && t != d && t != f
    requires after == Write(pages, f, i, Present(t))[t := Blank()]
    requires Copies(pages, kernel, d) && (i < UPPER || d == kernel)
    ensures Copies(after, kernel, d)
  {
    forall j | UPPER <= j
      ensures i < UPPER ==>
        Read(after, d, j) == Read(pages, d, j) && Read(after, kernel, j) == Read(pages, kernel, j) {}
  }

  /** The copies stay exact, since a table of the kernel's part is only hung before there are any. */
  lemma TableHungMirrors(links: Links, pages: seq<seq<Entry>>, dirs: map<nat, nat>, pid: nat, i: nat, t: nat)
    requires Coherent(links, pages, dirs) && Sole(links) && Sized(pages, |pages|) && Mirrors(pages, dirs)
    requires pid in dirs && dirs[pid] < |pages| && OwnEntry(pid, i) && t < |pages|
    requires i < UPPER || dirs.Keys == {KERNEL}
    requires forall q :: q in links ==> links[q] != t
    ensures Mirrors(Write(pages, dirs[pid], i, Present(t))[t := Blank()], dirs)
  {
    var after := Write(pages, dirs[pid], i, Present(t))[t := Blank()];
    DirsApart(links, pages, dirs, pid);
    DirsApart(links, pages, dirs, KERNEL);
    forall q | q in dirs ensures Copies(after, dirs[KERNEL], dirs[q]) {
      DirsApart(links, pages, dirs, q);
      assert Copies(pages, dirs[KERNEL], dirs[q]);
      EntrySet(pages, after, dirs[pid], i, t, dirs[KERNEL], dirs[q]);
    }
  }

  /** What a new directory in frame `d` holds: itself, and the kernel's entries once there are any. */
  function DirImage(pages: seq<seq<Entry>>, dirs: map<nat, nat>, d: nat): (image: seq<Entry>)
    ensures |image| == ENTRIES
    ensures forall i :: 0 <= i < ENTRIES ==>
              image[i] == if i == WINDOW then Present(d)
                          else if i >= UPPER && KERNEL in dirs then Read(pages, dirs[KERNEL], i) else Absent
  {
    seq(ENTRIES, i requires 0 <= i < ENTRIES =>
          if i == WINDOW then Present(d)
          else if i >= UPPER && KERNEL in dirs then Read(pages, dirs[KERNEL], i) else Absent)
  }

  /** A new directory, in a frame nothing refers to, has nothing of its own and changes nobody else's. */
  lemma DirMade(links: Links, pages: seq<seq<Entry>>, dirs: map<nat, nat>, pid: nat, d: nat, r: Ref)
    requires Coherent(links, pages, dirs) && Sized(pages, |pages|) && Owned(r) && (pid == KERNEL || KERNEL in dirs)
    requires pid !in dirs && d < |pages| && forall q :: q in links ==> links[q] != d
    ensures
      Walk(pages[d := DirImage(pages, dirs, d)], dirs[pid := d], r) ==
        if r == Dir(pid) then Present(d) else Walk(pages, dirs, r)
  {
    hide DirImage;
    if r.pid in dirs {
      DirsApart(links, pages, dirs, r.pid);
      if r.Page? {
        var k := DirIndex(r.page);
        assert Agrees(links, Table(r.pid, k), Walk(pages, dirs, Table(r.pid, k)));
      }
    }
  }

  lemma NewCopies(links: Links, pages: seq<seq<Entry>>, dirs: map<nat, nat>, pid: nat, d: nat)
    requires Coherent(links, pages, dirs) && pid !in dirs && d < |pages| && (forall q :: q in links ==> links[q] != d)
    requires pid == KERNEL <==> KERNEL !in dirs
    ensures Copies(pages[d := DirImage(pages, dirs, d)], dirs[pid := d][KERNEL], d)
  {
    hide DirImage;
    if KERNEL in dirs {
      DirsApart(links, pages, dirs, KERNEL);
    }
  }

  lemma DirMadeMirrors(links: Links, pages: seq<seq<Entry>>, dirs: map<nat, nat>, pid: nat, d: nat)
    requires Coherent(links, pages, dirs) && Sized(pages, |pages|) && Mirrors(pages, dirs)
    requires pid !in dirs && d < |pages| && (forall q :: q in links ==> links[q] != d)
    requires pid == KERNEL <==> KERNEL !in dirs
    ensures Mirrors(pages[d := DirImage(pages, dirs, d)], dirs[pid := d])
  {
    hide DirImage, Read;
    var after, all := pages[d := DirImage(pages, dirs, d)], dirs[pid := d];
    forall q | q in dirs ensures Copies(after, all[KERNEL], all[q]) {
      DirsApart(links, pages, dirs, q);
      DirsApart(links, pages, dirs, KERNEL);
      CopiesKept(pages, after, dirs[KERNEL], dirs[q]);
    }
    NewCopies(links, pages, dirs, pid, d);
  }

  // ----- What an address space keeps -----

  /** The tables are consistent and every frame's count is its number of references. */
  ghost predicate MemoryOk(links: Links, pages: seq<seq<Entry>>, dirs: map<nat, nat>, counts: seq<nat>, loose: int) {
    && Sized(pages, |counts|) && Coherent(links, pages, dirs) && Mirrors(pages, dirs) && Sole(links)
    && Balanced(links, counts, loose)
  }

  /** In the kernel's part every process finds what the kernel finds. */
  lemma UpperWalk(pages: seq<seq<Entry>>, dirs: map<nat, nat>, pid: nat, p: nat)
    requires Mirrors(pages, dirs) && pid in dirs && p < PAGES
    ensures KERNEL in dirs && Walk(pages, dirs, Page(pid, p)) == Walk(pages, dirs, Home(pid, p))
    ensures Walk(pages, dirs, Table(pid, DirIndex(p))) == Walk(pages, dirs, Table(Owner(pid, p), DirIndex(p)))
  {
    SplitUnique(p, p);
  }

  /** Every step of a walk stays inside the tables, and finds what the flat map says. */
  lemma WalkFacts(links: Links, pages: seq<seq<Entry>>, dirs: map<nat, nat>,
                  counts: seq<nat>, loose: int, pid: nat, p: nat)
    requires MemoryOk(links, pages, dirs, counts, loose) && pid in dirs && p < PAGES
    ensures Dir(pid) in links && links[Dir(pid)] == dirs[pid] < |pages|
    ensures |pages[dirs[pid]]| == ENTRIES && DirIndex(p) < WINDOW && TblIndex(p) < ENTRIES
    ensures Owned(Home(pid, p)) && Owned(Table(Owner(pid, p), DirIndex(p)))
    ensures
      var de := pages[dirs[pid]][DirIndex(p)];
      && Agrees(links, Table(Owner(pid, p), DirIndex(p)), de)
      && (de.Absent? ==> Home(pid, p) !in links)
      && (de.Present? ==>
            && de.frame < |pages| && |pages[de.frame]| == ENTRIES
            && Agrees(links, Home(pid, p), pages[de.frame][TblIndex(p)]))
  {
    SplitUnique(p, p);
    UpperWalk(pages, dirs, pid, p);
    DirsApart(links, pages, dirs, pid);
    assert Agrees(links, Table(Owner(pid, p), DirIndex(p)), Walk(pages, dirs, Table(Owner(pid, p), DirIndex(p))));
    assert Agrees(links, Home(pid, p), Walk(pages, dirs, Home(pid, p)));
  }

  /** In the last 4MB a lookup goes through the entry that points back, and finds the directory's own
      entries. */
  lemma WindowFacts(links: Links, pages: seq<seq<Entry>>, dirs: map<nat, nat>, counts: seq<nat>, loose: int,
                    pid: nat, p: nat)
    requires MemoryOk(links, pages, dirs, counts, loose) && pid in dirs && PAGES <= p < SPACE
    ensures Dir(pid) in links && links[Dir(pid)] == dirs[pid] < |pages|
    ensures |pages[dirs[pid]]| == ENTRIES && DirIndex(p) == WINDOW && TblIndex(p) == p - PAGES < ENTRIES
    ensures pages[dirs[pid]][WINDOW] == Present(dirs[pid])
    ensures Agrees(links, Home(pid, p), pages[dirs[pid]][TblIndex(p)])
  {
    var i := p - PAGES;
    WindowSplit(p);
    DirsApart(links, pages, dirs, pid);
    DirsApart(links, pages, dirs, KERNEL);
    assert Copies(pages, dirs[KERNEL], dirs[pid]);
    assert Agrees(links, Shown(pid, i), Walk(pages, dirs, Shown(pid, i)));
  }

  lemma WindowSplit(p: nat)
    requires PAGES <= p < SPACE
    ensures DirIndex(p) == WINDOW && TblIndex(p) == p - PAGES
  {
    assert p == 1024 * 1023 + (p - PAGES);
  }

  lemma CoherentUpdate(links: Links, pages: seq<seq<Entry>>, dirs: map<nat, nat>,
                       r: Ref, f: nat, after: seq<seq<Entry>>, dirsAfter: map<nat, nat>)
    requires Coherent(links, pages, dirs) && Owned(r)
    requires forall q :: Owned(q) ==> Walk(after, dirsAfter, q) == if q == r then Present(f) else Walk(pages, dirs, q)
    ensures Coherent(links[r := f], after, dirsAfter)
  {
    hide Walk, Owned;
    forall q | Owned(q) ensures Agrees(links[r := f], q, Walk(after, dirsAfter, q)) {
      assert Agrees(links, q, Walk(pages, dirs, q));
    }
  }

  /** An absent page is pointed at the loose frame, which takes up its count. */
  lemma PageSet(links: Links, pages: seq<seq<Entry>>, dirs: map<nat, nat>, counts: seq<nat>, pid: nat, p: nat, f: nat)
    requires MemoryOk(links, pages, dirs, counts, f) && f < |counts|
    requires Table(pid, DirIndex(p)) in links && Owned(Page(pid, p)) && Page(pid, p) !in links
    requires forall r :: r in links && links[r] == f ==> r.Page?
    ensures links[Table(pid, DirIndex(p))] < |pages| && |pages[links[Table(pid, DirIndex(p))]]| == ENTRIES
    ensures
      var after := Write(pages, links[Table(pid, DirIndex(p))], TblIndex(p), Present(f));
      MemoryOk(links[Page(pid, p) := f], after, dirs, counts, NONE)
  {
    hide Walk, Count, Owned;
    var after := Write(pages, links[Table(pid, DirIndex(p))], TblIndex(p), Present(f));
    forall r | Owned(r) ensures Walk(after, dirs, r) == if r == Page(pid, p) then Present(f) else Walk(pages, dirs, r) {
      TableWrite(links, pages, dirs, pid, p, Present(f), r);
    }
    CoherentUpdate(links, pages, dirs, Page(pid, p), f, after, dirs);
    TableWriteMirrors(links, pages, dirs, Table(pid, DirIndex(p)), TblIndex(p), Present(f));
    CountAdd(links, Page(pid, p), f);
    hide Mirrors, Coherent;
  }

  /** A present page is cleared and its frame loses one count. */
  lemma PageCleared(links: Links, pages: seq<seq<Entry>>, dirs: map<nat, nat>, counts: seq<nat>, pid: nat, p: nat)
    requires MemoryOk(links, pages, dirs, counts, NONE)
    requires Table(pid, DirIndex(p)) in links && Page(pid, p) in links
    ensures links[Table(pid, DirIndex(p))] < |pages| && |pages[links[Table(pid, DirIndex(p))]]| == ENTRIES
    ensures
      var f := links[Page(pid, p)];
      var after := Write(pages, links[Table(pid, DirIndex(p))], TblIndex(p), Absent);
      && f < |counts| && counts[f] > 0
      && MemoryOk(links - {Page(pid, p)}, after, dirs, counts[f := counts[f] - 1], NONE)
  {
    hide Walk, Count, Owned;
    var after := Write(pages, links[Table(pid, DirIndex(p))], TblIndex(p), Absent);
    forall r | Owned(r) ensures Agrees(links - {Page(pid, p)}, r, Walk(after, dirs, r)) {
      TableWrite(links, pages, dirs, pid, p, Absent, r);
      assert Agrees(links, r, Walk(pages, dirs, r));
    }
    TableWriteMirrors(links, pages, dirs, Table(pid, DirIndex(p)), TblIndex(p), Absent);
    CountRemove(links, Page(pid, p));
    CountPositive(links, Page(pid, p));
  }

  /** A free frame becomes a blank table of a directory. */
  lemma TableAdded(links: Links, pages: seq<seq<Entry>>, dirs: map<nat, nat>, counts: seq<nat>, loose: int,
                   pid: nat, i: nat, t: nat)
    requires MemoryOk(links, pages, dirs, counts, loose) && t < |counts| && counts[t] == 0 && t != loose
    requires pid in dirs && OwnEntry(pid, i) && Table(pid, i) !in links && (i < UPPER || dirs.Keys == {KERNEL})
    ensures dirs[pid] < |pages| && |pages[dirs[pid]]| == ENTRIES && t < |pages|
    ensures
      var after := Write(pages, dirs[pid], i, Present(t))[t := Blank()];
      MemoryOk(links[Table(pid, i) := t], after, dirs, counts[t := 1], loose)
  {
    hide Walk, Count;
    CountZero(links, t);
    DirsApart(links, pages, dirs, pid);
    var after := Write(pages, dirs[pid], i, Present(t))[t := Blank()];
    forall r | Owned(r)
      ensures Walk(after, dirs, r) == if r == Table(pid, i) then Present(t) else Walk(pages, dirs, r) {
      TableHung(links, pages, dirs, pid, i, t, r);
    }
    TableHungMirrors(links, pages, dirs, pid, i, t);
    CoherentUpdate(links, pages, dirs, Table(pid, i), t, after, dirs);
    CountAdd(links, Table(pid, i), t);
    hide Mirrors, Coherent, Owned;
  }

  /** A free frame becomes the directory of a new process, or the kernel's own, before all others. */
  lemma DirAdded(links: Links, pages: seq<seq<Entry>>, dirs: map<nat, nat>, counts: seq<nat>, pid: nat, d: nat)
    requires MemoryOk(links, pages, dirs, counts, NONE) && d < |counts| && counts[d] == 0 && pid !in dirs
    requires pid == KERNEL <==> KERNEL !in dirs
    ensures d < |pages|
    ensures
      var after := pages[d := DirImage(pages, dirs, d)];
      MemoryOk(links[Dir(pid) := d], after, dirs[pid := d], counts[d := 1], NONE)
  {
    assert Agrees(links, Dir(pid), Walk(pages, dirs, Dir(pid)));
    hide Walk, Count, Owned, DirImage;
    CountZero(links, d);
    var after := pages[d := DirImage(pages, dirs, d)];
    OwnedDir(pid);
    forall r | Owned(r)
      ensures Walk(after, dirs[pid := d], r) == if r == Dir(pid) then Present(d) else Walk(pages, dirs, r) {
      DirMade(links, pages, dirs, pid, d, r);
    }
    DirMadeMirrors(links, pages, dirs, pid, d);
    CoherentUpdate(links, pages, dirs, Dir(pid), d, after, dirs[pid := d]);
    CountAdd(links, Dir(pid), d);
    hide Mirrors, Coherent;
  }

  lemma OwnedDir(pid: nat)
    ensures Owned(Dir(pid))
  {}

  /** The page mappings alone. */
  ghost function Flat(links: Links): Links {
    map r | r in links && r.Page? :: links[r]
  }
}
