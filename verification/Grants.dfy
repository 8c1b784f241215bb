/** Granting memory to another process (kernel/core/system/memory/syscall_grant.c), and exactly
    when a grant moves the memory from one process to the other. */
module Grants {
  import opened Ports
  import opened KernelState
  import opened KernelInvariant
  import opened Paging
  import opened Frames
  import opened AddressSpaces
  import opened KernelBoot
  import KernelAnswers

  datatype Shm = Shm(to: Port, addr: nat, size: nat)

  /** Only a parent, or a process of higher privilege, may grant. */
  predicate MayGrant(s: State, owner: nat, target: nat) {
    && owner in s.procs && target in s.procs
    && (s.procs[owner].priv > s.procs[target].priv || s.procs[target].parent == owner)
  }

  /** No process may grant to itself. */
  lemma GrantIsToAnother(s: State, owner: nat, target: nat)
    requires TableOk(s) && MayGrant(s, owner, target)
    ensures owner != target
  {
    assert ProcOk(s.pvers, target, s.procs[target]);
  }

  /** Everything that is checked before the page tables are looked at. */
  function RequestError(s: State, mapped: bool, info: Shm, dest: nat): int {
    var owner := Curr(s).pid;
    var target := Resolve(s, info.to, owner);
    if !mapped then EPARAM
    else if info.size == 0 then ESIZE
    else if target == NOBODY then EINVALID
    else if target.pid !in s.procs then ENOTAVAIL
    else if !MayGrant(s, owner, target.pid) then EPRIV
    else if info.addr % PAGE != 0 || dest % PAGE != 0 then EALIGN
    else if info.size % PAGE != 0 then ESIZE
    else ENONE
  }

  /** The result of a grant request in a given memory. */
  ghost function GrantError(s: State, links: Links, mapped: bool, info: Shm, dest: nat): int {
    var owner, target := Curr(s).pid, Resolve(s, info.to, Curr(s).pid).pid;
    if RequestError(s, mapped, info, dest) != ENONE then RequestError(s, mapped, info, dest)
    else if !(Span(owner, First(info.addr), Checked(info.addr, info.size)) <= links.Keys) then EADDR
    else if !(Span(target, First(dest), Checked(dest, info.size)) !! links.Keys) then ENORES
    else ENONE
  }

  /** The process that a port names, seen from process `home`. */
  function Named(port: Port, home: nat): nat {
    if port.pvn == 0 && port.tvn == 0 && port.pid == 0 then home else port.pid
  }

  /** What comes back from a grant, condition by condition: an unreadable request, an empty range, a dead thread,
      a missing process, no right over it, addresses or a size that are not multiples of a page, memory
      that the owner has not, or that the target has already. */
  ghost predicate GrantVerdict(s: State, links: Links, mapped: bool, info: Shm, dest: nat, error: int) {
    var owner, target := Curr(s).pid, Named(info.to, Curr(s).pid);
    if !mapped then error == -1
    else if info.size == 0 then error == -4
    else if !(info.to.pvn == 0 && info.to.tvn == 0) && !KernelAnswers.Reachable(s, info.to, owner) then error == -7
    else if target !in s.procs then error == -6
    else if owner in s.procs && s.procs[owner].priv <= s.procs[target].priv && s.procs[target].parent != owner then
      error == -2
    else if info.addr % 4096 != 0 || dest % 4096 != 0 then error == -5
    else if info.size % 4096 != 0 then error == -4
    else if !AllPresent(links, owner, info.addr, info.size) then error == -3
    else if !NonePresent(links, target, dest, info.size) then error == -8
    else error == 0
  }

  lemma NamedExactly(s: State, port: Port, home: nat)
    requires TableOk(s) && home >= 2
    ensures Resolve(s, port, home) == NOBODY <==>
      !(port.pvn == 0 && port.tvn == 0) && !KernelAnswers.Reachable(s, port, home)
    ensures Resolve(s, port, home) != NOBODY ==> Resolve(s, port, home).pid == Named(port, home)
  {
    KernelAnswers.ReachableExactly(s, port, home);
    KernelAnswers.NobodyDead(s);
    hide KernelAnswers.Reachable, TableOk;
  }

  lemma GrantErrorIs(s: State, links: Links, mapped: bool, info: Shm, dest: nat)
    requires Core(s) && s.sched.ring != []
    requires RequestError(s, mapped, info, dest) == ENONE ==> Spaced(info.addr, info.size) && Spaced(dest, info.size)
    ensures GrantVerdict(s, links, mapped, info, dest, GrantError(s, links, mapped, info, dest))
    ensures GrantError(s, links, mapped, info, dest) == ENONE ==>
      Resolve(s, info.to, Curr(s).pid).pid == Named(info.to, Curr(s).pid)
  {
    hide Core, KernelState.Resolve, KernelAnswers.Reachable, AllPresent, NonePresent, Span, First, Checked,
      Named, Curr, End;
    var owner := Curr(s).pid;
    Callers(s, 0);
    OwnerNumber(s);
    NamedExactly(s, info.to, owner);
    if RequestError(s, mapped, info, dest) == ENONE {
      PresentExactly(links, owner, info.addr, info.size);
      PresentExactly(links, Named(info.to, owner), dest, info.size);
    }
  }

  lemma OwnerNumber(s: State)
    requires Core(s) && s.sched.ring != []
    ensures TableOk(s) && Curr(s).pid >= 2
  {
    CurrLive(s);
    KernelAnswers.CurrNumber(s);
  }

  lemma FlatLess(links: Links, pid: nat, lo: nat, hi: nat)
    ensures Flat(links - Span(pid, lo, hi)) == Flat(links) - Span(pid, lo, hi)
  {}

  /** The pages of the range are the target's now, in the frames they had, and every frame
      that any page referred to has the count it had. */
  ghost predicate Granted(before: Links, after: Links, counts: seq<nat>, now: seq<nat>,
                          dest: nat, src: nat, d: nat, s: nat, n: nat) {
    && Movable(before, dest, src, d, s, n) && IsMoved(before, after, dest, src, d, s, n)
    && |now| == |counts|
    && forall g: nat :: g < |counts| && Count(before, g) > 0 ==> now[g] == counts[g]
  }

  lemma MoveIsGrant(before: Links, after: Links, counts: seq<nat>, now: seq<nat>,
                    dest: nat, src: nat, d: nat, s: nat, n: nat)
    requires Movable(Flat(before), dest, src, d, s, n) && IsMoved(Flat(before), Flat(after), dest, src, d, s, n)
    requires Sole(before) && Sole(after) && Balanced(before, counts, NONE)
      && Balanced(after, now, NONE) && |now| == |counts|
    ensures Granted(Flat(before), Flat(after), counts, now, dest, src, d, s, n)
  {
    MovedPointwise(Flat(before), dest, src, d, s, n);
    IsMovedUnique(Flat(before), Flat(after), Moved(Flat(before), dest, src, d, s, n), dest, src, d, s, n);
    MovedKeepsCounts(Flat(before), dest, src, d, s, n);
    hide Count, IsMoved, Movable, Moved, Flat, Sole;
    forall g: nat | g < |counts| && Count(Flat(before), g) > 0 ensures now[g] == counts[g] {
      PageFrameCount(before, g);
      PageFrameCount(after, g);
    }
  }

  /** Share the range into the target, then take it away from the owner. */
  method Transfer(mem: Spaces, owner: nat, target: nat, src: nat, dest: nat, size: nat, ghost n: nat) returns (ok: bool)
    requires mem.Valid() && owner in mem.spaces && target in mem.spaces
    requires Ranged(src, size) && n == Limit(src, size) - First(src) && First(dest) + n <= PAGES
    requires Movable(Flat(mem.links), target, owner, First(dest), First(src), n)
    modifies mem, mem.pool.Footprint()
    ensures ok <==> ShareFits(old(Flat(mem.links)), old(mem.links).Keys, old(Avail(mem.pool.View())),
                              target, owner, First(dest), First(src), n)
    ensures !ok ==> Stuck(mem.pool.View(), mem.links, owner, First(src), Limit(src, size))
    ensures ok ==> mem.Valid() && mem.spaces == old(mem.spaces)
    ensures ok ==> Granted(old(Flat(mem.links)), Flat(mem.links), old(mem.pool.View().counts), mem.pool.View().counts,
                           target, owner, First(dest), First(src), n)
  {
    hide MemoryOk, FramePool.Valid, FramePool.View, Flat, Granted, Movable, IsMoved, Shared, Sole, Balanced,
      ShareFits, Stuck, Avail;
    ghost var d, s := First(dest), First(src);
    Parts(mem);
    ShareUnmapIsMove(Flat(mem.links), target, owner, d, s, n);
    ok := mem.VirtualShare(target, owner, dest, src, size);
    if !ok {
      return false;
    }
    FlatLess(mem.links, owner, s, s + n);
    mem.VirtualUnmap(owner, src, size);
    Parts(mem);
    MoveIsGrant(old(mem.links), mem.links, old(mem.pool.View().counts), mem.pool.View().counts, target, owner, d, s, n);
  }

  lemma Parts(mem: Spaces)
    requires mem.Valid()
    ensures Sole(mem.links) && Balanced(mem.links, mem.pool.View().counts, NONE)
    ensures |mem.pool.View().counts| == mem.pool.counts.Length
  {}

  // ----- What the processes see of it -----

  /** What process `pid` finds at page `p`. */
  ghost function View(links: Links, pid: nat, p: nat): Entry {
    if Home(pid, p) in links then Present(links[Home(pid, p)]) else Absent
  }

  /** The pages have gone from `src` to `dest`, and nobody else, and nothing else, is affected. */
  ghost predicate ViewsMoved(before: Links, after: Links, pids: set<nat>, dest: nat, src: nat, d: nat, s: nat, n: nat) {
    forall pid, p: nat :: pid in pids && p < PAGES ==> View(after, pid, p) == Wanted(before, dest, src, d, s, n, pid, p)
  }

  ghost function Wanted(before: Links, dest: nat, src: nat, d: nat, s: nat, n: nat, pid: nat, p: nat): Entry {
    if pid == dest && d <= p < d + n then View(before, src, p - d + s)
    else if pid == src && s <= p < s + n then Absent
    else View(before, pid, p)
  }

  /** Below 3GB a move of the mappings is a move for the processes. */
  lemma LowMove(before: Links, after: Links, pids: set<nat>, dest: nat, src: nat, d: nat, s: nat, n: nat)
    requires Movable(before, dest, src, d, s, n) && IsMoved(before, after, dest, src, d, s, n) && dest != src
    requires s + n <= KERNEL_PAGE && d + n <= KERNEL_PAGE
    ensures ViewsMoved(before, after, pids, dest, src, d, s, n)
  {
    forall pid, p: nat | pid in pids && p < PAGES
      ensures View(after, pid, p) == Wanted(before, dest, src, d, s, n, pid, p) {
      InSpan(src, s, s + n, p);
      InSpan(dest, d, d + n, p);
      if pid == dest && d <= p < d + n {
        assert Carries(before, after, Home(dest, p), Source(src, s, d, p));
      }
    }
  }

  /** From 3GB up it is not: both processes see the same page there, before and after. */
  lemma HighMove(before: Links, after: Links, pids: set<nat>, dest: nat, src: nat, d: nat, s: nat, n: nat)
    requires Movable(before, dest, src, d, s, n) && IsMoved(before, after, dest, src, d, s, n)
    requires dest != src && dest in pids && src in pids && n > 0 && s + n <= PAGES && d + n <= PAGES
    requires s + n > KERNEL_PAGE || d + n > KERNEL_PAGE
    ensures !ViewsMoved(before, after, pids, dest, src, d, s, n)
  {
    if s + n > KERNEL_PAGE {
      var p := s + n - 1;
      InSpan(src, s, s + n, p);
      if d <= p < d + n {
        InSpan(src, s, s + n, p - d + s);
      }
      assert View(after, dest, p) != Wanted(before, dest, src, d, s, n, dest, p);
    } else {
      var p := d + n - 1;
      InSpan(dest, d, d + n, p);
      assert View(after, src, p) != Wanted(before, dest, src, d, s, n, src, p);
    }
  }

  /** A range that wraps around passes the tests, but none of it moves. */
  lemma NoMove(before: Links, after: Links, pids: set<nat>, dest: nat, src: nat, d: nat, s: nat, n: nat)
    requires Movable(before, dest, src, d, s, 0) && IsMoved(before, after, dest, src, d, s, 0)
    requires dest in pids && n > 0 && d < PAGES && Home(src, s) in before && Home(dest, d) !in before
    ensures !ViewsMoved(before, after, pids, dest, src, d, s, n)
  {
    assert View(after, dest, d) != Wanted(before, dest, src, d, s, n, dest, d);
  }

  /** The ranges of a request lie below the directories' views of their own tables, also where
      sharing takes the target page by page along with the source. */
  predicate Reachable(info: Shm, dest: nat) {
    && info.size < WORD && info.addr < TOP && dest < TOP
    && End(info.addr, info.size) <= TOP && End(dest, info.size) <= TOP
    && (info.addr + info.size < WORD ==> dest + info.size < WORD)
  }

  lemma FirstMapped(links: Links, pid: nat, virt: nat, size: nat)
    requires First(virt) < PAGES
    ensures Span(pid, First(virt), Checked(virt, size)) <= links.Keys ==> Home(pid, First(virt)) in Flat(links)
    ensures Span(pid, First(virt), Checked(virt, size)) !! links.Keys ==> Home(pid, First(virt)) !in Flat(links)
  {
    InSpan(pid, First(virt), Checked(virt, size), First(virt));
  }

  lemma RangeMovable(links: Links, dest: nat, src: nat, to: nat, from: nat, size: nat)
    requires to % PAGE == 0 && from % PAGE == 0 && size % PAGE == 0 && Ranged(to, size) && Ranged(from, size)
    requires from + size < WORD ==> to + size < WORD
    requires Span(src, First(from), Checked(from, size)) <= links.Keys
    requires Span(dest, First(to), Checked(to, size)) !! links.Keys
    ensures First(to) + Limit(from, size) - First(from) <= PAGES
    ensures Movable(Flat(links), dest, src, First(to), First(from), Limit(from, size) - First(from))
  {
    AlignedRange(to, size);
    AlignedRange(from, size);
    LimitMeans(to, size, First(to));
    LimitMeans(from, size, First(from));
    hide First, Limit, End, Home;
  }

  /** An accepted grant is a move exactly when both ranges end at or below 3GB. */
  lemma GrantMovesExactly(links: Links, after: Links, pids: set<nat>, dest: nat, src: nat,
                          to: nat, from: nat, size: nat)
    requires to % PAGE == 0 && from % PAGE == 0 && size % PAGE == 0 && Ranged(to, size) && Ranged(from, size)
    requires (from + size < WORD ==> to + size < WORD) && dest != src && dest in pids && src in pids
    requires Span(src, First(from), Checked(from, size)) <= links.Keys
    requires Span(dest, First(to), Checked(to, size)) !! links.Keys
    requires
      var n := Limit(from, size) - First(from);
      && Movable(Flat(links), dest, src, First(to), First(from), n)
      && IsMoved(Flat(links), Flat(after), dest, src, First(to), First(from), n)
    ensures ViewsMoved(Flat(links), Flat(after), pids, dest, src, First(to), First(from), size / PAGE)
      <==> from + size <= KERNEL_BASE && to + size <= KERNEL_BASE
  {
    hide Flat, ViewsMoved, IsMoved, Movable, End, Limit, Home;
    AlignedRange(to, size);
    AlignedRange(from, size);
    LimitMeans(to, size, First(to));
    LimitMeans(from, size, First(from));
    var d, s, n := First(to), First(from), size / PAGE;
    FirstMapped(links, src, from, size);
    FirstMapped(links, dest, to, size);
    if from + size >= WORD {
      NoMove(Flat(links), Flat(after), pids, dest, src, d, s, n);
    } else if s + n <= KERNEL_PAGE && d + n <= KERNEL_PAGE {
      LowMove(Flat(links), Flat(after), pids, dest, src, d, s, n);
    } else {
      HighMove(Flat(links), Flat(after), pids, dest, src, d, s, n);
    }
  }

  // ----- A grant from 3GB up -----

  /** The second process is the first one's child. */
  function Family(): State {
    Boot().(procs := Boot().procs[3 := OneThread(2)])
  }

  /** The request to hand one page from 3GB up to the child. */
  function OneUp(p: nat): Shm {
    Shm(Port(3, 1, 0, 1), p * PAGE, PAGE)
  }

  /** Whatever page `p` from 3GB up the kernel has allocated (a record of a process, say), and whatever
      page `q` is missing there: a process may grant the former to its child at the latter.  The page is
      then gone for a third process too, and the owner still has it, at the address chosen for the child. */
  lemma KernelHalfGrant(links: Links, after: Links, p: nat, q: nat)
    requires KERNEL_PAGE <= p < PAGES && KERNEL_PAGE <= q < PAGES
    requires Page(KERNEL, p) in links && Page(KERNEL, q) !in links
    ensures Reachable(OneUp(p), q * PAGE) && GrantError(Family(), links, true, OneUp(p), q * PAGE) == ENONE
    ensures Movable(Flat(links), 3, 2, q, p, 1)
    ensures IsMoved(Flat(links), Flat(after), 3, 2, q, p, 1) ==>
      && View(links, 4, p) == Present(links[Page(KERNEL, p)]) && View(after, 4, p) == Absent
      && View(links, 2, q) == Absent && View(after, 2, q) == Present(links[Page(KERNEL, p)])
  {
    FamilyMayGrant();
    hide Boot, KernelState.Resolve, MayGrant, Family, Curr;
    OnePage(2, p);
    OnePage(3, q);
    PageRange(p);
    PageRange(q);
    hide Span, Checked, End, First;
    if IsMoved(Flat(links), Flat(after), 3, 2, q, p, 1) {
      assert Carries(Flat(links), Flat(after), Home(3, q), Source(2, p, q, q));
      FlatPage(after, Page(KERNEL, p), 0);
      FlatPage(after, Page(KERNEL, q), 0);
    }
  }

  lemma PageRange(p: nat)
    requires p < PAGES
    ensures First(p * PAGE) == p && Checked(p * PAGE, PAGE) == p + 1 && End(p * PAGE, PAGE) == p * PAGE + PAGE <= TOP
  {}

  lemma OnePage(pid: nat, p: nat)
    ensures Span(pid, p, p + 1) == {Home(pid, p)}
  {
    SpanMore(pid, p, p);
    assert Span(pid, p, p) == {};
  }

  lemma FamilyMayGrant()
    ensures Curr(Family()) == FIRST && Resolve(Family(), Port(3, 1, 0, 1), 2) == SECOND && 3 in Family().procs
    ensures MayGrant(Family(), 2, 3)
  {}

  /** Decided by the request alone: a range is refused, moves, or is accepted above 3GB, where the
      owner and everybody else lose the pages too or keep sharing them. */
  method SyscallGrant(s: State, mem: Spaces, mapped: bool, info: Shm, dest: nat) returns (ok: bool, error: int)
    requires Core(s) && s.sched.ring != [] && mem.Valid() && mem.spaces.Keys == s.procs.Keys + {KERNEL}
    requires RequestError(s, mapped, info, dest) == ENONE ==> Spaced(info.addr, info.size) && Spaced(dest, info.size)
    requires GrantError(s, mem.links, mapped, info, dest) == ENONE ==> Reachable(info, dest)
    modifies mem, mem.pool.Footprint()
    ensures error == GrantError(s, old(mem.links), mapped, info, dest)
    ensures GrantVerdict(s, old(mem.links), mapped, info, dest, error)
    ensures error == ENONE ==> Resolve(s, info.to, Curr(s).pid).pid == Named(info.to, Curr(s).pid)
    ensures error != ENONE ==>
      ok && mem.Valid() && mem.links == old(mem.links) && mem.pool.View() == old(mem.pool.View())
    ensures error == ENONE ==>
      (ok <==> ShareFits(old(Flat(mem.links)), old(mem.links).Keys, old(Avail(mem.pool.View())),
                         Resolve(s, info.to, Curr(s).pid).pid, Curr(s).pid, First(dest), First(info.addr),
                         Limit(info.addr, info.size) - First(info.addr)))
    ensures !ok ==>
      Stuck(mem.pool.View(), mem.links, Curr(s).pid, First(info.addr), Limit(info.addr, info.size))
    ensures ok ==> mem.Valid() && mem.spaces == old(mem.spaces)
    ensures ok && error == ENONE ==>
      Granted(old(Flat(mem.links)), Flat(mem.links), old(mem.pool.View().counts), mem.pool.View().counts,
              Resolve(s, info.to, Curr(s).pid).pid, Curr(s).pid, First(dest), First(info.addr),
              Limit(info.addr, info.size) - First(info.addr))
    ensures ok && error == ENONE ==>
      (ViewsMoved(old(Flat(mem.links)), Flat(mem.links), s.procs.Keys + {KERNEL},
                  Resolve(s, info.to, Curr(s).pid).pid, Curr(s).pid, First(dest), First(info.addr), info.size / PAGE)
       <==> info.addr + info.size <= KERNEL_BASE && dest + info.size <= KERNEL_BASE)
  {
    hide Core, TableOk, StatesOk, MemoryOk, FramePool.Valid, FramePool.View, Flat, KernelState.Resolve,
      Granted, Curr, ViewsMoved, Movable, IsMoved, Checked, Limit, First, End, ShareFits, Stuck, Avail, GrantVerdict,
      Named;
    Callers(s, 0);
    GrantErrorIs(s, mem.links, mapped, info, dest);
    var caller := Curr(s);
    ok := true;
    if !mapped {
      return ok, EPARAM;
    }
    if info.size == 0 {
      return ok, ESIZE;
    }
    var target := Resolve(s, info.to, caller.pid);
    if target == NOBODY {
      return ok, EINVALID;
    }
    if target.pid !in s.procs {
      return ok, ENOTAVAIL;
    }
    if !(s.procs[caller.pid].priv > s.procs[target.pid].priv || s.procs[target.pid].parent == caller.pid) {
      return ok, EPRIV;
    }
    if info.addr % PAGE != 0 || dest % PAGE != 0 {
      return ok, EALIGN;
    }
    if info.size % PAGE != 0 {
      return ok, ESIZE;
    }
    Callers(s, target.pid);
    var state := mem.VirtualIsMapped(caller.pid, info.addr, info.size);
    if state != 1 {
      return true, EADDR;
    }
    state := mem.VirtualIsMapped(target.pid, dest, info.size);
    if state != 0 {
      return true, ENORES;
    }
    error := ENONE;
    ghost var n := Limit(info.addr, info.size) - First(info.addr);
    ghost var before := mem.links;
    RangeMovable(mem.links, target.pid, caller.pid, dest, info.addr, info.size);
    ok := Transfer(mem, caller.pid, target.pid, info.addr, dest, info.size, n);
    if ok {
      GrantMoved(old(Flat(mem.links)), Flat(mem.links), old(mem.pool.View().counts), mem.pool.View().counts,
                 target.pid, caller.pid, First(dest), First(info.addr), n);
      GrantMovesExactly(before, mem.links, s.procs.Keys + {KERNEL}, target.pid, caller.pid, dest, info.addr, info.size);
    }
  }

  lemma GrantMoved(before: Links, after: Links, counts: seq<nat>, now: seq<nat>,
                   dest: nat, src: nat, d: nat, s: nat, n: nat)
    requires Granted(before, after, counts, now, dest, src, d, s, n)
    ensures Movable(before, dest, src, d, s, n) && IsMoved(before, after, dest, src, d, s, n)
  {}

  lemma Callers(s: State, target: nat)
    requires Core(s) && s.sched.ring != []
    ensures Curr(s).pid in s.procs
    ensures MayGrant(s, Curr(s).pid, target) ==> Curr(s).pid != target
  {
    CurrLive(s);
    if MayGrant(s, Curr(s).pid, target) {
      GrantIsToAnother(s, Curr(s).pid, target);
    }
  }
}
