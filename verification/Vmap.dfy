/** Mapping new memory at an address of the caller's choice (kernel/core/system/memory/syscall_vmap.c). */
module Vmaps {
  import opened KernelState
  import opened Paging
  import opened Frames
  import opened AddressSpaces
  import opened Payload

  /** The result of a request in a given memory; the sum is taken in 32 bits. */
  ghost function VmapError(links: Links, pid: nat, dest: nat, size: nat): int {
    if End(dest, size) > KERNEL_BASE then EADDR
    else if size == 0 then ESIZE
    else if dest % PAGE != 0 then EALIGN
    else if size % PAGE != 0 then ESIZE
    else if !(Span(pid, First(dest), Checked(dest, size)) !! links.Keys) then ENOTAVAIL
    else ENONE
  }

  /** What comes back from a request, condition by condition: an end in the kernel's part, in 32 bits, an empty
      range, an address or a size that is no multiple of a page, or memory that is there already. */
  ghost predicate VmapVerdict(links: Links, pid: nat, dest: nat, size: nat, error: int) {
    if (dest + size) % 0x1_0000_0000 > 0xC000_0000 then error == -3
    else if size == 0 then error == -4
    else if dest % 4096 != 0 then error == -5
    else if size % 4096 != 0 then error == -4
    else if !NonePresent(links, pid, dest, size) then error == -6
    else error == 0
  }

  lemma VmapErrorIs(links: Links, pid: nat, dest: nat, size: nat)
    requires dest < WORD && size < WORD
    ensures VmapVerdict(links, pid, dest, size, VmapError(links, pid, dest, size))
  {
    hide NonePresent, Span, First, Checked;
    if dest % PAGE == 0 && size % PAGE == 0 && size > 0 {
      PresentExactly(links, pid, dest, size);
    }
  }

  /** All pages of the request are there. */
  ghost predicate AllThere(links: Links, pid: nat, dest: nat, size: nat) {
    Span(pid, First(dest), First(dest) + size / PAGE) <= links.Keys
  }

  /** A request that wraps around is accepted on the strength of its first page, which stays missing. */
  lemma ThereExactly(before: Links, links: Links, pid: nat, dest: nat, size: nat, taken: set<nat>)
    requires dest < TOP && 0 < size < WORD && VmapError(before, pid, dest, size) == ENONE
    requires Filled(Flat(before), Flat(links), Span(pid, First(dest), Limit(dest, size)), taken)
    ensures AllThere(links, pid, dest, size) <==> dest + size < WORD
    ensures dest + size < WORD ==> dest + size <= KERNEL_BASE
  {
    AlignedRange(dest, size);
    EndCases(dest, size);
    var lo := First(dest);
    InSpan(pid, lo, Checked(dest, size), lo);
    InSpan(pid, lo, lo + size / PAGE, lo);
    hide End, First, Home, Span;
    if dest + size >= WORD {
      EmptySpan(pid, lo);
      FlatPage(before, Home(pid, lo), 0);
      FlatPage(links, Home(pid, lo), 0);
    } else {
      FilledAll(Flat(before), links, Span(pid, lo, lo + size / PAGE), taken);
    }
  }

  /** New, cleared memory below the kernel's part and nothing else, if and only if the request does
      not wrap around; one that does is accepted as well, and gets nothing. */
  method SyscallVmap(mem: Spaces, ram: Ram, pid: nat, dest: nat, size: nat) returns (ok: bool, error: int, answer: int)
    requires mem.Valid() && pid in mem.spaces && ram.Shaped(mem.pool.counts.Length) && ram !in mem.pool.Footprint()
    requires dest < WORD - PAGE && size < WORD
    requires VmapError(mem.links, pid, dest, size) == ENONE ==> dest < TOP
    modifies mem, mem.pool.Footprint(), ram
    ensures error == VmapError(old(mem.links), pid, dest, size)
    ensures VmapVerdict(old(mem.links), pid, dest, size, error) && answer == (if error == ENONE then dest else error)
    ensures error != ENONE ==> ok && mem.Valid() && mem.links == old(mem.links) && ram.frames == old(ram.frames)
    ensures error == ENONE ==>
      (ok <==> Need(old(mem.links).Keys, Span(pid, First(dest), Limit(dest, size))) <= old(Avail(mem.pool.View())))
    ensures !ok ==> mem.pool.View().empty
    ensures ok ==> mem.Valid() && mem.spaces == old(mem.spaces) && ram.Shaped(mem.pool.counts.Length)
    ensures ok && error == ENONE ==> (AllThere(mem.links, pid, dest, size) <==> dest + size < WORD)
    ensures ok && error == ENONE && dest + size < WORD ==> dest + size <= KERNEL_BASE
    ensures ok && error == ENONE ==>
      && Filled(old(Flat(mem.links)), Flat(mem.links), Span(pid, First(dest), Limit(dest, size)),
                old(mem.pool.View()).taken)
      && Cleared(mem.links, old(ram.frames), ram.frames, ram.low, pid, dest, Limit(dest, size))
  {
    hide Spaces.ValidBut, Limit, Checked, Filled, Cleared, End, First, AllThere, Flat, Need, Avail, VmapVerdict;
    VmapErrorIs(mem.links, pid, dest, size);
    ok := true;
    if End(dest, size) > KERNEL_BASE {
      return ok, EADDR, EADDR;
    }
    if size == 0 {
      return ok, ESIZE, ESIZE;
    }
    if dest % PAGE != 0 {
      return ok, EALIGN, EALIGN;
    }
    if size % PAGE != 0 {
      return ok, ESIZE, ESIZE;
    }
    var state := mem.VirtualIsMapped(pid, dest, size);
    if state != 0 {
      return ok, ENOTAVAIL, ENOTAVAIL;
    }
    error, answer := ENONE, dest;
    ghost var before, taken := mem.links, mem.pool.View().taken;
    ok := AllocCleared(mem, ram, pid, dest, size);
    if ok {
      ThereExactly(before, mem.links, pid, dest, size, taken);
    }
  }
}
