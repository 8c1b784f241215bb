/** Thread identifiers and IPC ports (kernel/core/ipc/port.c).

    A port is a 32-bit word with four bit fields; the model works on the fields,
    and the packing lemmas below show that nothing is lost by that. */
module Ports {

  const PROCESS_MAX := 1024
  const PROCESS_THREAD_MAX := 64
  const PROCESS_MESSAGE_MAX := 1024
  const PORT_LIMIT := 0x1_0000_0000

  datatype Uid = Uid(pid: nat, tid: nat)

  /** The all-zero identifier: "no thread". */
  const NOBODY := Uid(0, 0)

  datatype Port = Port(pid: nat, pvn: nat, tid: nat, tvn: nat) {
    predicate Fits() {
      pid < 1024 && pvn < 256 && tid < 64 && tvn < 256
    }

    predicate Unversioned() {
      pvn == 0 && tvn == 0
    }
  }

  const IPORT_ANY := Port(1, 0, 0, 0)
  const IPORT_KERNEL := Port(1, 0, 1, 0)

  // ----- Packing -----

  function Pack(p: Port): (raw: nat) {
    p.pid + 0x400 * p.pvn + 0x4_0000 * p.tid + 0x100_0000 * p.tvn
  }

  function Unpack(raw: nat): (p: Port) {
    Port(raw % 0x400, raw / 0x400 % 0x100, raw / 0x4_0000 % 0x40, raw / 0x100_0000 % 0x100)
  }

  lemma Low10(high: nat, low: nat)
    requires low < 0x400
    ensures (0x400 * high + low) / 0x400 == high && (0x400 * high + low) % 0x400 == low
  {}

  lemma Low18(high: nat, low: nat)
    requires low < 0x4_0000
    ensures (0x4_0000 * high + low) / 0x4_0000 == high
  {}

  lemma Low24(high: nat, low: nat)
    requires low < 0x100_0000
    ensures (0x100_0000 * high + low) / 0x100_0000 == high
  {}

  lemma Low8(high: nat, low: nat)
    requires low < 0x100
    ensures (0x100 * high + low) % 0x100 == low
  {}

  lemma Low6(high: nat, low: nat)
    requires low < 0x40
    ensures (0x40 * high + low) % 0x40 == low
  {}

  /** Packing the fields and reading them back loses nothing. */
  lemma UnpackOfPack(p: Port)
    requires p.Fits()
    ensures Pack(p) < PORT_LIMIT && Unpack(Pack(p)) == p
  {
    Low10(p.pvn + 0x100 * p.tid + 0x4000 * p.tvn, p.pid);
    Low18(p.tid + 0x40 * p.tvn, p.pid + 0x400 * p.pvn);
    Low24(p.tvn, p.pid + 0x400 * p.pvn + 0x4_0000 * p.tid);
    Low8(p.tid + 0x40 * p.tvn, p.pvn);
    Low6(p.tvn, p.tid);
    Low8(0, p.tvn);
  }

  /** Every 32-bit word is the packing of its own fields. */
  lemma PackOfUnpack(raw: nat)
    requires raw < PORT_LIMIT
    ensures Unpack(raw).Fits() && Pack(Unpack(raw)) == raw
  {
    var a := raw / 0x400;
    var b := a / 0x100;
    assert b == raw / 0x4_0000;
    assert b / 0x40 == raw / 0x100_0000;
  }

  /** The two special ports have the raw values the system headers publish, and the versions
      lie above the numbers they belong to. */
  lemma SpecialPorts()
    ensures Pack(IPORT_ANY) == 1 && Pack(IPORT_KERNEL) == 0x4_0001
    ensures Unpack(0x400) == Port(0, 1, 0, 0) && Unpack(0x100_0000) == Port(0, 0, 0, 1)
  {}

  // ----- Comparison -----

  predicate Compare(a: Port, b: Port) {
    if a == IPORT_ANY || b == IPORT_ANY then
      true
    else if a.Unversioned() || b.Unversioned() then
      a.pid == b.pid && a.tid == b.tid
    else
      a == b
  }

  // ----- Versions -----

  /** An 8-bit version counter after one more creation in its slot. */
  function NextVersion(v: nat): (w: nat)
    requires v < 256
    ensures w < 256
  {
    (if v + 1 > 1 then v + 1 else 1) % 256
  }

  /** The version in force after `generation` creations in a slot that started at zero. */
  function VersionOf(generation: nat): (v: nat)
    ensures v < 256
  {
    if generation == 0 then 0 else NextVersion(VersionOf(generation - 1))
  }

  lemma StepModulo(n: nat)
    ensures (n + 1) % 256 == if n % 256 == 255 then 0 else n % 256 + 1
  {
    var q, r := n / 256, n % 256;
    assert n == 256 * q + r;
    assert r == 255 ==> n + 1 == 256 * (q + 1);
  }

  /** Versions repeat with period 256, and the value 0, meant to be reserved,
      is handed out once in every period. */
  lemma {:induction false} VersionsArePeriodic(generation: nat)
    ensures VersionOf(generation) == generation % 256
  {
    if generation > 0 {
      VersionsArePeriodic(generation - 1);
      StepModulo(generation - 1);
    }
  }

  /** A remainder is the number itself plus a multiple of the divisor. */
  lemma ModuloUnique(n: int, k: int, r: int)
    requires n == 256 * k + r && 0 <= r < 256
    ensures n % 256 == r
  {}

  lemma DifferenceModulo(g: nat, h: nat)
    requires g <= h
    ensures (h - g) % 256 == 0 <==> g % 256 == h % 256
  {
    var a, r, b, q := g / 256, g % 256, h / 256, h % 256;
    assert h - g == 256 * (b - a) + (q - r);
    if q >= r {
      ModuloUnique(h - g, b - a, q - r);
    } else {
      ModuloUnique(h - g, b - a - 1, q - r + 256);
    }
  }

  /** Two generations of one slot get the same version exactly when they are
      a multiple of 256 apart; in particular never within 255 generations. */
  lemma VersionCollision(g: nat, h: nat)
    requires g <= h
    ensures VersionOf(g) == VersionOf(h) <==> (h - g) % 256 == 0
    ensures g < h < g + 256 ==> VersionOf(g) != VersionOf(h)
  {
    hide VersionOf;
    VersionsArePeriodic(g);
    VersionsArePeriodic(h);
    DifferenceModulo(g, h);
  }
}
