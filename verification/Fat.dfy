/** Reading a file from a FAT16 volume (user/fatfs-all/fat.c): sector by sector, through one-sector
    caches, following the cluster chain. */
module Fat {
  const SECTOR := 512
  const ENTRY_END := 0xFFF8
  const HALF := 0x1_0000
  const WORD := 0x1_0000_0000

  /** Sectors are read at a 32-bit byte offset, so their numbers count modulo this. */
  const REACH := 0x80_0000

  type Byte = n: nat | n < 256

  /** The fields of the boot record that matter, and the sectors of the disk. */
  datatype Volume = Volume(
    sectorBytes: nat, clusterSectors: nat, reserved: nat, fatCount: nat, dirents: nat, fatSectors: nat,
    disk: seq<seq<Byte>>
  )

  predicate WellFormed(v: Volume) {
    && v.sectorBytes > 0 && v.clusterSectors > 0
    && forall s :: 0 <= s < |v.disk| ==> |v.disk[s]| == SECTOR
  }

  function Blank(): (s: seq<Byte>)
    ensures |s| == SECTOR
  {
    seq(SECTOR, _ => 0)
  }

  /** The sector of a number in 32 bits. */
  function Sector(v: Volume, s: int): (data: seq<Byte>)
    requires WellFormed(v)
    ensures |data| == SECTOR
  {
    if s % WORD < |v.disk| then v.disk[s % WORD] else Blank()
  }

  function ClusterBytes(v: Volume): nat {
    SECTOR * v.clusterSectors
  }

  // ----- Where a cluster lies -----

  function RootSectors(v: Volume): nat
    requires v.sectorBytes > 0
  {
    (v.dirents * 32 + v.sectorBytes - 1) / v.sectorBytes
  }

  /** The first sector of a cluster; cluster 0 stands for the root directory. */
  function ClusterSector(v: Volume, cluster: nat): int
    requires v.sectorBytes > 0
  {
    var first := v.reserved + v.fatCount * v.fatSectors;
    if cluster == 0 then first else first + RootSectors(v) + (cluster - 2) * v.clusterSectors
  }

  /** A larger multiple of `n` is larger by at least `n`. */
  lemma MultiplesApart(a: int, b: int, n: nat)
    requires a < b
    ensures a * n + n <= b * n
  {
    assert b * n == (a + 1) * n + (b - a - 1) * n;
    assert (a + 1) * n == a * n + n;
  }

  /** The root directory takes the least number of sectors that holds its entries. */
  lemma RootHolds(v: Volume)
    requires v.sectorBytes > 0
    ensures RootSectors(v) * v.sectorBytes >= v.dirents * 32
    ensures (RootSectors(v) - 1) * v.sectorBytes < v.dirents * 32
  {
    var n, b, q := v.dirents * 32 + v.sectorBytes - 1, v.sectorBytes, RootSectors(v);
    assert n == q * b + n % b;
    assert (q - 1) * b == q * b - b;
  }

  /** Clusters follow one another from the end of the root directory. */
  lemma ClustersInLine(v: Volume, c: nat)
    requires v.sectorBytes > 0 && c >= 2
    ensures ClusterSector(v, 0) == v.reserved + v.fatCount * v.fatSectors
    ensures ClusterSector(v, 2) == ClusterSector(v, 0) + RootSectors(v)
    ensures ClusterSector(v, c + 1) == ClusterSector(v, c) + v.clusterSectors
  {
    hide RootSectors;
    assert (c - 1) * v.clusterSectors == (c - 2) * v.clusterSectors + v.clusterSectors;
  }

  /** Clusters lie behind the root directory and do not overlap. */
  lemma ClustersApart(v: Volume, c: nat, d: nat, i: nat, j: nat)
    requires v.sectorBytes > 0 && 2 <= c && 2 <= d && i < v.clusterSectors && j < v.clusterSectors
    ensures ClusterSector(v, c) + i == ClusterSector(v, d) + j ==> c == d && i == j
    ensures ClusterSector(v, c) + i >= ClusterSector(v, 0) + RootSectors(v)
  {
    hide RootSectors;
    if c < d {
      MultiplesApart(c - 2, d - 2, v.clusterSectors);
    } else if d < c {
      MultiplesApart(d - 2, c - 2, v.clusterSectors);
    }
    if c > 2 {
      MultiplesApart(0, c - 2, v.clusterSectors);
    }
  }

  // ----- The chain -----

  /** The sector of the allocation table with the entry of a cluster. */
  function TableSector(v: Volume, cluster: nat): (sector: nat)
    ensures sector < WORD
  {
    (v.reserved + cluster * 2 / SECTOR) % WORD
  }

  /** The 16-bit entry of a cluster in the allocation table. */
  function FatEntry(v: Volume, cluster: nat): nat
    requires WellFormed(v)
  {
    var data := Sector(v, TableSector(v, cluster));
    (data[cluster * 2 % SECTOR] as nat) + 256 * (data[cluster * 2 % SECTOR + 1] as nat)
  }

  /** What follows a cluster: all end marks count as 65535. */
  function Next(v: Volume, cluster: nat): nat
    requires WellFormed(v)
  {
    if FatEntry(v, cluster) >= ENTRY_END then HALF - 1 else FatEntry(v, cluster)
  }

  /** The cluster reached after `k` steps from `first`, whatever the table says. */
  function Follow(v: Volume, first: nat, k: nat): nat
    requires WellFormed(v)
  {
    if k == 0 then first else Next(v, Follow(v, first, k - 1))
  }

  function Walked(v: Volume, first: nat, n: nat): (clusters: seq<nat>)
    requires WellFormed(v)
    ensures |clusters| == n && forall k :: 0 <= k < n ==> clusters[k] == Follow(v, first, k)
  {
    seq(n, k requires 0 <= k < n => Follow(v, first, k))
  }

  /** `clusters` is a chain of data clusters as the allocation table links them. */
  ghost predicate Chain(v: Volume, clusters: seq<nat>)
    requires WellFormed(v)
  {
    && (forall k :: 0 <= k < |clusters| ==> 2 <= clusters[k] < 0xFFF8)
    && (forall k :: 0 < k < |clusters| ==> FatEntry(v, clusters[k - 1]) == clusters[k])
  }

  /** Following the table from the start of a chain goes along the chain. */
  lemma {:induction false} ChainIsFollowed(v: Volume, clusters: seq<nat>, k: nat)
    requires WellFormed(v) && Chain(v, clusters) && k < |clusters|
    ensures Follow(v, clusters[0], k) == clusters[k]
  {
    hide FatEntry;
    if k > 0 {
      ChainIsFollowed(v, clusters, k - 1);
      assert FatEntry(v, clusters[k - 1]) == clusters[k];
    }
  }

  // ----- The file as one sequence -----

  function Sectors(v: Volume, from: int, n: nat): (data: seq<Byte>)
    requires WellFormed(v)
    ensures |data| == SECTOR * n
  {
    if n == 0 then [] else Sectors(v, from, n - 1) + Sector(v, from + n - 1)
  }

  /** The number of bytes in `k` clusters. */
  function Start(v: Volume, k: nat): (n: nat) {
    if k == 0 then 0 else Start(v, k - 1) + ClusterBytes(v)
  }

  /** The clusters of a chain, one after the other. */
  function Data(v: Volume, clusters: seq<nat>): (data: seq<Byte>)
    requires WellFormed(v)
    ensures |data| == Start(v, |clusters|)
  {
    if clusters == [] then []
    else
      var n := |clusters| - 1;
      Data(v, clusters[..n]) + Sectors(v, ClusterSector(v, clusters[n]), v.clusterSectors)
  }

  lemma Reslice<T>(s: seq<T>, a: nat, b: nat, c: nat, d: nat)
    requires c <= d <= b - a && a <= b <= |s|
    ensures s[a..b][c..d] == s[a + c..a + d]
  {
    assert forall i :: c <= i < d ==> s[a..b][i] == s[a + i];
  }

  lemma FrontSlice<T>(s: seq<T>, t: seq<T>, a: nat, b: nat)
    requires a <= b <= |s|
    ensures (s + t)[a..b] == s[a..b]
  {
    assert forall i :: a <= i < b ==> (s + t)[i] == s[i];
  }

  lemma {:induction false} SectorInRun(v: Volume, from: int, n: nat, j: nat)
    requires WellFormed(v) && j < n
    ensures SECTOR * j + SECTOR <= SECTOR * n
    ensures Sectors(v, from, n)[SECTOR * j..SECTOR * j + SECTOR] == Sector(v, from + j)
  {
    hide Sector;
    if j < n - 1 {
      SectorInRun(v, from, n - 1, j);
      FrontSlice(Sectors(v, from, n - 1), Sector(v, from + n - 1), SECTOR * j, SECTOR * j + SECTOR);
    }
  }

  lemma EntryAt(v: Volume, cluster: nat)
    requires WellFormed(v)
    ensures cluster * 2 % SECTOR + 1 < SECTOR
    ensures
      var data := Sector(v, v.reserved + cluster * 2 / SECTOR);
      FatEntry(v, cluster) == (data[cluster * 2 % SECTOR] as nat) + 256 * (data[cluster * 2 % SECTOR + 1] as nat)
  {
    hide Sector;
    EntryFits(cluster);
    SameSector(v, v.reserved + cluster * 2 / SECTOR);
  }

  /** An entry is the little-endian pair of bytes at twice its number in the table as a whole. */
  lemma EntryInTable(v: Volume, cluster: nat, n: nat)
    requires WellFormed(v) && 2 * cluster + 1 < SECTOR * n
    ensures
      var table := Sectors(v, v.reserved, n);
      FatEntry(v, cluster) == (table[2 * cluster] as nat) + 256 * (table[2 * cluster + 1] as nat)
  {
    hide Sector, Sectors, FatEntry;
    EntryAt(v, cluster);
    var j, o := cluster * 2 / SECTOR, cluster * 2 % SECTOR;
    SectorSplit(cluster * 2, n);
    EntryFits(cluster);
    SectorInRun(v, v.reserved, n, j);
    var table := Sectors(v, v.reserved, n);
    assert table[SECTOR * j..SECTOR * j + SECTOR][o] == table[2 * cluster];
    assert table[SECTOR * j..SECTOR * j + SECTOR][o + 1] == table[2 * cluster + 1];
  }

  lemma {:induction false} StartGrows(v: Volume, j: nat, k: nat)
    requires j <= k
    ensures Start(v, j) <= Start(v, k)
  {
    if j < k {
      StartGrows(v, j, k - 1);
    }
  }

  lemma {:induction false} ClusterInData(v: Volume, clusters: seq<nat>, k: nat)
    requires WellFormed(v) && k < |clusters|
    ensures Start(v, k + 1) <= |Data(v, clusters)|
    ensures Data(v, clusters)[Start(v, k)..Start(v, k + 1)] ==
      Sectors(v, ClusterSector(v, clusters[k]), v.clusterSectors)
  {
    var n := |clusters| - 1;
    StartGrows(v, k + 1, n + 1);
    if k < n {
      ClusterInData(v, clusters[..n], k);
      var front, last := Data(v, clusters[..n]), Sectors(v, ClusterSector(v, clusters[n]), v.clusterSectors);
      FrontSlice(front, last, Start(v, k), Start(v, k + 1));
    }
  }

  /** A slice of a slice of a slice. */
  lemma PieceOfPiece<T>(all: seq<T>, a: nat, b: nat, run: seq<T>, c: nat, d: nat, part: seq<T>, o: nat, m: nat)
    requires a <= b <= |all| && c <= d <= b - a && o + m <= d - c
    requires all[a..b] == run && run[c..d] == part
    ensures all[a + c + o..a + c + o + m] == part[o..o + m]
  {
    Reslice(all, a, b, c, d);
    Reslice(all, a + c, a + d, o, o + m);
  }

  lemma StartNext(v: Volume, k: nat)
    ensures Start(v, k + 1) == Start(v, k) + SECTOR * v.clusterSectors
  {}

  lemma SectorSplit(r: nat, n: nat)
    requires r < SECTOR * n
    ensures r == SECTOR * (r / SECTOR) + r % SECTOR && r / SECTOR < n
  {}

  lemma PieceBound(v: Volume, clusters: seq<nat>, k: nat, j: nat)
    requires WellFormed(v) && k < |clusters| && j < v.clusterSectors
    ensures Start(v, k) + SECTOR * j + SECTOR <= Start(v, k + 1) <= |Data(v, clusters)|
  {
    hide Data;
    StartNext(v, k);
    StartGrows(v, k + 1, |clusters|);
  }

  /** A piece of sector `j` of cluster `k`, `o` bytes into it. */
  lemma PieceAt(v: Volume, clusters: seq<nat>, k: nat, j: nat, o: nat, m: nat, at: nat)
    requires WellFormed(v) && k < |clusters| && j < v.clusterSectors && o + m <= SECTOR
    requires at == Start(v, k) + SECTOR * j + o
    ensures at + m <= |Data(v, clusters)|
    ensures Data(v, clusters)[at..at + m] == Sector(v, ClusterSector(v, clusters[k]) + j)[o..o + m]
  {
    hide Data, Sectors, Sector, Start, ClusterSector, ClusterBytes;
    var first := ClusterSector(v, clusters[k]);
    PieceBound(v, clusters, k, j);
    ClusterInData(v, clusters, k);
    SectorInRun(v, first, v.clusterSectors, j);
    StartNext(v, k);
    var all, run, part := Data(v, clusters), Sectors(v, first, v.clusterSectors), Sector(v, first + j);
    PieceOfPiece(all, Start(v, k), Start(v, k + 1), run, SECTOR * j, SECTOR * j + SECTOR, part, o, m);
  }

  lemma {:induction false} StartIs(v: Volume, k: nat)
    ensures Start(v, k) == SECTOR * (k * v.clusterSectors)
  {
    if k > 0 {
      StartIs(v, k - 1);
      assert k * v.clusterSectors == (k - 1) * v.clusterSectors + v.clusterSectors;
    }
  }

  /** Every byte of a file is a byte of the disk: byte `o` of sector `j` of its cluster `k`, counted from
      the sector where that cluster lies. */
  lemma DataByte(v: Volume, clusters: seq<nat>, k: nat, j: nat, o: nat)
    requires WellFormed(v) && k < |clusters| && j < v.clusterSectors && o < 512
    ensures |Data(v, clusters)| == 512 * (|clusters| * v.clusterSectors)
    ensures 512 * (k * v.clusterSectors + j) + o < |Data(v, clusters)|
    ensures
      var s := ClusterSector(v, clusters[k]) + j;
      0 <= s < |v.disk| && s < WORD ==> Data(v, clusters)[512 * (k * v.clusterSectors + j) + o] == v.disk[s][o]
  {
    hide Data, ClusterSector, Start, Sector;
    StartIs(v, k);
    StartIs(v, |clusters|);
    OneByte(v, clusters, k, j, o, Start(v, k) + SECTOR * j + o);
    OnDisk(v, ClusterSector(v, clusters[k]) + j);
  }

  lemma OneByte(v: Volume, clusters: seq<nat>, k: nat, j: nat, o: nat, at: nat)
    requires WellFormed(v) && k < |clusters| && j < v.clusterSectors && o < SECTOR
    requires at == Start(v, k) + SECTOR * j + o
    ensures at < |Data(v, clusters)| && Data(v, clusters)[at] == Sector(v, ClusterSector(v, clusters[k]) + j)[o]
  {
    hide Data, ClusterSector, Start, Sector;
    PieceAt(v, clusters, k, j, o, 1, at);
    var data, sector := Data(v, clusters), Sector(v, ClusterSector(v, clusters[k]) + j);
    assert data[at] == data[at..at + 1][0] && sector[o] == sector[o..o + 1][0];
  }

  lemma OnDisk(v: Volume, s: int)
    requires WellFormed(v)
    ensures 0 <= s < |v.disk| && s < WORD ==> Sector(v, s) == v.disk[s]
  {}

  // ----- The one-sector cache -----

  /** What the cache remembers of the sector it holds: sixteen bits of its number. */
  function KeyOf(held: int): nat {
    if held < 0 then HALF - 1 else held % HALF
  }

  /** The sector in the buffer after a request; nothing is read if the remembered number matches. */
  function Fetched(held: int, sector: nat): int {
    if sector == KeyOf(held) then held else sector % REACH
  }

  /** Reading sector `sector` asks the device for the bytes from `sector * 512` on, in 32 bits. */
  lemma ByteOffset(sector: nat)
    ensures (sector * SECTOR) % WORD == (sector % REACH) * SECTOR
    ensures (sector * SECTOR) % WORD / SECTOR == sector % REACH
  {
    var q, m := sector / REACH, sector % REACH;
    assert sector == REACH * q + m;
    OffsetParts(q, m);
  }

  lemma SameKey(sector: nat)
    ensures KeyOf(sector % REACH) == sector % HALF
  {
    var q, m := sector / REACH, sector % REACH;
    assert sector == HALF * (128 * q) + m;
  }

  lemma OffsetParts(q: nat, m: nat)
    requires m < REACH
    ensures ((REACH * q + m) * SECTOR) % WORD == m * SECTOR
  {
    assert (REACH * q + m) * SECTOR == WORD * q + m * SECTOR;
  }

  /** Every request of a run finds its own sector in the buffer. */
  ghost predicate AllRight(held: int, requests: seq<nat>)
    decreases requests
  {
    requests == [] || (Fetched(held, requests[0]) == requests[0] && AllRight(requests[0], requests[1..]))
  }

  predicate Alias(held: int, sector: nat) {
    if held < 0 then sector == HALF - 1 else held >= HALF && sector == held % HALF
  }

  /** Request `sector` gets its own sector when the buffer holds `held`. */
  lemma FetchedExactly(held: int, sector: nat)
    ensures Fetched(held, sector) == sector <==> !Alias(held, sector) && sector < REACH
  {}

  lemma {:induction false} RightFrom(held: int, requests: seq<nat>)
    ensures AllRight(held, requests) <==>
      && (requests != [] ==> !Alias(held, requests[0]))
      && (forall i :: 0 <= i < |requests| ==> requests[i] < REACH)
      && forall i :: 0 < i < |requests| ==> !Alias(requests[i - 1], requests[i])
    decreases requests
  {
    hide Alias, Fetched;
    if requests != [] {
      var rest := requests[1..];
      RightFrom(requests[0], rest);
      FetchedExactly(held, requests[0]);
      assert requests == [requests[0]] + rest;
      if forall i :: 0 < i < |requests| ==> !Alias(requests[i - 1], requests[i]) {
        assert rest != [] ==> !Alias(requests[1 - 1], requests[1]);
        forall i | 0 < i < |rest| ensures !Alias(rest[i - 1], rest[i]) {
          assert !Alias(requests[i + 1 - 1], requests[i + 1]);
        }
      }
      if (rest != [] ==> !Alias(requests[0], rest[0])) && forall i :: 0 < i < |rest| ==> !Alias(rest[i - 1], rest[i]) {
        forall i | 0 < i < |requests| ensures !Alias(requests[i - 1], requests[i]) {
          if i > 1 {
            assert !Alias(rest[i - 1 - 1], rest[i - 1]);
          }
        }
      }
    }
  }

  /** The cache is right for a whole run of requests exactly when all sectors lie within reach of a
      byte offset, the first is not sector 65535, and none follows one that lies a multiple of
      65536 above it. */
  lemma CacheRightExactly(requests: seq<nat>)
    ensures AllRight(-1, requests) <==>
      && (forall i :: 0 <= i < |requests| ==> requests[i] < REACH)
      && (requests != [] ==> requests[0] != 65535)
      && forall i :: 0 < i < |requests| ==> !(requests[i - 1] >= HALF && requests[i] == requests[i - 1] % HALF)
  {
    RightFrom(-1, requests);
    if forall i :: 0 < i < |requests| ==> !Alias(requests[i - 1], requests[i]) {
      forall i | 0 < i < |requests| ensures !(requests[i - 1] >= HALF && requests[i] == requests[i - 1] % HALF) {
        assert !Alias(requests[i - 1], requests[i]);
      }
    }
  }

  /** A disk with more than 65536 sectors is enough to read the wrong one, and so is a first request
      for sector 65535; sector 2^23 is read at the start of the disk. */
  lemma CacheGoesWrong()
    ensures !AllRight(-1, [65536, 0]) && !AllRight(-1, [65535])
    ensures !AllRight(-1, [8388608]) && Fetched(-1, 8388608) == 0
  {
    assert [65536, 0][1..] == [0];
  }

  /** What a cache that started empty holds after a run of requests. */
  ghost function HeldAfter(requests: seq<nat>): int {
    if requests == [] then -1 else Fetched(HeldAfter(requests[..|requests| - 1]), requests[|requests| - 1])
  }

  lemma {:induction false} RightToTheEnd(held: int, requests: seq<nat>, next: nat)
    ensures AllRight(held, requests + [next]) <==>
      AllRight(held, requests) && Fetched(if requests == [] then held else requests[|requests| - 1], next) == next
    decreases requests
  {
    var all := requests + [next];
    if requests == [] {
      assert all[1..] == [];
    } else {
      assert all[1..] == requests[1..] + [next];
      RightToTheEnd(requests[0], requests[1..], next);
    }
  }

  /** A run that was right so far ends with its last sector in the buffer. */
  lemma {:induction false} HeldIsLast(requests: seq<nat>)
    requires AllRight(-1, requests)
    ensures HeldAfter(requests) == if requests == [] then -1 else requests[|requests| - 1]
  {
    if requests != [] {
      var n := |requests| - 1;
      assert requests == requests[..n] + [requests[n]];
      RightToTheEnd(-1, requests[..n], requests[n]);
      HeldIsLast(requests[..n]);
    }
  }

  /** One more request is right exactly when the run was and its own sector is then in the buffer. */
  lemma RightAppend(requests: seq<nat>, next: nat)
    ensures AllRight(-1, requests + [next]) <==> AllRight(-1, requests) && HeldAfter(requests + [next]) == next
    ensures HeldAfter(requests + [next]) == Fetched(HeldAfter(requests), next)
  {
    assert (requests + [next])[..|requests|] == requests;
    RightToTheEnd(-1, requests, next);
    if AllRight(-1, requests) {
      HeldIsLast(requests);
    }
  }

  /** No alias occurs below sector 65535. */
  lemma SmallIsRight(requests: seq<nat>)
    requires forall i :: 0 <= i < |requests| ==> requests[i] < HALF - 1
    ensures AllRight(-1, requests)
  {
    CacheRightExactly(requests);
  }

  /** All requests of a run got their own sectors, and these are on the disk. */
  ghost predicate Served(v: Volume, requests: seq<nat>) {
    AllRight(-1, requests) && forall i :: 0 <= i < |requests| ==> requests[i] < |v.disk|
  }

  lemma ServedBefore(v: Volume, requests: seq<nat>, next: nat)
    requires Served(v, requests + [next])
    ensures Served(v, requests) && next < |v.disk| && HeldAfter(requests + [next]) == next
  {
    RightAppend(requests, next);
    var all := requests + [next];
    assert all[|requests|] == next;
    forall i | 0 <= i < |requests| ensures requests[i] < |v.disk| {
      assert all[i] == requests[i];
    }
  }

  /** A disk of at most 65535 sectors has no aliases, so everything on it is served. */
  lemma SmallDiskServes(v: Volume, requests: seq<nat>)
    requires |v.disk| < HALF
    ensures Served(v, requests) <==> forall i :: 0 <= i < |requests| ==> requests[i] < |v.disk|
  {
    if forall i :: 0 <= i < |requests| ==> requests[i] < |v.disk| {
      SmallIsRight(requests);
    }
  }

  class SectorCache {
    const vol: Volume
    var last: nat
    var buffer: seq<Byte>
    ghost var asked: seq<nat>

    ghost predicate Valid()
      reads this
    {
      && WellFormed(vol) && |buffer| == SECTOR && last == KeyOf(HeldAfter(asked))
      && (HeldAfter(asked) >= 0 ==> buffer == Sector(vol, HeldAfter(asked)))
    }

    constructor (vol: Volume)
      requires WellFormed(vol)
      ensures Valid() && this.vol == vol && asked == []
    {
      this.vol := vol;
      last, buffer, asked := HALF - 1, Blank(), [];
    }

    /** The buffer holds the sector if the whole run of requests was served. */
    method Fetch(sector: nat)
      requires Valid() && sector < WORD
      modifies this
      ensures Valid() && asked == old(asked) + [sector]
      ensures Served(vol, asked) ==> Served(vol, old(asked)) && buffer == Sector(vol, sector)
    {
      hide Sector, AllRight;
      RightAppend(asked, sector);
      ByteOffset(sector);
      SameKey(sector);
      if sector != last {
        buffer := Sector(vol, (sector * SECTOR) % WORD / SECTOR);
        last := sector % HALF;
      }
      asked := asked + [sector];
      if Served(vol, asked) {
        ServedBefore(vol, old(asked), sector);
      }
    }
  }

  // ----- Reading -----

  /** How many bytes a request gets, in 32-bit arithmetic. */
  function Clip(size: nat, offset: nat, length: nat): nat {
    if offset >= size then 0
    else if (offset + length) % WORD > size then size - offset
    else length
  }

  /** The request is cut off at the end of the file exactly when its end does not wrap around. */
  lemma ClipExactly(size: nat, offset: nat, length: nat)
    requires size < WORD && offset < size && length < WORD
    ensures Clip(size, offset, length) == (if length < size - offset then length else size - offset)
      <==> offset + length < WORD
  {
    if offset + length >= WORD {
      assert (offset + length) % WORD == offset + length - WORD;
    }
  }

  /** What following the table from `first` finds, as far as byte `n`. */
  ghost function Found(v: Volume, first: nat, n: nat): (data: seq<Byte>)
    requires WellFormed(v)
    ensures |data| >= n
  {
    StartCovers(v, n);
    Data(v, Walked(v, first, n))
  }

  lemma {:induction false} StartCovers(v: Volume, n: nat)
    requires WellFormed(v)
    ensures Start(v, n) >= n
  {
    if n > 0 {
      StartCovers(v, n - 1);
    }
  }

  lemma {:induction false} FrontOfData(v: Volume, clusters: seq<nat>, n: nat)
    requires WellFormed(v) && n <= |clusters|
    ensures Start(v, n) <= |Data(v, clusters)| && Data(v, clusters)[..Start(v, n)] == Data(v, clusters[..n])
    decreases |clusters|
  {
    hide Start, Sectors, ClusterSector;
    StartGrows(v, n, |clusters|);
    if n == |clusters| {
      assert clusters[..n] == clusters;
    } else {
      var last := |clusters| - 1;
      FrontOfData(v, clusters[..last], n);
      assert clusters[..last][..n] == clusters[..n];
      StartGrows(v, n, last);
      FrontSlice(Data(v, clusters[..last]),
                 Sectors(v, ClusterSector(v, clusters[last]), v.clusterSectors), 0, Start(v, n));
    }
  }

  /** As far as a file's chain reaches, what is found is the file. */
  lemma FoundIsFile(v: Volume, clusters: seq<nat>, from: nat, n: nat)
    requires WellFormed(v) && Chain(v, clusters) && clusters != [] && from <= n <= Start(v, |clusters|)
    ensures Found(v, clusters[0], n)[from..n] == Data(v, clusters)[from..n]
  {
    hide Data, Follow, Start;
    var walked := Walked(v, clusters[0], n);
    var m := if n < |clusters| then n else |clusters|;
    assert walked[..m] == clusters[..m] by {
      forall k | 0 <= k < m ensures walked[k] == clusters[k] {
        ChainIsFollowed(v, clusters, k);
      }
    }
    FrontOfData(v, walked, m);
    FrontOfData(v, clusters, m);
    StartCovers(v, n);
    assert n <= Start(v, m);
    SameFront(Data(v, walked), Data(v, clusters), Start(v, m), from, n);
  }

  lemma SameFront<T>(a: seq<T>, b: seq<T>, m: nat, from: nat, n: nat)
    requires from <= n <= m <= |a| && m <= |b| && a[..m] == b[..m]
    ensures a[from..n] == b[from..n]
  {
    assert a[from..n] == a[..m][from..n] && b[from..n] == b[..m][from..n];
  }

  // ----- The sectors of a read -----

  /** The table sectors that following the table for `n` clusters asks for. */
  ghost function TablePlan(v: Volume, first: nat, n: nat): (plan: seq<nat>)
    requires WellFormed(v)
    ensures |plan| == n && forall j :: 0 <= j < n ==> plan[j] == TableSector(v, Follow(v, first, j))
  {
    seq(n, j requires 0 <= j < n => TableSector(v, Follow(v, first, j)))
  }

  /** The sector with byte `off` of a cluster. */
  function DataSector(v: Volume, cluster: nat, off: nat): (sector: nat)
    requires v.sectorBytes > 0
    ensures sector < WORD
  {
    (ClusterSector(v, cluster) + off / SECTOR) % WORD
  }

  /** How much one step reads: up to the end of a sector. */
  function PieceLength(off: nat, room: nat): (m: nat)
    ensures m <= room && (room > 0 ==> m > 0)
  {
    if room > SECTOR - off % SECTOR then SECTOR - off % SECTOR else room
  }

  /** The number of the cluster that byte `x` of a file is in. */
  ghost function Index(v: Volume, x: nat): (k: nat)
    requires WellFormed(v)
    ensures Start(v, k) <= x < Start(v, k) + ClusterBytes(v)
    decreases x
  {
    if x < ClusterBytes(v) then 0
    else
      StartAdds(v, 1, Index(v, x - ClusterBytes(v)));
      assert Start(v, 1) == ClusterBytes(v) by { assert Start(v, 0) == 0; }
      1 + Index(v, x - ClusterBytes(v))
  }

  lemma IndexUnique(v: Volume, k: nat, o: nat)
    requires WellFormed(v) && o < ClusterBytes(v)
    ensures Index(v, Start(v, k) + o) == k
  {
    hide Index, ClusterBytes;
    var j := Index(v, Start(v, k) + o);
    if j < k {
      StartGrows(v, j + 1, k);
    } else if k < j {
      StartGrows(v, k + 1, j);
    }
  }

  /** How many clusters lie in front of the one with the last of `n` bytes from `offset` on. */
  ghost function Steps(v: Volume, offset: nat, n: nat): nat
    requires WellFormed(v)
  {
    if n == 0 then 0 else Index(v, offset + n - 1)
  }

  /** The data sectors that reading the bytes from `x` to `end` asks for. */
  ghost function DataPlan(v: Volume, first: nat, x: nat, end: nat): seq<nat>
    requires WellFormed(v)
    decreases end - x
  {
    if x >= end then []
    else
      var k := Index(v, x);
      var o := x - Start(v, k);
      [DataSector(v, Follow(v, first, k), o)] + DataPlan(v, first, x + PieceLength(o, end - x), end)
  }

  /** The log of a cache grows by exactly what is planned, if that is served; if not, the log is not
      served either. */
  ghost predicate Tracks(v: Volume, before: seq<nat>, plan: seq<nat>, after: seq<nat>) {
    if Served(v, before + plan) then after == before + plan else !Served(v, after)
  }

  lemma {:induction false} ServedFront(v: Volume, before: seq<nat>, plan: seq<nat>)
    ensures Served(v, before + plan) ==> Served(v, before)
    decreases |plan|
  {
    hide Served;
    if plan == [] {
      assert before + plan == before;
    } else if Served(v, before + plan) {
      var n := |plan| - 1;
      assert before + plan == (before + plan[..n]) + [plan[n]];
      ServedBefore(v, before + plan[..n], plan[n]);
      ServedFront(v, before, plan[..n]);
    }
  }

  lemma NoPlan(v: Volume, first: nat, asked: seq<nat>)
    requires WellFormed(v)
    ensures Tracks(v, asked, TablePlan(v, first, 0), asked) && asked + TablePlan(v, first, 0) == asked
  {
    assert TablePlan(v, first, 0) == [];
    assert asked + [] == asked;
  }

  lemma NoData(v: Volume, first: nat, x: nat)
    requires WellFormed(v)
    ensures DataPlan(v, first, x, x) == []
  {}

  /** A plan is served exactly when the log is. */
  lemma NeverServed(v: Volume, before: seq<nat>, plan: seq<nat>, after: seq<nat>)
    ensures Tracks(v, before, plan, after) ==> (Served(v, after) <==> Served(v, before + plan))
    ensures Tracks(v, before, plan, after) && Served(v, after) ==> Served(v, before)
    ensures !Served(v, before) && !Served(v, after) ==> Tracks(v, before, plan, after)
  {
    hide Served;
    ServedFront(v, before, plan);
  }

  /** Where a walk starts matters only if the log was served so far. */
  lemma TracksFrom(v: Volume, before: seq<nat>, cluster: nat, start: nat, m: nat, after: seq<nat>)
    requires WellFormed(v) && Tracks(v, before, TablePlan(v, cluster, m), after)
      && (Served(v, before) ==> cluster == start)
    ensures Tracks(v, before, TablePlan(v, start, m), after) && (Served(v, after) ==> Served(v, before))
  {
    hide Served, Tracks, TablePlan;
    NeverServed(v, before, TablePlan(v, cluster, m), after);
    NeverServed(v, before, TablePlan(v, start, m), after);
  }

  /** Two plans one after the other; the second matters only if the first was served. */
  lemma TracksOn(v: Volume, a: seq<nat>, p: seq<nat>, b: seq<nat>, q: seq<nat>, c: seq<nat>)
    requires Tracks(v, a, p, b) && Tracks(v, b, q, c)
    ensures Tracks(v, a, p + q, c)
  {
    hide Served;
    assert a + (p + q) == (a + p) + q;
    ServedFront(v, a + p, q);
    ServedFront(v, b, q);
  }

  lemma PlanAppend(v: Volume, first: nat, k: nat, m: nat)
    requires WellFormed(v)
    ensures TablePlan(v, first, k + m) == TablePlan(v, first, k) + TablePlan(v, Follow(v, first, k), m)
  {
    hide Follow, TableSector;
    var whole, parts := TablePlan(v, first, k + m), TablePlan(v, first, k) + TablePlan(v, Follow(v, first, k), m);
    forall j | 0 <= j < k + m ensures whole[j] == parts[j] {
      if j >= k {
        FollowSteps(v, first, k, j - k);
      }
    }
  }

  lemma PlanStep(v: Volume, cluster: nat, m: nat, start: seq<nat>, before: seq<nat>, sector: nat)
    requires WellFormed(v) && Tracks(v, start, TablePlan(v, cluster, m), before)
    requires Served(v, before) ==> sector == TableSector(v, Follow(v, cluster, m))
    ensures Tracks(v, start, TablePlan(v, cluster, m + 1), before + [sector])
  {
    hide Served, Follow, TableSector;
    var next := TableSector(v, Follow(v, cluster, m));
    assert TablePlan(v, cluster, m + 1) == TablePlan(v, cluster, m) + [next];
    ServedFront(v, before, [sector]);
    ServedFront(v, before, [next]);
    TracksOn(v, start, TablePlan(v, cluster, m), before, [next], before + [sector]);
  }

  lemma PlanMore(v: Volume, first: nat, k: nat, at: nat, start: seq<nat>, before: seq<nat>, after: seq<nat>)
    requires WellFormed(v) && k <= at && Tracks(v, start, TablePlan(v, first, k), before)
    requires Tracks(v, before, TablePlan(v, Follow(v, first, k), at - k), after)
    ensures Tracks(v, start, TablePlan(v, first, at), after)
  {
    hide Served, Tracks, TablePlan, Follow;
    PlanAppend(v, first, k, at - k);
    TracksOn(v, start, TablePlan(v, first, k), before, TablePlan(v, Follow(v, first, k), at - k), after);
  }

  /** The piece that is read next is the first of those still planned. */
  lemma PieceThere(v: Volume, first: nat, k: nat, o: nat, m: nat, x: nat, end: nat)
    requires WellFormed(v) && Start(v, k) + o == x < end && m == PieceLength(o, end - x) && o + m <= ClusterBytes(v)
    ensures m > 0 && Index(v, x + m - 1) == k
    ensures DataPlan(v, first, x, end) == [DataSector(v, Follow(v, first, k), o)] + DataPlan(v, first, x + m, end)
  {
    hide Start, Index, ClusterBytes, Follow, DataSector;
    IndexUnique(v, k, o);
    IndexUnique(v, k, o + m - 1);
  }

  lemma WholeSectors(j: nat, n: nat)
    requires j < n
    ensures SECTOR * j + SECTOR <= SECTOR * n
  {}

  // ----- Reads on a small disk -----

  /** Cluster `c` lies on the disk. */
  ghost predicate DataOn(v: Volume, c: nat)
    requires v.sectorBytes > 0
  {
    0 <= ClusterSector(v, c) <= |v.disk| - v.clusterSectors
  }

  /** So does its entry in the allocation table. */
  ghost predicate TableOn(v: Volume, c: nat) {
    TableSector(v, c) < |v.disk|
  }

  /** The clusters that hold the bytes from `offset` to `end`, and the entries on the way to them. */
  ghost predicate Reachable(v: Volume, first: nat, offset: nat, end: nat)
    requires WellFormed(v)
  {
    && (forall k: nat :: Start(v, k) < end && offset < Start(v, k + 1) ==> DataOn(v, Follow(v, first, k)))
    && (forall k: nat :: Start(v, k + 1) < end ==> TableOn(v, Follow(v, first, k)))
  }

  /** `clusters` is the chain of a file from cluster `first` on, as far as byte `end`. */
  ghost predicate FileAt(v: Volume, first: nat, clusters: seq<nat>, end: nat)
    requires WellFormed(v)
  {
    Chain(v, clusters) && clusters != [] && clusters[0] == first && end <= Start(v, |clusters|)
  }

  lemma TablePlanOn(v: Volume, first: nat, offset: nat, n: nat)
    requires WellFormed(v) && Reachable(v, first, offset, offset + n)
    ensures AllOn(v, TablePlan(v, first, Steps(v, offset, n)))
  {
    hide Start, Follow, Index, TableSector;
    var plan := TablePlan(v, first, Steps(v, offset, n));
    forall j | 0 <= j < |plan| ensures plan[j] < |v.disk| {
      StartGrows(v, j + 1, Index(v, offset + n - 1));
      assert Start(v, j + 1) < offset + n;
      assert TableOn(v, Follow(v, first, j));
    }
  }

  lemma {:induction false} DataPlanOn(v: Volume, first: nat, offset: nat, x: nat, end: nat)
    requires WellFormed(v) && Reachable(v, first, offset, end) && offset <= x
    ensures AllOn(v, DataPlan(v, first, x, end))
    decreases end - x
  {
    hide Start, Follow, Index, ClusterBytes, DataSector;
    if x < end {
      var k := Index(v, x);
      var o := x - Start(v, k);
      DataPlanOn(v, first, offset, x + PieceLength(o, end - x), end);
      ClusterEnd(v, k);
      assert DataOn(v, Follow(v, first, k));
      SectorOn(v, Follow(v, first, k), o);
    }
  }

  lemma ClusterEnd(v: Volume, k: nat)
    ensures Start(v, k + 1) == Start(v, k) + ClusterBytes(v)
  {}

  lemma SectorOn(v: Volume, c: nat, o: nat)
    requires WellFormed(v) && DataOn(v, c) && o < ClusterBytes(v)
    ensures DataSector(v, c, o) < |v.disk|
  {
    hide ClusterSector;
    SectorSplit(o, v.clusterSectors);
  }

  /** The requests so far, and all that a read makes, get their own sectors. */
  ghost predicate PlanServed(v: Volume, tables: seq<nat>, datas: seq<nat>, first: nat, offset: nat, n: nat)
    requires WellFormed(v)
  {
    && Served(v, tables + TablePlan(v, first, Steps(v, offset, n)))
    && Served(v, datas + DataPlan(v, first, offset, offset + n))
  }

  lemma PlanMeans(v: Volume, tables: seq<nat>, datas: seq<nat>, first: nat, offset: nat, n: nat)
    requires WellFormed(v)
    ensures PlanServed(v, tables, datas, first, offset, n) ==>
      && Served(v, tables + TablePlan(v, first, Steps(v, offset, n)))
      && Served(v, datas + DataPlan(v, first, offset, offset + n))
  {}

  /** A disk without aliases, and nothing off the disk was asked for so far. */
  ghost predicate Clean(v: Volume, tables: seq<nat>, datas: seq<nat>) {
    |v.disk| < HALF && Served(v, tables) && Served(v, datas)
  }

  /** On a disk without aliases a read is served if its clusters and entries are on the disk. */
  lemma SmallDiskRead(v: Volume, tables: seq<nat>, datas: seq<nat>, first: nat, offset: nat, n: nat)
    requires WellFormed(v) && Clean(v, tables, datas) && Reachable(v, first, offset, offset + n)
    ensures PlanServed(v, tables, datas, first, offset, n)
  {
    hide Served, Reachable, DataPlan, TablePlan, Steps, AllOn;
    TablePlanOn(v, first, offset, n);
    DataPlanOn(v, first, offset, offset, offset + n);
    BothOn(v, tables, TablePlan(v, first, Steps(v, offset, n)));
    BothOn(v, datas, DataPlan(v, first, offset, offset + n));
  }

  lemma BothOn(v: Volume, asked: seq<nat>, plan: seq<nat>)
    requires |v.disk| < HALF && Served(v, asked) && AllOn(v, plan)
    ensures Served(v, asked + plan)
  {
    SmallDiskServes(v, asked);
    SmallDiskServes(v, asked + plan);
  }

  /** A file is within reach if its clusters, and the entries of all but the last, are on the disk. */
  lemma FileReachable(v: Volume, clusters: seq<nat>, offset: nat, end: nat)
    requires WellFormed(v) && clusters != [] && FileAt(v, clusters[0], clusters, end)
    requires forall k :: 0 <= k < |clusters| ==> DataOn(v, clusters[k])
    requires forall k :: 0 <= k < |clusters| - 1 ==> TableOn(v, clusters[k])
    ensures Reachable(v, clusters[0], offset, end)
  {
    hide Start, Follow, Chain, DataOn, TableOn;
    var first := clusters[0];
    forall k: nat | Start(v, k) < end ensures k < |clusters| && Follow(v, first, k) == clusters[k] {
      if k >= |clusters| {
        StartGrows(v, |clusters|, k);
        assert false;
      }
      ChainIsFollowed(v, clusters, k);
    }
    forall k: nat | Start(v, k + 1) < end ensures k < |clusters| - 1 && Follow(v, first, k) == clusters[k] {
      StartGrows(v, k, k + 1);
      assert Start(v, k) < end;
    }
  }

  lemma FileFound(v: Volume, first: nat, offset: nat, end: nat)
    requires WellFormed(v) && offset <= end
    ensures forall clusters :: FileAt(v, first, clusters, end) ==>
      Found(v, first, end)[offset..end] == Data(v, clusters)[offset..end]
  {
    hide Found, Data, Chain, Start;
    forall clusters | FileAt(v, first, clusters, end)
      ensures Found(v, first, end)[offset..end] == Data(v, clusters)[offset..end]
    {
      FoundIsFile(v, clusters, offset, end);
    }
  }

  // ----- Bytes on their way -----

  /** `m` bytes of `all` from `at` on have arrived at `pos`. */
  ghost predicate Copied(out: seq<Byte>, pos: nat, m: nat, all: seq<Byte>, at: nat) {
    pos + m <= |out| && at + m <= |all| && out[pos..pos + m] == all[at..at + m]
  }

  /** Nothing but the `m` bytes from `pos` on has changed. */
  ghost predicate OnlyPart(before: seq<Byte>, after: seq<Byte>, pos: nat, m: nat) {
    && |after| == |before| && pos + m <= |after|
    && after[..pos] == before[..pos] && after[pos + m..] == before[pos + m..]
  }

  lemma NoBytes(out: seq<Byte>, all: seq<Byte>, offset: nat, n: nat)
    requires offset <= |all| && n <= |out|
    ensures Copied(out, 0, 0, all, offset) && OnlyPart(out, out, 0, n)
  {}

  lemma CopiedOn(before: seq<Byte>, after: seq<Byte>, all: seq<Byte>, offset: nat, pos: nat, m: nat)
    requires Copied(before, 0, pos, all, offset)
      && OnlyPart(before, after, pos, m) && Copied(after, pos, m, all, offset + pos)
    ensures Copied(after, 0, pos + m, all, offset)
  {
    assert after[0..pos] == after[..pos] && before[0..pos] == before[..pos];
    assert after[0..pos + m] == after[0..pos] + after[pos..pos + m];
    assert all[offset..offset + (pos + m)] == all[offset..offset + pos] + all[offset + pos..offset + pos + m];
  }

  lemma OnlyPartOn(start: seq<Byte>, before: seq<Byte>, after: seq<Byte>, n: nat, pos: nat, m: nat)
    requires OnlyPart(start, before, 0, n) && OnlyPart(before, after, pos, m) && pos + m <= n
    ensures OnlyPart(start, after, 0, n)
  {
    assert after[n..] == after[pos + m..][n - pos - m..] && before[n..] == before[pos + m..][n - pos - m..];
  }

  /** All of these sectors are on the disk. */
  ghost predicate AllOn(v: Volume, sectors: seq<nat>) {
    forall j :: 0 <= j < |sectors| ==> sectors[j] < |v.disk|
  }

  class Reader {
    const vol: Volume
    const data: SectorCache
    const table: SectorCache

    ghost predicate Valid()
      reads data, table
    {
      && WellFormed(vol) && data != table && data.vol == vol && table.vol == vol
      && data.Valid() && table.Valid()
    }

    constructor (vol: Volume)
      requires WellFormed(vol)
      ensures Valid() && fresh(data) && fresh(table) && this.vol == vol
      ensures data.asked == [] && table.asked == []
    {
      this.vol := vol;
      data := new SectorCache(vol);
      table := new SectorCache(vol);
    }

    /** The allocation-table entry, if the table's cache served all its requests. */
    method NextCluster(cluster: nat) returns (next: nat)
      requires Valid()
      modifies table
      ensures Valid() && table.asked == old(table.asked) + [TableSector(vol, cluster)]
      ensures Served(vol, table.asked) ==> next == Next(vol, cluster)
      ensures Served(vol, table.asked) ==>
        next == if FatEntry(vol, cluster) < 0xFFF8 then FatEntry(vol, cluster) else 0xFFFF
    {
      hide Sector, Served;
      var offset := cluster * 2;
      table.Fetch((vol.reserved + offset / SECTOR) % WORD);
      var entry := offset % SECTOR;
      EntryFits(cluster);
      var value := (table.buffer[entry] as nat) + 256 * (table.buffer[entry + 1] as nat);
      next := if value >= ENTRY_END then HALF - 1 else value;
    }

    /** Follow the table until the offset lies within the cluster.  The test for the end of the chain
        compares sixteen bits with -1, so nothing stops the walk there. */
    method FindCluster(cluster: nat, offset: nat) returns (c: nat, o: nat, ghost m: nat)
      requires Valid()
      modifies table
      ensures Valid() && o < ClusterBytes(vol) && Start(vol, m) + o == offset
      ensures Tracks(vol, old(table.asked), TablePlan(vol, cluster, m), table.asked)
      ensures Served(vol, table.asked) ==> c == Follow(vol, cluster, m)
    {
      hide Next, Served, Tracks, TablePlan;
      c, o, m := cluster, offset, 0;
      NoPlan(vol, cluster, table.asked);
      while o >= ClusterBytes(vol)
        invariant Valid() && Start(vol, m) + o == offset
        invariant Tracks(vol, old(table.asked), TablePlan(vol, cluster, m), table.asked)
        invariant Served(vol, table.asked) ==> c == Follow(vol, cluster, m)
        decreases o
      {
        ghost var before := table.asked;
        PlanStep(vol, cluster, m, old(table.asked), before, TableSector(vol, c));
        ServedFront(vol, before, [TableSector(vol, c)]);
        c := NextCluster(c);
        o, m := o - ClusterBytes(vol), m + 1;
      }
    }

    /** Read up to the end of one sector. */
    method ReadPiece(cluster: nat, off: nat, out: array<Byte>, pos: nat, n: nat, ghost clusters: seq<nat>, ghost k: nat)
      returns (m: nat)
      requires Valid() && k < |clusters| && off < ClusterBytes(vol) && pos < n <= out.Length
      modifies out, data
      ensures Valid() && m == PieceLength(off, n - pos) && off + m <= ClusterBytes(vol)
      ensures data.asked == old(data.asked) + [DataSector(vol, cluster, off)]
      ensures Served(vol, data.asked) && cluster == clusters[k] ==>
        Copied(out[..], pos, m, Data(vol, clusters), Start(vol, k) + off)
      ensures OnlyPart(old(out[..]), out[..], pos, m)
    {
      hide ClusterSector, Data, Sector, Start, Served;
      var sector := ClusterSector(vol, cluster) + off / SECTOR;
      SectorSplit(off, vol.clusterSectors);
      data.Fetch(sector % WORD);
      SameSector(vol, sector);
      var o := off % SECTOR;
      m := if n - pos > SECTOR - o then SECTOR - o else n - pos;
      WholeSectors(off / SECTOR, vol.clusterSectors);
      PieceAt(vol, clusters, k, off / SECTOR, o, m, Start(vol, k) + off);
      Append(out, pos, data.buffer, o, m);
    }

    /** Find the cluster of the next byte and read from there. */
    method ReadOn(cluster: nat, off: nat, out: array<Byte>, pos: nat, n: nat,
                  ghost first: nat, ghost k: nat, ghost end: nat)
      returns (c: nat, o: nat, m: nat, ghost at: nat)
      requires Valid() && pos < n <= out.Length && Start(vol, k) + off < end
      requires Served(vol, table.asked) ==> cluster == Follow(vol, first, k)
      modifies out, table, data
      ensures Valid() && k <= at && m <= o <= ClusterBytes(vol) && Start(vol, at) + o == Start(vol, k) + off + m
      ensures m == PieceLength(o - m, n - pos)
      ensures Tracks(vol, old(table.asked), TablePlan(vol, Follow(vol, first, k), at - k), table.asked)
      ensures Served(vol, table.asked) ==>
        && Served(vol, old(table.asked)) && c == Follow(vol, first, at)
        && data.asked == old(data.asked) + [DataSector(vol, Follow(vol, first, at), o - m)]
      ensures Served(vol, data.asked) && Served(vol, table.asked) ==>
        Copied(out[..], pos, m, Data(vol, Walked(vol, first, end)), Start(vol, k) + off)
      ensures OnlyPart(old(out[..]), out[..], pos, m)
    {
      hide Data, Sector, ClusterBytes, Walked, Served, Follow, Start, Tracks, TablePlan, DataSector, PieceLength,
        Copied, OnlyPart, SectorCache.Valid, WellFormed;
      ghost var steps := 0;
      c, o, steps := FindCluster(cluster, off);
      at := k + steps;
      TracksFrom(vol, old(table.asked), cluster, Follow(vol, first, k), steps, table.asked);
      StartAdds(vol, k, steps);
      FollowSteps(vol, first, k, steps);
      StartCovers(vol, at);
      m := ReadPiece(c, o, out, pos, n, Walked(vol, first, end), at);
      o := o + m;
    }

    /** Read `n` bytes from `offset` on. */
    method ReadBytes(first: nat, offset: nat, n: nat, out: array<Byte>)
      requires Valid() && n <= out.Length
      modifies out, table, data
      ensures Valid()
      ensures Tracks(vol, old(table.asked), TablePlan(vol, first, Steps(vol, offset, n)), table.asked)
      ensures Served(vol, table.asked) ==> data.asked == old(data.asked) + DataPlan(vol, first, offset, offset + n)
      ensures Served(vol, table.asked) && Served(vol, data.asked) ==>
        Copied(out[..], 0, n, Found(vol, first, offset + n), offset)
      ensures OnlyPart(old(out[..]), out[..], 0, n)
    {
      hide Data, Walked, Served, Follow, Start, Found, SectorCache.Valid, Tracks, TablePlan, DataPlan, DataSector,
        PieceLength, ClusterBytes, Copied, OnlyPart;
      ghost var end := offset + n;
      ghost var all, done: seq<nat> := Found(vol, first, end), [];
      ghost var wanted := DataPlan(vol, first, offset, end);
      NoPlan(vol, first, table.asked);
      FoundIs(vol, first, end);
      NoBytes(out[..], all, offset, n);
      var pos: nat, cluster: nat, off: nat := 0, first, offset;
      ghost var k: nat := 0;
      StartOf(vol, first);
      while pos < n
        invariant Valid() && pos <= n && Start(vol, k) + off == offset + pos && k == Steps(vol, offset, pos)
        invariant Tracks(vol, old(table.asked), TablePlan(vol, first, k), table.asked)
        invariant Served(vol, table.asked) ==> cluster == Follow(vol, first, k) && data.asked == old(data.asked) + done
        invariant wanted == done + DataPlan(vol, first, offset + pos, end)
        invariant Served(vol, data.asked) && Served(vol, table.asked) ==> Copied(out[..], 0, pos, all, offset)
        invariant OnlyPart(old(out[..]), out[..], 0, n)
        decreases n - pos
      {
        ghost var was, asked, had, bytes := k, table.asked, data.asked, out[..];
        var m;
        cluster, off, m, k := ReadOn(cluster, off, out, pos, n, first, k, end);
        PlanMore(vol, first, was, k, old(table.asked), asked, table.asked);
        PieceThere(vol, first, k, off - m, m, offset + pos, end);
        ServedFront(vol, had, [DataSector(vol, Follow(vol, first, k), off - m)]);
        OnlyPartOn(old(out[..]), bytes, out[..], n, pos, m);
        if Served(vol, data.asked) && Served(vol, table.asked) {
          CopiedOn(bytes, out[..], all, offset, pos, m);
        }
        done := done + [DataSector(vol, Follow(vol, first, k), off - m)];
        pos := pos + m;
      }
      NoData(vol, first, end);
    }

    /** The bytes found from `offset` on, as many as were asked for and are in the file, provided that
        both caches serve the requests made so far and those that this read is bound to make.  On a
        disk without aliases that is so if the clusters of the read are on it; then the bytes are
        those of the file. */
    method FatRead(first: nat, size: nat, offset: nat, length: nat, out: array<Byte>) returns (n: nat)
      requires Valid() && Clip(size, offset, length) <= out.Length
      modifies out, table, data
      ensures Valid() && n == Clip(size, offset, length)
      ensures Tracks(vol, old(table.asked), TablePlan(vol, first, Steps(vol, offset, n)), table.asked)
      ensures Served(vol, old(table.asked) + TablePlan(vol, first, Steps(vol, offset, n))) ==>
        data.asked == old(data.asked) + DataPlan(vol, first, offset, offset + n)
      ensures PlanServed(vol, old(table.asked), old(data.asked), first, offset, n) ==>
        out[..n] == Found(vol, first, offset + n)[offset..offset + n]
      ensures Clean(vol, old(table.asked), old(data.asked)) && Reachable(vol, first, offset, offset + n) ==>
        forall clusters :: FileAt(vol, first, clusters, offset + n) ==>
          out[..n] == Data(vol, clusters)[offset..offset + n]
      ensures out[n..] == old(out[n..])
    {
      hide Data, Walked, Served, Follow, Start, Found, SectorCache.Valid, Tracks, TablePlan, DataPlan,
        Reachable, FileAt, Steps, Clean, PlanServed;
      n := 0;
      if offset < size {
        n := if (offset + length) % WORD > size then size - offset else length;
      }
      ReadBytes(first, offset, n, out);
      NeverServed(vol, old(table.asked), TablePlan(vol, first, Steps(vol, offset, n)), table.asked);
      PlanMeans(vol, old(table.asked), old(data.asked), first, offset, n);
      if Clean(vol, old(table.asked), old(data.asked)) && Reachable(vol, first, offset, offset + n) {
        SmallDiskRead(vol, old(table.asked), old(data.asked), first, offset, n);
        FileFound(vol, first, offset, offset + n);
      }
    }
  }

  lemma FoundIs(v: Volume, first: nat, n: nat)
    requires WellFormed(v)
    ensures Found(v, first, n) == Data(v, Walked(v, first, n))
  {}

  lemma StartOf(v: Volume, first: nat)
    requires WellFormed(v)
    ensures Start(v, 0) == 0 && Follow(v, first, 0) == first
  {}

  lemma SameSector(v: Volume, s: int)
    requires WellFormed(v)
    ensures Sector(v, s % WORD) == Sector(v, s)
  {}

  lemma {:induction false} StartAdds(v: Volume, k: nat, m: nat)
    ensures Start(v, k + m) == Start(v, k) + Start(v, m)
    decreases m
  {
    if m > 0 {
      StartAdds(v, k, m - 1);
    }
  }

  /** Going on from where a walk has got is going further. */
  lemma {:induction false} FollowSteps(v: Volume, first: nat, k: nat, m: nat)
    requires WellFormed(v)
    ensures Follow(v, Follow(v, first, k), m) == Follow(v, first, k + m)
    decreases m
  {
    hide Next;
    if m > 0 {
      FollowSteps(v, first, k, m - 1);
    }
  }

  // ----- The end of a chain -----

  /** The table says that the chain ends within `m` steps of a cluster. */
  ghost predicate EndsWithin(v: Volume, cluster: nat, m: nat)
    requires WellFormed(v)
  {
    exists k: nat :: k < m && FatEntry(v, Follow(v, cluster, k)) >= ENTRY_END
  }

  /** What finding a cluster is meant to give: 0, with the rest of the offset, at the end of the chain. */
  ghost function Meant(v: Volume, cluster: nat, offset: nat): (nat, nat)
    requires WellFormed(v)
    decreases offset
  {
    if offset < ClusterBytes(v) then (cluster, offset)
    else if FatEntry(v, cluster) >= ENTRY_END then (0, offset)
    else Meant(v, Next(v, cluster), offset - ClusterBytes(v))
  }

  /** The walk gives what is meant exactly when the chain does not end before the offset. */
  lemma {:induction false} FindClusterExactly(v: Volume, cluster: nat, o: nat, m: nat)
    requires WellFormed(v) && o < ClusterBytes(v)
    ensures Meant(v, cluster, Start(v, m) + o) == (Follow(v, cluster, m), o) <==> !EndsWithin(v, cluster, m)
    decreases m
  {
    hide FatEntry, ClusterBytes;
    if m > 0 {
      var next := Next(v, cluster);
      StartAdds(v, 1, m - 1);
      assert Start(v, 1) == ClusterBytes(v) by { assert Start(v, 0) == 0; }
      FollowSteps(v, cluster, 1, m - 1);
      assert Follow(v, cluster, 1) == next by { assert Follow(v, cluster, 0) == cluster; }
      if FatEntry(v, cluster) >= ENTRY_END {
        assert Follow(v, cluster, 0) == cluster;
        assert EndsWithin(v, cluster, m);
      } else {
        FindClusterExactly(v, next, o, m - 1);
        EndsLater(v, cluster, m);
      }
    }
  }

  lemma EndsLater(v: Volume, cluster: nat, m: nat)
    requires WellFormed(v) && m > 0 && FatEntry(v, cluster) < ENTRY_END
    ensures EndsWithin(v, cluster, m) <==> EndsWithin(v, Next(v, cluster), m - 1)
  {
    hide FatEntry, Next;
    var next := Next(v, cluster);
    assert Follow(v, cluster, 0) == cluster;
    assert Follow(v, cluster, 1) == next;
    if EndsWithin(v, cluster, m) {
      var k: nat :| k < m && FatEntry(v, Follow(v, cluster, k)) >= ENTRY_END;
      FollowSteps(v, cluster, 1, k - 1);
      assert FatEntry(v, Follow(v, next, k - 1)) >= ENTRY_END;
    }
    if EndsWithin(v, next, m - 1) {
      var k: nat :| k < m - 1 && FatEntry(v, Follow(v, next, k)) >= ENTRY_END;
      FollowSteps(v, cluster, 1, k);
      assert FatEntry(v, Follow(v, cluster, 1 + k)) >= ENTRY_END;
    }
  }

  /** A table in which every cluster is a last one. */
  function LastOnes(): Volume {
    Volume(SECTOR, 1, 0, 1, 16, 1, [seq(SECTOR, _ => 255)])
  }

  /** One cluster into a file of one cluster, the search goes on to cluster 65535 instead of ending. */
  lemma PastTheEnd()
    ensures
      var v := LastOnes();
      && WellFormed(v) && Chain(v, [2]) && EndsWithin(v, 2, 1) && Start(v, 1) == SECTOR
      && Meant(v, 2, SECTOR) == (0, SECTOR) && Follow(v, 2, 1) == 65535
  {
    var v := LastOnes();
    assert FatEntry(v, 2) == 65535 by { assert Sector(v, 0) == v.disk[0]; }
    hide FatEntry;
    assert Follow(v, 2, 0) == 2 && Start(v, 0) == 0;
    assert ClusterBytes(v) == SECTOR;
  }

  lemma EntryFits(cluster: nat)
    ensures cluster * 2 % SECTOR + 1 < SECTOR
  {}

  /** Copy `m` bytes of a buffer behind what has been read so far. */
  method Append(out: array<Byte>, pos: nat, buffer: seq<Byte>, o: nat, m: nat)
    requires pos + m <= out.Length && o + m <= |buffer|
    modifies out
    ensures out[..pos] == old(out[..pos])
      && out[pos..pos + m] == buffer[o..o + m] && out[pos + m..] == old(out[pos + m..])
  {
    forall j | pos <= j < pos + m {
      out[j] := buffer[o + j - pos];
    }
  }

  /** A reader that starts afresh on a disk without aliases reads exactly the bytes of a file on it,
      whatever its fragmentation, the offset and the length. */
  method ReadFile(v: Volume, clusters: seq<nat>, size: nat, offset: nat, length: nat, out: array<Byte>) returns (n: nat)
    requires WellFormed(v) && |v.disk| < HALF && Chain(v, clusters) && clusters != []
    requires forall k :: 0 <= k < |clusters| ==> DataOn(v, clusters[k])
    requires forall k :: 0 <= k < |clusters| - 1 ==> TableOn(v, clusters[k])
    requires Clip(size, offset, length) <= out.Length && offset + Clip(size, offset, length) <= Start(v, |clusters|)
    modifies out
    ensures n == Clip(size, offset, length) && out[..n] == Data(v, clusters)[offset..offset + n]
    ensures out[n..] == old(out[n..])
  {
    hide Data, Start, Chain, Follow, Reachable, DataOn, TableOn;
    var reader := new Reader(v);
    SmallDiskServes(v, []);
    FileReachable(v, clusters, offset, offset + Clip(size, offset, length));
    n := reader.FatRead(clusters[0], size, offset, length, out);
    assert FileAt(v, clusters[0], clusters, offset + n);
  }
}
