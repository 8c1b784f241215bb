/** Bitmaps of 32-bit words (kernel/util/bitmap.c).

    A word is written as its 32 bits, least significant first, so that or-ing in
    `1 << b` is the update `w[b := true]` and masking it out is `w[b := false]`. */
module Bitmaps {

  const BITS := 32

  type Word = w: seq<bool> | |w| == 32 witness seq(32, _ => false)

  // ----- One word -----

  /** The complement of the word is zero. */
  predicate Full(w: Word) {
    forall b :: 0 <= b < BITS ==> w[b]
  }

  /** The least significant clear bit, which the compiler's find-first-set built-in yields. */
  function LowestClear(w: Word): (b: nat)
    requires !Full(w)
    ensures b < BITS && !w[b]
    ensures forall c :: 0 <= c < b ==> w[c]
  {
    ClearFrom(w, 0)
  }

  function ClearFrom(w: Word, k: nat): (b: nat)
    requires exists c :: k <= c < BITS && !w[c]
    ensures k <= b < BITS && !w[b]
    ensures forall c :: k <= c < b ==> w[c]
    decreases BITS - k
  {
    if !w[k] then k else ClearFrom(w, k + 1)
  }

  // ----- Many words as a set of numbers -----

  predicate Has(words: seq<Word>, i: nat)
    requires i < BITS * |words|
  {
    words[i / BITS][i % BITS]
  }

  /** The numbers whose bit is set. */
  ghost function Members(words: seq<Word>): (s: set<nat>) {
    set i: nat | i < BITS * |words| && Has(words, i)
  }

  lemma MembersAfterUpdate(words: seq<Word>, i: nat, on: bool)
    requires i < BITS * |words|
    ensures
      var after := words[i / BITS := words[i / BITS][i % BITS := on]];
      Members(after) == if on then Members(words) + {i} else Members(words) - {i}
  {
    var after := words[i / BITS := words[i / BITS][i % BITS := on]];
    forall j: nat | j < BITS * |words|
      ensures Has(after, j) <==> if j == i then on else Has(words, j)
    {}
  }

  // ----- Counting -----

  /** The numbers below n. */
  ghost function Below(n: nat): (s: set<nat>)
    ensures |s| == n
    ensures forall i: nat :: i in s <==> i < n
  {
    if n == 0 then {} else Below(n - 1) + {n - 1}
  }

  /** A bitmap with fewer than n of the numbers below n set has a clear one. */
  lemma RoomLeft(s: set<nat>, n: nat)
    requires |s| < n
    ensures exists i: nat :: i < n && i !in s
  {
    if forall i: nat :: i < n ==> i in s {
      SubsetSize(Below(n), s);
    }
  }

  lemma {:induction false} SubsetSize(a: set<nat>, b: set<nat>)
    requires a <= b
    ensures |a| <= |b|
  {
    if a != {} {
      var x :| x in a;
      SubsetSize(a - {x}, b - {x});
    }
  }

  // ----- Operations in place -----

  method Set(bm: array<Word>, index: nat)
    requires index < BITS * bm.Length
    modifies bm
    ensures Members(bm[..]) == old(Members(bm[..])) + {index}
  {
    MembersAfterUpdate(bm[..], index, true);
    bm[index / BITS] := bm[index / BITS][index % BITS := true];
    assert bm[..] == old(bm[..])[index / BITS := bm[index / BITS]];
  }

  method Clear(bm: array<Word>, index: nat)
    requires index < BITS * bm.Length
    modifies bm
    ensures Members(bm[..]) == old(Members(bm[..])) - {index}
  {
    MembersAfterUpdate(bm[..], index, false);
    bm[index / BITS] := bm[index / BITS][index % BITS := false];
    assert bm[..] == old(bm[..])[index / BITS := bm[index / BITS]];
  }

  predicate Test(bm: array<Word>, index: nat)
    requires index < BITS * bm.Length
    reads bm
    ensures Test(bm, index) <==> index in Members(bm[..])
  {
    bm[index / BITS][index % BITS]
  }

  /** Set the first clear bit and return its number.

      The loop tests a word before it tests the bound, so on a bitmap without a clear
      bit it inspects the word that follows the bitmap: only with a clear bit in range
      does it stay inside. */
  method FindAndSet(bm: array<Word>, items: nat) returns (index: int)
    requires items % BITS == 0 && items <= BITS * bm.Length
    requires (exists i: nat :: i < items && i !in Members(bm[..])) || items < BITS * bm.Length
    modifies bm
    ensures 0 <= index < items <==> exists i: nat :: i < items && i !in old(Members(bm[..]))
    ensures index == -1 || items <= index < items + BITS || 0 <= index < items
    ensures index == -1 ==> bm[..] == old(bm[..])
    ensures 0 <= index ==> index !in old(Members(bm[..])) && Members(bm[..]) == old(Members(bm[..])) + {index}
    ensures forall i: nat :: i < items && i < index ==> i in old(Members(bm[..]))
  {
    var i := 0;
    ghost var words := bm[..];
    while Full(bm[i])
      invariant 0 <= i <= items / BITS && i < bm.Length
      invariant bm[..] == words
      invariant forall k :: 0 <= k < i ==> Full(words[k])
      decreases bm.Length - i
    {
      if i >= items / BITS {
        FullPrefix(words, items);
        return -1;
      }
      ExistsBeyond(words, items, i);
      i := i + 1;
    }
    var bit := LowestClear(bm[i]);
    index := i * BITS + bit;
    FullPrefix(words, i * BITS);
    assert !Has(words, index);
    forall j: nat | j < index ensures Has(words, j) {
      if j >= i * BITS { assert j / BITS == i && j % BITS < bit; } else { assert j in Members(words); }
    }
    MembersAfterUpdate(words, index, true);
    bm[i] := bm[i][bit := true];
    assert bm[..] == words[i := bm[i]];
  }

  lemma FullPrefix(words: seq<Word>, n: nat)
    requires n % BITS == 0 && n <= BITS * |words|
    requires forall k :: 0 <= k < n / BITS ==> Full(words[k])
    ensures forall i: nat :: i < n ==> i in Members(words)
  {
    forall i: nat | i < n ensures Has(words, i) {
      assert Full(words[i / BITS]);
    }
  }

  /** With the first words full, a clear bit, if there is one, is further on. */
  lemma ExistsBeyond(words: seq<Word>, items: nat, i: nat)
    requires items % BITS == 0 && items <= BITS * |words| && i < items / BITS
    requires forall k :: 0 <= k <= i ==> Full(words[k])
    ensures (exists j: nat :: j < items && j !in Members(words)) ==> i + 1 < items / BITS
  {
    FullPrefix(words, (i + 1) * BITS);
  }
}
