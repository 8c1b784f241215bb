/** A bitmap whose non-full words are linked into a list, so that a clear bit
    is found without searching (kernel/util/bmstack.c). */
module BmStacks {
  import opened Bitmaps

  /** One word and the index of the next non-full word, -1 at the end of the list. */
  datatype Entry = Entry(next: int, bitmap: Word)

  const NULL := -1

  function Words(entries: seq<Entry>): (words: seq<Word>)
    ensures |words| == |entries|
    ensures forall i :: 0 <= i < |words| ==> words[i] == entries[i].bitmap
  {
    seq(|entries|, i requires 0 <= i < |entries| => entries[i].bitmap)
  }

  ghost function Bits(entries: seq<Entry>): set<nat> {
    Members(Words(entries))
  }

  ghost predicate Hop(entries: seq<Entry>, list: seq<nat>, i: nat)
    requires i < |list| && list[i] < |entries|
  {
    entries[list[i]].next == if i + 1 < |list| then list[i + 1] else NULL
  }

  /** Following `next` from `head` visits exactly the non-full words, each once. */
  ghost predicate ListOk(entries: seq<Entry>, head: int, list: seq<nat>) {
    && (forall i :: 0 <= i < |list| ==> list[i] < |entries|)
    && (forall i, j :: 0 <= i < j < |list| ==> list[i] != list[j])
    && (forall i: nat :: i < |list| ==> Hop(entries, list, i))
    && head == (if list == [] then NULL else list[0])
    && (forall w: nat :: w < |entries| ==> (w in list <==> !Full(entries[w].bitmap)))
  }

  /** Everything is taken. */
  ghost predicate AllSet(entries: seq<Entry>) {
    forall w: nat :: w < |entries| ==> Full(entries[w].bitmap)
  }

  lemma BitsAfterUpdate(entries: seq<Entry>, i: nat, on: bool, next: int)
    requires i < BITS * |entries|
    ensures
      var e := entries[i / BITS];
      var after := entries[i / BITS := Entry(next, e.bitmap[i % BITS := on])];
      Bits(after) == if on then Bits(entries) + {i} else Bits(entries) - {i}
  {
    var e := entries[i / BITS];
    var after := entries[i / BITS := Entry(next, e.bitmap[i % BITS := on])];
    MembersAfterUpdate(Words(entries), i, on);
    assert Words(after) == Words(entries)[i / BITS := e.bitmap[i % BITS := on]];
  }

  /** With every word full, every bit is set, and conversely. */
  lemma AllSetMeansEverything(entries: seq<Entry>)
    ensures AllSet(entries) <==> forall i: nat :: i < BITS * |entries| ==> i in Bits(entries)
  {
    if AllSet(entries) {
      forall i: nat | i < BITS * |entries| ensures i in Bits(entries) {
        assert Full(entries[i / BITS].bitmap);
        assert Has(Words(entries), i);
      }
    } else {
      var w: nat :| w < |entries| && !Full(entries[w].bitmap);
      var b := LowestClear(entries[w].bitmap);
      var i := w * BITS + b;
      assert i / BITS == w && i % BITS == b;
      assert !Has(Words(entries), i);
      assert i !in Bits(entries);
    }
  }

  // ----- List changes -----

  /** Only the head word, or a word off the list, changed, and no word became full or non-full. */
  lemma ListFrame(entries: seq<Entry>, head: int, list: seq<nat>, w: nat, bitmap: Word)
    requires ListOk(entries, head, list) && w < |entries|
    requires Full(bitmap) == Full(entries[w].bitmap)
    ensures ListOk(entries[w := entries[w].(bitmap := bitmap)], head, list)
  {
    var after := entries[w := entries[w].(bitmap := bitmap)];
    forall i: nat | i < |list| ensures Hop(after, list, i) {
      assert Hop(entries, list, i);
    }
  }

  /** The head word fills up and leaves the list. */
  lemma ListPop(entries: seq<Entry>, head: int, list: seq<nat>, bitmap: Word)
    requires ListOk(entries, head, list) && list != [] && Full(bitmap)
    ensures 0 <= head < |entries|
    ensures ListOk(entries[head := entries[head].(bitmap := bitmap)], entries[head].next, list[1..])
  {
    var after := entries[head := entries[head].(bitmap := bitmap)];
    assert Hop(entries, list, 0);
    assert list == [list[0]] + list[1..];
    forall i: nat | i < |list[1..]| ensures Hop(after, list[1..], i) {
      assert Hop(entries, list, i + 1);
    }
  }

  /** A full word gets a clear bit and is put in front. */
  lemma ListPush(entries: seq<Entry>, head: int, list: seq<nat>, w: nat, bitmap: Word)
    requires ListOk(entries, head, list) && list != [] && w < |entries| && Full(entries[w].bitmap) && !Full(bitmap)
    ensures ListOk(entries[w := Entry(head, bitmap)], w, [w] + list)
  {
    var after, l := entries[w := Entry(head, bitmap)], [w] + list;
    forall i: nat | i < |l| ensures Hop(after, l, i) {
      if i > 0 {
        assert Hop(entries, list, i - 1);
      }
    }
  }

  lemma ListEmpty(entries: seq<Entry>, head: int, list: seq<nat>)
    requires ListOk(entries, head, list)
    ensures list == [] <==> AllSet(entries)
  {
    if list != [] {
      assert list[0] in list;
    }
  }

  /** The list of the non-full words among the first n, as linking builds it. */
  ghost predicate Linking(entries: seq<Entry>, head: int, list: seq<nat>, n: nat) {
    && n <= |entries|
    && (forall i :: 0 <= i < |list| ==> list[i] < n)
    && (forall i, j :: 0 <= i < j < |list| ==> list[i] < list[j])
    && (forall i: nat :: i < |list| ==> Hop(entries, list, i))
    && head == (if list == [] then NULL else list[0])
    && (forall w: nat :: w < n ==> (w in list <==> !Full(entries[w].bitmap)))
  }

  lemma LinkFull(entries: seq<Entry>, head: int, list: seq<nat>, n: nat)
    requires Linking(entries, head, list, n) && n < |entries| && Full(entries[n].bitmap)
    ensures Linking(entries[n := entries[n].(next := NULL)], head, list, n + 1)
  {
    var after := entries[n := entries[n].(next := NULL)];
    forall i: nat | i < |list| ensures Hop(after, list, i) {
      assert Hop(entries, list, i);
    }
  }

  lemma LinkOpen(entries: seq<Entry>, head: int, list: seq<nat>, n: nat, after: seq<Entry>)
    requires Linking(entries, head, list, n) && n < |entries| && !Full(entries[n].bitmap)
    requires
      var cleared := entries[n := entries[n].(next := NULL)];
      after == if list == [] then cleared else cleared[list[|list| - 1] := cleared[list[|list| - 1]].(next := n)]
    ensures Linking(after, if list == [] then n else head, list + [n], n + 1)
    ensures Words(after) == Words(entries)
  {
    var l := list + [n];
    forall i: nat | i < |l| ensures Hop(after, l, i) {
      if i < |list| {
        assert Hop(entries, list, i);
      }
    }
    forall w: nat | w < n + 1 ensures w in l <==> !Full(after[w].bitmap) {
      assert w < n ==> (w in list <==> !Full(entries[w].bitmap));
    }
  }

  lemma LinkDone(entries: seq<Entry>, head: int, list: seq<nat>)
    requires Linking(entries, head, list, |entries|)
    ensures ListOk(entries, head, list)
  {}

  lemma FullAfterClear(w: Word, b: nat)
    requires b < BITS
    ensures !Full(w[b := false])
  {
    assert !w[b := false][b];
  }

  class BmStack {
    const base: array<Entry>
    var head: int
    ghost var list: seq<nat>

    /** Linked, and not exhausted since: the list is exact.  Once the list has run empty it stays so. */
    ghost predicate Valid()
      reads this, base
    {
      head != NULL ==> list != [] && ListOk(base[..], head, list)
    }

    ghost function View(): set<nat>
      reads this, base
    {
      Bits(base[..])
    }

    constructor (items: nat)
      requires items % BITS == 0
      ensures Valid() && fresh(base) && BITS * base.Length == items && head == NULL && View() == {}
    {
      var none: Word := seq(32, _ => false);
      base := new Entry[items / BITS](_ => Entry(NULL, none));
      head, list := NULL, [];
      new;
      assert forall i :: 0 <= i < |Words(base[..])| ==> Words(base[..])[i] == none;
    }

    /** Set a bit: any bit before linking, a bit of the head word afterwards. */
    method Set(index: nat)
      requires Valid() && index < BITS * base.Length
      requires head == NULL || index / BITS == head
      modifies this, base
      ensures Valid() && View() == old(View()) + {index}
      ensures old(head) == NULL ==> head == NULL
      ensures old(head) != NULL ==> (head == NULL <==> AllSet(base[..]))
    {
      var i, bit := index / BITS, index % BITS;
      ghost var entries := base[..];
      BitsAfterUpdate(entries, index, true, entries[i].next);
      base[i] := base[i].(bitmap := base[i].bitmap[bit := true]);
      assert base[..] == entries[i := entries[i].(bitmap := base[i].bitmap)];
      if i == head && Full(base[i].bitmap) {
        ListPop(entries, head, list, base[i].bitmap);
        head := base[i].next;
        list := list[1..];
        ListEmpty(base[..], head, list);
      } else if head != NULL {
        ListFrame(entries, head, list, i, base[i].bitmap);
        ListEmpty(base[..], head, list);
      }
    }

    /** Build the list of all words that still have a clear bit. */
    method Link()
      requires head == NULL
      modifies this, base
      ensures Valid() && View() == old(View())
      ensures head == NULL <==> AllSet(base[..])
    {
      var prev := NULL;
      list := [];
      ghost var words := Words(base[..]);
      for i := 0 to base.Length
        invariant Linking(base[..], head, list, i)
        invariant prev == if list == [] then NULL else list[|list| - 1]
        invariant Words(base[..]) == words
      {
        ghost var entries := base[..];
        base[i] := base[i].(next := NULL);
        assert base[..] == entries[i := entries[i].(next := NULL)];
        if Full(base[i].bitmap) {
          LinkFull(entries, head, list, i);
          assert Words(base[..]) == Words(entries);
        } else {
          ghost var first := head;
          if prev == NULL {
            head := i;
          } else {
            base[prev] := base[prev].(next := i);
          }
          LinkOpen(entries, first, list, i, base[..]);
          prev := i;
          list := list + [i];
        }
      }
      LinkDone(base[..], head, list);
      ListEmpty(base[..], head, list);
    }

    method Clear(index: nat)
      requires Valid() && index < BITS * base.Length
      modifies this, base
      ensures Valid() && View() == old(View()) - {index}
      ensures head == NULL <==> old(head) == NULL
    {
      var i, bit := index / BITS, index % BITS;
      ghost var entries := base[..];
      BitsAfterUpdate(entries, index, false, entries[i].next);
      FullAfterClear(base[i].bitmap, bit);
      var wasFull := Full(base[i].bitmap);
      base[i] := base[i].(bitmap := base[i].bitmap[bit := false]);
      assert base[..] == entries[i := entries[i].(bitmap := base[i].bitmap)];
      if head != NULL && wasFull {
        ListPush(entries, head, list, i, base[i].bitmap);
        BitsAfterUpdate(entries, index, false, head);
        base[i] := base[i].(next := head);
        assert base[..] == entries[i := Entry(head, base[i].bitmap)];
        head := i;
        list := [i] + list;
      } else if head != NULL {
        ListFrame(entries, head, list, i, base[i].bitmap);
      }
    }

    predicate Test(index: nat)
      requires index < BITS * base.Length
      reads this, base
      ensures Test(index) <==> index in View()
    {
      assert Has(Words(base[..]), index) == base[index / BITS].bitmap[index % BITS];
      base[index / BITS].bitmap[index % BITS]
    }

    /** Take a clear bit of the head word: the list says that it has one. */
    method FindAndSet() returns (index: int)
      requires Valid() && head != NULL
      modifies this, base
      ensures Valid() && 0 <= index < BITS * base.Length
      ensures index !in old(View()) && View() == old(View()) + {index}
      ensures head == NULL <==> AllSet(base[..])
    {
      assert head in list;
      var bit := LowestClear(base[head].bitmap);
      index := head * BITS + bit;
      assert index / BITS == head && index % BITS == bit;
      assert !Has(Words(base[..]), index);
      Set(index);
    }
  }
}
