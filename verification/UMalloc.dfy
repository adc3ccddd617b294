/** The user-level allocator of umalloc.c: a circular list of free blocks in address order, with
    headers in front of the blocks. Addresses and sizes are in units of one header; 0 is the null
    pointer and `BASE` the static header, which lies below the heap. */
module UMalloc {
  const BASE: nat := 1
  const UNIT: nat := 16

  /** A block: the address of its header and its size, header included. */
  datatype Blk = Blk(a: nat, n: nat)

  function End(b: Blk): nat {
    b.a + b.n
  }

  /** The free list from the base on: in address order, and no two blocks touch. */
  ghost predicate Ordered(list: seq<Blk>) {
    && |list| > 0 && list[0] == Blk(BASE, 0)
    && (forall i :: 0 < i < |list| ==> list[i].n > 0)
    && (forall i, j :: 0 <= i < j < |list| ==> End(list[i]) < list[j].a)
  }

  function After(list: seq<Blk>, i: nat): nat
    requires i < |list|
  {
    if i + 1 < |list| then i + 1 else 0
  }

  /** The headers in memory are those of the list, each pointing to the next. */
  ghost predicate Linked(ptr: map<nat, nat>, size: map<nat, nat>, list: seq<Blk>) {
    forall i :: 0 <= i < |list| ==> LinkedAt(ptr, size, list, i)
  }

  ghost predicate LinkedAt(ptr: map<nat, nat>, size: map<nat, nat>, list: seq<Blk>, i: nat)
    requires i < |list|
  {
    && list[i].a in ptr && list[i].a in size
    && size[list[i].a] == list[i].n && ptr[list[i].a] == list[After(list, i)].a
  }

  ghost predicate In(b: Blk, x: nat) {
    b.a <= x < End(b)
  }

  ghost predicate InFree(list: seq<Blk>, x: nat) {
    exists i :: 0 <= i < |list| && In(list[i], x)
  }

  ghost predicate InUse(alloc: map<nat, nat>, x: nat) {
    exists a :: a in alloc && In(Blk(a, alloc[a]), x)
  }

  /** Every unit of the heap is in exactly one block, free or in use. */
  ghost predicate Partition(list: seq<Blk>, alloc: map<nat, nat>, heap: set<nat>) {
    && (forall x :: x in heap <==> InFree(list, x) || InUse(alloc, x))
    && (forall x :: !(InFree(list, x) && InUse(alloc, x)))
    && Disjoint(alloc)
  }

  ghost predicate Disjoint(alloc: map<nat, nat>) {
    forall a, b, x :: a in alloc && b in alloc && In(Blk(a, alloc[a]), x) && In(Blk(b, alloc[b]), x) ==> a == b
  }

  // ---------------------------------------------------------------- free

  /** Block b belongs after list[j]. */
  ghost predicate Place(list: seq<Blk>, j: nat, b: Blk) {
    && j < |list| && b.n > 0 && list[j].a < b.a && End(list[j]) <= b.a
    && (forall i :: j < i < |list| ==> End(b) <= list[i].a)
  }

  /** Blocks k and k + 1 become one if they touch. */
  function Join(list: seq<Blk>, k: nat): seq<Blk> {
    if k + 1 < |list| && End(list[k]) == list[k + 1].a
    then list[..k] + [Blk(list[k].a, list[k].n + list[k + 1].n)] + list[k + 2..]
    else list
  }

  function With(list: seq<Blk>, j: nat, b: Blk): seq<Blk>
    requires j < |list|
  {
    list[..j + 1] + [b] + list[j + 1..]
  }

  /** The list with b put after list[j], and joined with the blocks that it touches. */
  function Insert(list: seq<Blk>, j: nat, b: Blk): seq<Blk>
    requires j < |list|
  {
    Join(Join(With(list, j, b), j + 1), j)
  }

  /** The order without the gaps. */
  ghost predicate Sorted(list: seq<Blk>) {
    && |list| > 0 && list[0] == Blk(BASE, 0)
    && (forall i :: 0 < i < |list| ==> list[i].n > 0)
    && (forall i, j :: 0 <= i < j < |list| ==> list[i].a < list[j].a && End(list[i]) <= list[j].a)
  }

  ghost predicate Gap(list: seq<Blk>, i: nat) {
    i + 1 < |list| ==> End(list[i]) < list[i + 1].a
  }

  lemma SortedGaps(list: seq<Blk>)
    requires Sorted(list) && forall i :: 0 <= i < |list| ==> Gap(list, i)
    ensures Ordered(list)
  {
    forall i, j | 0 <= i < j < |list|
      ensures End(list[i]) < list[j].a
    {
      assert Gap(list, i);
    }
  }

  function Merged(list: seq<Blk>, k: nat, i: nat): Blk
    requires i + 1 < |list|
  {
    if i < k then list[i] else if i == k then Blk(list[k].a, list[k].n + list[k + 1].n) else list[i + 1]
  }

  lemma MergedApart(list: seq<Blk>, k: nat, i: nat, j: nat)
    requires Sorted(list) && k + 1 < |list| && End(list[k]) == list[k + 1].a && i < j && j + 1 < |list|
    ensures Merged(list, k, i).a < Merged(list, k, j).a && End(Merged(list, k, i)) <= Merged(list, k, j).a
  {
  }

  lemma MergedGap(list: seq<Blk>, k: nat, i: nat)
    requires Sorted(list) && k + 1 < |list| && End(list[k]) == list[k + 1].a && i + 2 < |list|
    requires Gap(list, if i < k then i else i + 1)
    ensures End(Merged(list, k, i)) < Merged(list, k, i + 1).a
  {
  }

  /** Joining at k closes the question at k; only the pair at m may still touch. */
  lemma JoinSorted(list: seq<Blk>, k: nat, m: int)
    requires Sorted(list) && k < |list| && m < k && forall i :: 0 <= i < |list| && i != k && i != m ==> Gap(list, i)
    ensures Sorted(Join(list, k)) && k < |Join(list, k)|
    ensures forall i :: 0 <= i < |Join(list, k)| && i != m ==> Gap(Join(list, k), i)
  {
    var r := Join(list, k);
    if k + 1 < |list| && End(list[k]) == list[k + 1].a {
      forall i | 0 <= i < |r|
        ensures r[i] == Merged(list, k, i) && (i == 0 ==> r[i] == list[0]) && (i > 0 ==> r[i].n > 0)
      {
      }
      hide Join, Merged;
      forall i, j | 0 <= i < j < |r|
        ensures r[i].a < r[j].a && End(r[i]) <= r[j].a
      {
        MergedApart(list, k, i, j);
      }
      forall i | 0 <= i < |r| && i != m
        ensures Gap(r, i)
      {
        if i + 1 < |r| {
          MergedGap(list, k, i);
        }
      }
    } else {
      assert r == list && Gap(r, k);
    }
  }

  lemma JoinAt(list: seq<Blk>, k: nat)
    requires k < |list|
    ensures var r := Join(list, k);
      if k + 1 < |list| && End(list[k]) == list[k + 1].a then
        |r| == |list| - 1 && forall i :: 0 <= i < |r| ==> r[i] == Merged(list, k, i)
      else r == list
  {
  }

  lemma JoinIn(list: seq<Blk>, k: nat, x: nat)
    requires Sorted(list)
    ensures InFree(Join(list, k), x) <==> InFree(list, x)
  {
    var r := Join(list, k);
    if k + 1 < |list| && End(list[k]) == list[k + 1].a {
      if i :| 0 <= i < |list| && In(list[i], x) {
        assert In(r[if i <= k then i else i - 1], x);
      }
      if i :| 0 <= i < |r| && In(r[i], x) {
        assert i < k ==> In(list[i], x);
        assert i == k ==> In(list[k], x) || In(list[k + 1], x);
        assert i > k ==> In(list[i + 1], x);
      }
    }
  }

  lemma WithIn(list: seq<Blk>, j: nat, b: Blk, x: nat)
    requires j < |list|
    ensures InFree(With(list, j, b), x) <==> InFree(list, x) || In(b, x)
  {
    var r := With(list, j, b);
    if i :| 0 <= i < |list| && In(list[i], x) {
      assert In(r[if i <= j then i else i + 1], x);
    }
    if In(b, x) {
      assert In(r[j + 1], x);
    }
    if i :| 0 <= i < |r| && In(r[i], x) {
      assert i <= j ==> In(list[i], x);
      assert i > j + 1 ==> In(list[i - 1], x);
    }
  }

  lemma WithAt(list: seq<Blk>, j: nat, b: Blk)
    requires j < |list|
    ensures |With(list, j, b)| == |list| + 1
    ensures forall i :: 0 <= i <= |list| ==>
      With(list, j, b)[i] == if i <= j then list[i] else if i == j + 1 then b else list[i - 1]
  {
  }

  function Pick(list: seq<Blk>, j: nat, b: Blk, i: nat): Blk
    requires j < |list| && i <= |list|
  {
    if i <= j then list[i] else if i == j + 1 then b else list[i - 1]
  }

  lemma WithSorted(list: seq<Blk>, j: nat, b: Blk)
    requires Ordered(list) && Place(list, j, b)
    ensures Sorted(With(list, j, b))
  {
    var r := With(list, j, b);
    assert |r| == |list| + 1 && r[0] == list[0];
    forall i | 0 <= i < |r|
      ensures r[i] == Pick(list, j, b, i) && (i > 0 ==> r[i].n > 0)
    {
    }
    hide With;
    forall i, k | 0 <= i < k < |r|
      ensures r[i].a < r[k].a && End(r[i]) <= r[k].a
    {
      PairApart(list, j, b, i, k);
    }
    hide Pick, Ordered;
  }

  lemma PairApart(list: seq<Blk>, j: nat, b: Blk, i: nat, k: nat)
    requires Ordered(list) && Place(list, j, b) && i < k <= |list|
    ensures Pick(list, j, b, i).a < Pick(list, j, b, k).a && End(Pick(list, j, b, i)) <= Pick(list, j, b, k).a
  {
    if i < j {
      assert End(list[i]) < list[j].a;
    }
  }

  lemma WithOne(list: seq<Blk>, j: nat, b: Blk, i: nat)
    requires j < |list| && i <= |list|
    ensures |With(list, j, b)| == |list| + 1
    ensures With(list, j, b)[i] == if i <= j then list[i] else if i == j + 1 then b else list[i - 1]
  {
    WithAt(list, j, b);
  }

  lemma WithGaps(list: seq<Blk>, j: nat, b: Blk)
    requires Ordered(list) && Place(list, j, b)
    ensures forall i :: 0 <= i <= |list| && i != j && i != j + 1 ==> Gap(With(list, j, b), i)
  {
    hide With;
    var r := With(list, j, b);
    forall i | 0 <= i <= |list| && i != j && i != j + 1
      ensures Gap(r, i)
    {
      WithOne(list, j, b, i);
      if i < |list| {
        WithOne(list, j, b, i + 1);
      }
    }
  }

  /** Freeing keeps the list in order and without touching neighbours, and adds the units of the
      block to it. */
  lemma InsertKeeps(list: seq<Blk>, j: nat, b: Blk)
    requires Ordered(list) && Place(list, j, b)
    ensures Ordered(Insert(list, j, b))
    ensures forall x :: InFree(Insert(list, j, b), x) <==> InFree(list, x) || In(b, x)
  {
    var l1 := With(list, j, b);
    var l2 := Join(l1, j + 1);
    hide Ordered, InFree, Join, With;
    WithSorted(list, j, b);
    WithGaps(list, j, b);
    WithAt(list, j, b);
    JoinSorted(l1, j + 1, j);
    JoinSorted(l2, j, -1);
    SortedGaps(Insert(list, j, b));
    forall x
      ensures InFree(Insert(list, j, b), x) <==> InFree(list, x) || In(b, x)
    {
      WithIn(list, j, b, x);
      JoinIn(l1, j + 1, x);
      JoinIn(l2, j, x);
    }
  }

  // ---------------------------------------------------------------- free's pointer updates

  /** The list is in memory but for the pointer of its block j. */
  ghost predicate LinkedBut(ptr: map<nat, nat>, size: map<nat, nat>, list: seq<Blk>, j: nat) {
    && j < |list| && list[j].a in ptr && list[j].a in size && size[list[j].a] == list[j].n
    && forall i :: 0 <= i < |list| && i != j ==> LinkedAt(ptr, size, list, i)
  }

  /** An address between two blocks is that of none. */
  lemma NotListed(list: seq<Blk>, j: nat, b: Blk)
    requires Ordered(list) && Place(list, j, b)
    ensures forall i :: 0 <= i < |list| ==> list[i].a != b.a
  {
    forall i | 0 <= i < |list|
      ensures list[i].a != b.a
    {
      if i < j {
        assert End(list[i]) < list[j].a;
      }
    }
  }

  /** free's first test when the block does not touch the one above: nothing is merged. */
  lemma JoinNone(list: seq<Blk>, j: nat, b: Blk)
    requires j < |list| && (j + 1 < |list| ==> End(b) != list[j + 1].a)
    ensures Join(With(list, j, b), j + 1) == With(list, j, b)
  {
    WithAt(list, j, b);
    hide With;
    assert j + 2 < |list| + 1 ==> With(list, j, b)[j + 2] == list[j + 1];
  }

  lemma PlaceIn(list: seq<Blk>, j: nat, b: Blk)
    requires Place(list, j, b)
    ensures j < |list|
  {
  }

  lemma LinkUpAt(ptr: map<nat, nat>, size: map<nat, nat>, list: seq<Blk>, j: nat, b: Blk, i: nat)
    requires Ordered(list) && Place(list, j, b) && Linked(ptr, size, list) && i <= |list| && i != j
    ensures |With(list, j, b)| == |list| + 1
    ensures LinkedAt(ptr[b.a := list[After(list, j)].a], size[b.a := b.n], With(list, j, b), i)
  {
    hide With, Ordered, Place, Linked;
    NotListed(list, j, b);
    PlaceIn(list, j, b);
    WithOne(list, j, b, 0);
    WithOne(list, j, b, i);
    if i < |list| {
      WithOne(list, j, b, i + 1);
    }
    if i < j {
      LinkedIs(ptr, size, list, i);
      assert list[i].a != b.a;
    } else if i > j + 1 {
      LinkedIs(ptr, size, list, i - 1);
      assert list[i - 1].a != b.a;
    }
  }

  lemma LinkUp(ptr: map<nat, nat>, size: map<nat, nat>, list: seq<Blk>, j: nat, b: Blk)
    requires Ordered(list) && Place(list, j, b) && Linked(ptr, size, list)
    requires (j + 1 < |list| ==> End(b) != list[j + 1].a)
    ensures LinkedBut(ptr[b.a := list[After(list, j)].a], size[b.a := b.n], Join(With(list, j, b), j + 1), j)
  {
    NotListed(list, j, b);
    JoinNone(list, j, b);
    WithOne(list, j, b, j);
    hide With, Ordered, Place, Join;
    assert LinkedAt(ptr, size, list, j);
    hide LinkedAt;
    var ptr', size', r := ptr[b.a := list[After(list, j)].a], size[b.a := b.n], With(list, j, b);
    forall i | 0 <= i < |r| && i != j
      ensures LinkedAt(ptr', size', r, i)
    {
      LinkUpAt(ptr, size, list, j, b, i);
    }
  }

  lemma TakeOver(list: seq<Blk>, j: nat, b: Blk)
    requires j + 1 < |list| && End(b) == list[j + 1].a
    ensures Join(With(list, j, b), j + 1) == list[j + 1 := Blk(b.a, b.n + list[j + 1].n)]
  {
    WithAt(list, j, b);
    JoinAt(With(list, j, b), j + 1);
  }

  /** And when it touches: it takes the other one over. */
  lemma LinkUpJoined(ptr: map<nat, nat>, size: map<nat, nat>, list: seq<Blk>, j: nat, b: Blk)
    requires Ordered(list) && Place(list, j, b) && Linked(ptr, size, list) && j + 1 < |list| && End(b) == list[j + 1].a
    ensures list[j + 1].a in ptr
    ensures LinkedBut(ptr[b.a := ptr[list[j + 1].a]], size[b.a := b.n + list[j + 1].n], Join(With(list, j, b), j + 1), j)
  {
    hide With, Join, Ordered, Place, Linked;
    LinkedIs(ptr, size, list, j);
    LinkedIs(ptr, size, list, j + 1);
    NotListed(list, j, b);
    TakeOver(list, j, b);
    var r := list[j + 1 := Blk(b.a, b.n + list[j + 1].n)];
    var ptr', size' := ptr[b.a := ptr[list[j + 1].a]], size[b.a := b.n + list[j + 1].n];
    forall i | 0 <= i < |r| && i != j
      ensures LinkedAt(ptr', size', r, i)
    {
      assert After(r, i) == After(list, i) != j + 1;
      LinkedIs(ptr, size, list, i);
    }
  }

  lemma LinkedIs(ptr: map<nat, nat>, size: map<nat, nat>, list: seq<Blk>, i: nat)
    requires Linked(ptr, size, list) && i < |list|
    ensures LinkedAt(ptr, size, list, i)
  {
  }

  /** free's second test: the block below takes this one over, or points to it. */
  lemma LinkDown(ptr: map<nat, nat>, size: map<nat, nat>, list: seq<Blk>, j: nat)
    requires Sorted(list) && j + 1 < |list| && LinkedBut(ptr, size, list, j) && End(list[j]) != list[j + 1].a
    ensures Linked(ptr[list[j].a := list[j + 1].a], size, Join(list, j))
  {
    assert Join(list, j) == list;
    var ptr' := ptr[list[j].a := list[j + 1].a];
    forall i | 0 <= i < |list|
      ensures LinkedAt(ptr', size, list, i)
    {
      assert i != j ==> LinkedAt(ptr, size, list, i);
    }
  }

  lemma LinkedPast(ptr: map<nat, nat>, size: map<nat, nat>, list: seq<Blk>, j: nat)
    requires LinkedBut(ptr, size, list, j)
    ensures j < |list| && list[j].a in ptr && list[j].a in size && size[list[j].a] == list[j].n
  {
  }

  lemma LinkDownJoined(ptr: map<nat, nat>, size: map<nat, nat>, list: seq<Blk>, j: nat)
    requires Sorted(list) && j + 1 < |list| && LinkedBut(ptr, size, list, j) && End(list[j]) == list[j + 1].a
    ensures LinkedAt(ptr, size, list, j + 1)
    ensures Linked(ptr[list[j].a := ptr[list[j + 1].a]], size[list[j].a := list[j].n + list[j + 1].n], Join(list, j))
  {
    hide Join, Merged, LinkedBut, Sorted;
    LinkedElse(ptr, size, list, j, j + 1);
    LinkedPast(ptr, size, list, j);
    var r := Join(list, j);
    JoinAt(list, j);
    var ptr', size' := ptr[list[j].a := ptr[list[j + 1].a]], size[list[j].a := list[j].n + list[j + 1].n];
    forall i | 0 <= i < |r|
      ensures LinkedAt(ptr', size', r, i)
    {
      MergedNext(list, j, i);
      if i != j {
        LinkedElse(ptr, size, list, j, if i < j then i else i + 1);
      }
    }
  }

  /** Where the merged list takes its entries from, and what follows them. */
  lemma MergedNext(list: seq<Blk>, j: nat, i: nat)
    requires Sorted(list) && j + 1 < |list| && i + 1 < |list|
    ensures var m := if i <= j then i else i + 1;
      && Merged(list, j, i).a == list[m].a && (i != j ==> Merged(list, j, i) == list[m] && list[m].a != list[j].a)
      && (i == j ==> Merged(list, j, i).n == list[j].n + list[j + 1].n)
      && (i + 2 < |list| ==> Merged(list, j, i + 1).a == list[if i < j then i + 1 else i + 2].a)
    ensures Merged(list, j, 0).a == list[0].a
  {
  }

  // ---------------------------------------------------------------- where a block belongs

  /** Block b of the heap, which is in use, has its place in the list. */
  lemma PlaceOf(list: seq<Blk>, alloc: map<nat, nat>, heap: set<nat>, a: nat) returns (j: nat)
    requires Ordered(list) && Partition(list, alloc, heap) && a in alloc && alloc[a] > 0 && a > BASE
    ensures Place(list, j, Blk(a, alloc[a]))
  {
    var b := Blk(a, alloc[a]);
    j := 0;
    while j + 1 < |list| && list[j + 1].a < a
      invariant j < |list| && list[j].a < a
    {
      j := j + 1;
    }
    assert InUse(alloc, a) by {
      assert In(b, a);
    }
    assert !In(list[j], a);
    forall i | j < i < |list|
      ensures End(b) <= list[i].a
    {
      assert i > j + 1 ==> End(list[j + 1]) < list[i].a;
      assert In(list[i], list[i].a);
      if list[i].a < End(b) {
        assert In(b, list[i].a);
        assert InUse(alloc, list[i].a);
        assert false;
      }
    }
  }

  /** free's loop: the search stops at list[i]. */
  predicate StopsAt(p: nat, next: nat, bp: nat) {
    (bp > p && bp < next) || (p >= next && (bp > p || bp < next))
  }

  /** It stops exactly at the place of the block. */
  lemma StopsAtPlace(list: seq<Blk>, j: nat, b: Blk, i: nat)
    requires Ordered(list) && Place(list, j, b) && i < |list|
    ensures StopsAt(list[i].a, list[After(list, i)].a, b.a) <==> i == j
  {
    if i + 1 < |list| {
      assert End(list[i]) < list[i + 1].a;
      if i < j {
        assert i + 1 == j || End(list[i + 1]) < list[j].a;
      }
    } else if i != 0 {
      assert End(list[0]) < list[i].a;
    }
    if j > 0 {
      assert End(list[0]) < list[j].a;
    }
  }

  lemma InUseLess(alloc: map<nat, nat>, a: nat, x: nat)
    requires a in alloc
    ensures InUse(alloc, x) <==> InUse(alloc - {a}, x) || In(Blk(a, alloc[a]), x)
  {
    if c :| c in alloc && In(Blk(c, alloc[c]), x) {
      if c != a {
        assert c in alloc - {a} && In(Blk(c, (alloc - {a})[c]), x);
      }
    }
    if c :| c in alloc - {a} && In(Blk(c, (alloc - {a})[c]), x) {
      assert c in alloc && In(Blk(c, alloc[c]), x);
    }
  }

  /** A block goes from use to the free list. */
  lemma PartitionFreed(list: seq<Blk>, alloc: map<nat, nat>, heap: set<nat>, a: nat, list': seq<Blk>)
    requires Partition(list, alloc, heap) && a in alloc
    requires forall x :: InFree(list', x) <==> InFree(list, x) || In(Blk(a, alloc[a]), x)
    ensures Partition(list', alloc - {a}, heap)
  {
    forall x
      ensures InUse(alloc, x) <==> InUse(alloc - {a}, x) || In(Blk(a, alloc[a]), x)
      ensures !(InUse(alloc - {a}, x) && In(Blk(a, alloc[a]), x))
    {
      InUseLess(alloc, a, x);
      if c :| c in alloc - {a} && In(Blk(c, (alloc - {a})[c]), x) {
        assert c in alloc && In(Blk(c, alloc[c]), x);
      }
    }
    hide InFree, InUse;
  }

  /** The headers of the blocks in use: each holds the size of its block, above the base. */
  ghost predicate Headers(size: map<nat, nat>, alloc: map<nat, nat>) {
    forall a :: a in alloc ==> a > BASE && alloc[a] > 0 && a in size && size[a] == alloc[a]
  }

  lemma NotInUse(list: seq<Blk>, alloc: map<nat, nat>, heap: set<nat>, size: map<nat, nat>, i: nat)
    requires Ordered(list) && Partition(list, alloc, heap) && Headers(size, alloc) && i < |list|
    ensures list[i].a !in alloc
  {
    var a := list[i].a;
    if i > 0 {
      assert In(list[i], a) && InFree(list, a);
      assert a in alloc && alloc[a] > 0 ==> In(Blk(a, alloc[a]), a);
    }
  }

  class Heap {
    const limit: nat
    var ptr: map<nat, nat>
    var size: map<nat, nat>
    var freep: nat
    var brk: nat
    ghost var list: seq<Blk>
    ghost var at: nat
    ghost var alloc: map<nat, nat>
    ghost var heap: set<nat>

    /** `list` is the free list from the base on, with freep at its entry `at`; `alloc` has the
        blocks in use and their sizes; `heap` is what sbrk has given. */
    ghost predicate Valid()
      reads this
    {
      && freep != 0 && at < |list| && freep == list[at].a
      && Ordered(list) && Linked(ptr, size, list) && Partition(list, alloc, heap) && Headers(size, alloc)
      && BASE < brk && (forall x :: x in heap ==> BASE < x < brk)
    }

    /** Before the first call of malloc. */
    ghost predicate Fresh()
      reads this
    {
      freep == 0 && alloc == map[] && heap == {} && BASE < brk
    }

    constructor (brk: nat, limit: nat)
      requires brk > BASE
      ensures Fresh() && this.brk == brk && this.limit == limit
    {
      this.limit := limit;
      this.brk := brk;
      ptr, size, freep := map[], map[], 0;
      list, at, alloc, heap := [], 0, map[], {};
    }

    /** Give a block back. It is joined with the free blocks that it touches, and no other block in
        use is affected. */
    method Free(ap: nat)
      requires Valid() && ap > 0 && ap - 1 in alloc
      modifies this`ptr, this`size, this`freep, this`list, this`at, this`alloc
      ensures Valid() && alloc == old(alloc) - {ap - 1}
      ensures Place(old(list), at, Blk(ap - 1, old(alloc)[ap - 1]))
      ensures list == Insert(old(list), at, Blk(ap - 1, old(alloc)[ap - 1]))
    {
      hide Ordered, Partition, Place, Join, With, InFree, InUse, LinkedBut, Sorted;
      var bp := ap - 1;
      ghost var b := Blk(bp, alloc[bp]);
      ghost var j := PlaceOf(list, alloc, heap, bp);
      PlaceFacts(list, j, b);
      var p := Search(bp, j);
      Splice(p, bp, j);
      PartitionFreed(old(list), alloc, heap, bp, list);
      alloc := alloc - {bp};
      AboveBase(list, at);
    }

    /** free's loop: from freep once around the list at most, to the place of the block. */
    method Search(bp: nat, ghost j: nat) returns (p: nat)
      requires Valid() && bp in alloc && j < |list| && Place(list, j, Blk(bp, alloc[bp]))
      ensures p == list[j].a
    {
      hide Ordered, Partition, Place, InFree, InUse, Headers;
      ghost var b := Blk(bp, alloc[bp]);
      ghost var i := at;
      p := freep;
      assert LinkedAt(ptr, size, list, i);
      while !(bp > p && bp < ptr[p])
        invariant 0 <= i < |list| && p == list[i].a && LinkedAt(ptr, size, list, i)
        decreases if i <= j then j - i else |list| - i + j
      {
        StopsAtPlace(list, j, b, i);
        if p >= ptr[p] && (bp > p || bp < ptr[p]) {
          return;
        }
        p := ptr[p];
        i := After(list, i);
      }
      StopsAtPlace(list, j, b, i);
    }

    /** The pointer updates of free, once the place p is found. */
    method Splice(p: nat, bp: nat, ghost j: nat)
      requires Ordered(list) && Linked(ptr, size, list) && Partition(list, alloc, heap) && Headers(size, alloc)
      requires bp in alloc
      requires j < |list| && p == list[j].a && Place(list, j, Blk(bp, alloc[bp]))
      modifies this`ptr, this`size, this`freep, this`list, this`at
      ensures Ordered(list) && Linked(ptr, size, list) && at == j < |list| && freep == p == list[at].a
      ensures list == Insert(old(list), j, Blk(bp, alloc[bp])) && Headers(size, alloc - {bp})
      ensures forall x :: InFree(list, x) <==> InFree(old(list), x) || In(Blk(bp, alloc[bp]), x)
    {
      hide Ordered, Partition, Place, Join, With, InFree, InUse, LinkedBut, Sorted;
      ghost var b := Blk(bp, alloc[bp]);
      ghost var next := After(list, j);
      assert LinkedAt(ptr, size, list, j) && LinkedAt(ptr, size, list, next);
      NotInUse(list, alloc, heap, size, j);
      TouchesNext(list, j, b);
      if bp + size[bp] == ptr[p] {
        LinkUpJoined(ptr, size, list, j, b);
        size, ptr := size[bp := size[bp] + size[ptr[p]]], ptr[bp := ptr[ptr[p]]];
      } else {
        LinkUp(ptr, size, list, j, b);
        ptr := ptr[bp := ptr[p]];
        assert size == size[bp := b.n];
      }
      ghost var l2 := Join(With(list, j, b), j + 1);
      InsertSorted(list, j, b);
      assert LinkedAt(ptr, size, l2, j + 1) by {
        LinkedElse(ptr, size, l2, j, j + 1);
      }
      if p + size[p] == bp {
        LinkDownJoined(ptr, size, l2, j);
        size, ptr := size[p := size[p] + size[bp]], ptr[p := ptr[bp]];
      } else {
        LinkDown(ptr, size, l2, j);
        ptr := ptr[p := bp];
      }
      InsertKeeps(list, j, b);
      freep, list, at := p, Insert(list, j, b), j;
    }

    /** morecore: at least 4096 units from sbrk, put on the free list. Then the block at freep or
        the one after it is large enough. */
    method Morecore(nunits: nat) returns (r: nat)
      requires Valid()
      modifies this
      ensures Valid() && alloc == old(alloc) && old(heap) <= heap
      ensures r == 0 <==> old(brk) + Larger(nunits) > limit
      ensures r == 0 ==> heap == old(heap) && list == old(list) && at == old(at) && brk == old(brk)
      ensures r != 0 ==> r == freep && !NoneFits(list, nunits)
    {
      hide Ordered, Partition, Place, Linked, InFree, InUse, Headers, Insert;
      var nu := if nunits < 4096 then 4096 else nunits;
      if brk + nu > limit {
        return 0;
      }
      var p := brk;
      brk := brk + nu;
      GrownPartition(list, alloc, heap, size, p, nu);
      GrownLinked(ptr, size, list, alloc, heap, p, nu);
      size := size[p := nu];
      ghost var alloc0 := alloc;
      alloc := alloc[p := nu];
      heap := heap + Range(p, nu);
      ghost var l1 := list;
      Free(p + 1);
      assert alloc == alloc0 by {
        assert p !in alloc0;
        assert alloc0[p := nu] - {p} == alloc0;
      }
      LargeEnough(l1, at, Blk(p, nu));
      r := freep;
    }

    /** Take n units from block i of the free list: the whole block, or its end. */
    method Take(p: nat, prevp: nat, n: nat, ghost i: nat) returns (r: nat)
      requires Valid() && 0 < i < |list| && p == list[i].a && prevp == list[i - 1].a && 0 < n <= list[i].n
      modifies this`ptr, this`size, this`freep, this`list, this`at, this`alloc
      ensures Valid() && r > 0 && r - 1 !in old(alloc) && alloc == old(alloc)[r - 1 := n]
      ensures p <= r - 1 && r - 1 + n == p + old(list)[i].n
    {
      hide Ordered, Partition, InFree, InUse;
      assert LinkedAt(ptr, size, list, i);
      ghost var b := Blk(list[i].a + list[i].n - n, n);
      ghost var list' := if list[i].n == n then Remove(list, i) else Cut(list, i, n);
      TakeKeeps(list, alloc, heap, size, i, n);
      AboveBase(list, i - 1);
      var q := p;
      if size[p] == n {
        RemoveLinked(ptr, size, list, i);
        ptr := ptr[prevp := ptr[p]];
      } else {
        CutLinked(ptr, size, list, i, n);
        var rest := size[p] - n;
        q := p + rest;
        size := size[p := rest][q := n];
      }
      hide Linked;
      list, at, freep := list', i - 1, prevp;
      alloc := alloc[q := n];
      return q + 1;
    }

    /** The first block from freep on that has room for nbytes bytes and a header. Only if there is
        none, morecore is called, once. It returns 0 only when sbrk has no more to give, and then no block
        had room; otherwise a block that was not in use. */
    method Malloc(nbytes: nat) returns (r: nat)
      requires (Valid() || Fresh()) && Units(nbytes) * UNIT < 0x8000_0000
      modifies this
      ensures Valid()
      ensures r != 0 ==> r - 1 !in old(alloc) && alloc == old(alloc)[r - 1 := Units(nbytes)] && old(heap) <= heap
      ensures old(freep) != 0 && heap != old(heap) ==> NoneFits(old(list), Units(nbytes))
      ensures r == 0 ==> alloc == old(alloc) && heap == old(heap) && brk + Larger(Units(nbytes)) > limit
      ensures r == 0 ==> NoneFits(list, Units(nbytes))
    {
      hide Ordered, Partition, Linked, InFree, InUse, Headers, PassedTo, NoneFits;
      var nunits := (nbytes + UNIT - 1) / UNIT + 1;
      if freep == 0 {
        ptr, size, freep := ptr[BASE := BASE], size[BASE := 0], BASE;
        list, at := [Blk(BASE, 0)], 0;
        Empty(ptr, size);
      }
      var prevp := freep;
      NextIs(ptr, size, list, at);
      var p := ptr[prevp];
      ghost var i, more := After(list, at), false;
      PassedNone(list, at, nunits);
      while true
        invariant Valid() && alloc == old(alloc) && old(heap) <= heap && 0 <= i < |list|
        invariant p == list[i].a && prevp == list[Prior(list, i)].a
        invariant PassedTo(list, at, i, nunits) && (more ==> !NoneFits(list, nunits))
        invariant !more ==> heap == old(heap) && (old(freep) != 0 ==> list == old(list))
        invariant more && old(freep) != 0 ==> NoneFits(old(list), nunits)
        decreases if more then 0 else 1, if i <= at then at - i else |list| - i + at
      {
        NextIs(ptr, size, list, i);
        if size[p] >= nunits {
          BaseIsFirst(list);
          r := Take(p, prevp, nunits, i);
          return;
        }
        SameAddress(list, i, at);
        PassedOne(list, at, i, nunits);
        if p == freep {
          p := Morecore(nunits);
          if p == 0 {
            return 0;
          }
          i, more := at, true;
          NextIs(ptr, size, list, i);
          PassedNone(list, at, nunits);
        }
        prevp := p;
        p := ptr[p];
        i := After(list, i);
      }
    }
  }

  function Units(nbytes: nat): nat {
    (nbytes + UNIT - 1) / UNIT + 1
  }

  function Prior(list: seq<Blk>, i: nat): nat
    requires i < |list|
  {
    if i == 0 then |list| - 1 else i - 1
  }

  /** Block k has been passed on the way from freep, at entry f, to entry i. */
  predicate Seen(f: nat, i: nat, k: nat) {
    if f < i then f < k < i else k > f || k < i
  }

  ghost predicate NoneFits(list: seq<Blk>, n: nat) {
    forall i :: 0 <= i < |list| ==> list[i].n < n
  }

  /** All blocks passed on that way are too small for n units. */
  ghost predicate PassedTo(list: seq<Blk>, f: nat, i: nat, n: nat) {
    forall k :: 0 <= k < |list| && Seen(f, i, k) ==> list[k].n < n
  }

  lemma PassedNone(list: seq<Blk>, f: nat, n: nat)
    requires f < |list|
    ensures PassedTo(list, f, After(list, f), n)
  {
  }

  /** The search goes on past block i, or has been all around the list. */
  lemma PassedOne(list: seq<Blk>, f: nat, i: nat, n: nat)
    requires f < |list| && i < |list| && PassedTo(list, f, i, n) && list[i].n < n
    ensures if i == f then NoneFits(list, n) else PassedTo(list, f, After(list, i), n)
  {
  }

  lemma Empty(ptr: map<nat, nat>, size: map<nat, nat>)
    requires BASE in ptr && ptr[BASE] == BASE && BASE in size && size[BASE] == 0
    ensures Ordered([Blk(BASE, 0)]) && Linked(ptr, size, [Blk(BASE, 0)])
    ensures Partition([Blk(BASE, 0)], map[], {}) && Headers(size, map[])
  {
  }

  lemma NextIs(ptr: map<nat, nat>, size: map<nat, nat>, list: seq<Blk>, i: nat)
    requires Linked(ptr, size, list) && i < |list|
    ensures list[i].a in ptr && list[i].a in size
    ensures size[list[i].a] == list[i].n && ptr[list[i].a] == list[After(list, i)].a
    ensures Prior(list, After(list, i)) == i
  {
    assert LinkedAt(ptr, size, list, i);
  }

  lemma BaseIsFirst(list: seq<Blk>)
    requires Ordered(list)
    ensures list[0].n == 0
  {
  }

  lemma SameAddress(list: seq<Blk>, i: nat, j: nat)
    requires Ordered(list) && i < |list| && j < |list|
    ensures list[i].a == list[j].a <==> i == j
  {
    if i < j {
      assert End(list[i]) < list[j].a;
    } else if j < i {
      assert End(list[j]) < list[i].a;
    }
  }

  function Larger(nunits: nat): nat {
    if nunits < 4096 then 4096 else nunits
  }

  ghost function Range(p: nat, n: nat): set<nat> {
    set x: nat | p <= x < p + n && In(Blk(p, n), x)
  }

  /** Taking keeps the order and the partition, and the other headers in use are elsewhere. */
  lemma TakeKeeps(list: seq<Blk>, alloc: map<nat, nat>, heap: set<nat>, size: map<nat, nat>, i: nat, n: nat)
    requires Ordered(list) && Partition(list, alloc, heap) && Headers(size, alloc) && 0 < i < |list|
    requires 0 < n <= list[i].n
    ensures var b := Blk(list[i].a + list[i].n - n, n);
      var list' := if list[i].n == n then Remove(list, i) else Cut(list, i, n);
      && Ordered(list') && b.a !in alloc && Partition(list', alloc[b.a := n], heap) && list[i].a !in alloc && b.a > BASE
      && i - 1 < |list'| && list'[i - 1].a == list[i - 1].a
  {
    hide InFree, InUse;
    var b := Blk(list[i].a + list[i].n - n, n);
    var list' := if list[i].n == n then Remove(list, i) else Cut(list, i, n);
    assert i - 1 < |list'| && list'[i - 1].a == list[i - 1].a;
    NotInUse(list, alloc, heap, size, i);
    AboveBase(list, i);
    assert End(list[0]) < list[i].a;
    hide Ordered, Partition, Remove, Cut;
    forall x
      ensures (InFree(list, x) <==> InFree(list', x) || In(b, x)) && !(InFree(list', x) && In(b, x)) && Ordered(list')
    {
      if list[i].n == n {
        RemoveKeeps(list, i, x);
      } else {
        CutKeeps(list, i, n, x);
      }
    }
    PartitionTaken(list, alloc, heap, b, list');
  }

  lemma GrownPartition(list: seq<Blk>, alloc: map<nat, nat>, heap: set<nat>, size: map<nat, nat>, p: nat, n: nat)
    requires Partition(list, alloc, heap) && Headers(size, alloc) && n > 0 && p > BASE && forall x :: x in heap ==>
      x < p
    ensures p !in alloc && Partition(list, alloc[p := n], heap + Range(p, n)) && Headers(size[p := n], alloc[p := n])
  {
    hide InFree, InUse, Disjoint;
    AllUsed(alloc);
    UsedMore(alloc, Blk(p, n));
  }

  /** The header of a new block is beyond all others. */
  lemma GrownLinked(ptr: map<nat, nat>, size: map<nat, nat>, list: seq<Blk>, alloc: map<nat, nat>,
                    heap: set<nat>, p: nat, n: nat)
    requires Ordered(list) && Linked(ptr, size, list) && Partition(list, alloc, heap)
    requires p > BASE && forall x :: x in heap ==> x < p
    ensures Linked(ptr, size[p := n], list)
  {
    var size' := size[p := n];
    forall i | 0 <= i < |list|
      ensures LinkedAt(ptr, size', list, i)
    {
      assert LinkedAt(ptr, size, list, i);
      if i > 0 {
        assert In(list[i], list[i].a) && InFree(list, list[i].a);
      }
    }
  }

  lemma LargeEnough(list: seq<Blk>, j: nat, b: Blk)
    requires Ordered(list) && Place(list, j, b)
    ensures var r := Insert(list, j, b);
      j < |r| && (r[j].n >= b.n || r[After(r, j)].n >= b.n)
  {
    WithAt(list, j, b);
    WithSorted(list, j, b);
    JoinAt(With(list, j, b), j + 1);
    JoinAt(Join(With(list, j, b), j + 1), j);
    hide With, Join;
  }

  lemma AboveBase(list: seq<Blk>, i: nat)
    requires Ordered(list) && i < |list|
    ensures list[i].a >= BASE
  {
    assert i > 0 ==> End(list[0]) < list[i].a;
  }

  lemma PlaceFacts(list: seq<Blk>, j: nat, b: Blk)
    requires Place(list, j, b)
    ensures j < |list| && b.n > 0
  {
  }

  lemma TouchesNext(list: seq<Blk>, j: nat, b: Blk)
    requires Ordered(list) && Place(list, j, b)
    ensures End(b) == list[After(list, j)].a <==> j + 1 < |list| && End(b) == list[j + 1].a
  {
  }

  lemma LinkedElse(ptr: map<nat, nat>, size: map<nat, nat>, list: seq<Blk>, j: nat, i: nat)
    requires LinkedBut(ptr, size, list, j) && i < |list| && i != j
    ensures LinkedAt(ptr, size, list, i)
  {
  }

  lemma InsertSorted(list: seq<Blk>, j: nat, b: Blk)
    requires Ordered(list) && Place(list, j, b)
    ensures var l2 := Join(With(list, j, b), j + 1);
      && Sorted(l2) && j + 1 < |l2| && l2[j] == list[j] && l2[j + 1].a == b.a
      && j < |Insert(list, j, b)| && Insert(list, j, b)[j].a == list[j].a
  {
    WithSorted(list, j, b);
    WithGaps(list, j, b);
    WithAt(list, j, b);
    JoinSorted(With(list, j, b), j + 1, j);
    JoinAt(With(list, j, b), j + 1);
    JoinAt(Join(With(list, j, b), j + 1), j);
    hide With, Join;
  }

  // ---------------------------------------------------------------- malloc

  /** The list without its block i. */
  function Remove(list: seq<Blk>, i: nat): seq<Blk>
    requires i < |list|
  {
    list[..i] + list[i + 1..]
  }

  /** The list with n units cut off the end of block i. */
  function Cut(list: seq<Blk>, i: nat, n: nat): seq<Blk>
    requires i < |list| && n <= list[i].n
  {
    list[i := Blk(list[i].a, list[i].n - n)]
  }

  lemma RemoveOrdered(list: seq<Blk>, i: nat)
    requires Ordered(list) && 0 < i < |list|
    ensures Ordered(Remove(list, i))
  {
    var r := Remove(list, i);
    forall k | 0 <= k < |r|
      ensures r[k] == list[if k < i then k else k + 1]
    {
    }
    hide Remove;
    assert r[0] == list[0];
  }

  lemma RemoveKeeps(list: seq<Blk>, i: nat, x: nat)
    requires Ordered(list) && 0 < i < |list|
    ensures Ordered(Remove(list, i))
    ensures InFree(list, x) <==> InFree(Remove(list, i), x) || In(list[i], x)
    ensures !(InFree(Remove(list, i), x) && In(list[i], x))
  {
    var r := Remove(list, i);
    RemoveOrdered(list, i);
    assert forall k :: 0 <= k < |r| ==> r[k] == list[if k < i then k else k + 1];
    hide Remove;
    if k :| 0 <= k < |list| && In(list[k], x) {
      if k != i {
        assert In(r[if k < i then k else k - 1], x);
      }
    }
    if k :| 0 <= k < |r| && In(r[k], x) {
      assert In(list[if k < i then k else k + 1], x);
    }
  }

  lemma CutKeeps(list: seq<Blk>, i: nat, n: nat, x: nat)
    requires Ordered(list) && 0 < i < |list| && 0 < n < list[i].n
    ensures Ordered(Cut(list, i, n))
    ensures var b := Blk(list[i].a + list[i].n - n, n);
      (InFree(list, x) <==> InFree(Cut(list, i, n), x) || In(b, x)) && !(InFree(Cut(list, i, n), x) && In(b, x))
  {
    var r, b := Cut(list, i, n), Blk(list[i].a + list[i].n - n, n);
    if k :| 0 <= k < |list| && In(list[k], x) {
      assert k != i ==> In(r[k], x);
      assert k == i ==> In(r[i], x) || In(b, x);
    }
    if k :| 0 <= k < |r| && In(r[k], x) {
      assert In(list[k], x);
    }
    if In(b, x) {
      assert In(list[i], x);
    }
  }

  lemma RemoveAt(list: seq<Blk>, i: nat, k: nat)
    requires 0 < i < |list| && k < |list| - 1
    ensures |Remove(list, i)| == |list| - 1 && Remove(list, i)[k] == list[if k < i then k else k + 1]
  {
  }

  /** Skipping entry i leaves the other links as they are. */
  lemma RemoveLinkedAt(ptr: map<nat, nat>, size: map<nat, nat>, list: seq<Blk>, i: nat, k: nat)
    requires Ordered(list) && Linked(ptr, size, list) && 0 < i < |list| && k < |list| - 1
    ensures |Remove(list, i)| == |list| - 1 && list[i].a in ptr
    ensures LinkedAt(ptr[list[i - 1].a := ptr[list[i].a]], size, Remove(list, i), k)
  {
    hide Remove, Ordered, Linked;
    var m := if k < i then k else k + 1;
    LinkedIs(ptr, size, list, i);
    LinkedIs(ptr, size, list, m);
    SameAddress(list, m, i - 1);
    RemoveAt(list, i, k);
    RemoveAt(list, i, 0);
    if k + 1 < |list| - 1 {
      RemoveAt(list, i, k + 1);
    }
  }

  lemma RemoveLinked(ptr: map<nat, nat>, size: map<nat, nat>, list: seq<Blk>, i: nat)
    requires Ordered(list) && Linked(ptr, size, list) && 0 < i < |list|
    ensures list[i].a in ptr && Linked(ptr[list[i - 1].a := ptr[list[i].a]], size, Remove(list, i))
  {
    hide Remove, Ordered, LinkedAt;
    RemoveAt(list, i, 0);
    RemoveLinkedAt(ptr, size, list, i, 0);
    var ptr', r := ptr[list[i - 1].a := ptr[list[i].a]], Remove(list, i);
    forall k | 0 <= k < |r|
      ensures LinkedAt(ptr', size, r, k)
    {
      RemoveLinkedAt(ptr, size, list, i, k);
    }
  }

  lemma CutLinked(ptr: map<nat, nat>, size: map<nat, nat>, list: seq<Blk>, i: nat, n: nat)
    requires Ordered(list) && Linked(ptr, size, list) && 0 < i < |list| && 0 < n < list[i].n
    ensures Linked(ptr, size[list[i].a := list[i].n - n][list[i].a + list[i].n - n := n], Cut(list, i, n))
  {
    var size' := size[list[i].a := list[i].n - n][list[i].a + list[i].n - n := n];
    forall k | 0 <= k < |list|
      ensures LinkedAt(ptr, size', Cut(list, i, n), k)
    {
      assert LinkedAt(ptr, size, list, k);
      assert k < i ==> End(list[k]) < list[i].a;
      assert k > i ==> End(list[i]) < list[k].a;
    }
  }

  /** A block goes from the free list into use. */
  lemma PartitionTaken(list: seq<Blk>, alloc: map<nat, nat>, heap: set<nat>, b: Blk, list': seq<Blk>)
    requires Partition(list, alloc, heap) && b.n > 0
    requires forall x :: InFree(list, x) <==> InFree(list', x) || In(b, x)
    requires forall x :: !(InFree(list', x) && In(b, x))
    ensures b.a !in alloc || alloc[b.a] == 0
    ensures b.a !in alloc ==> Partition(list', alloc[b.a := b.n], heap)
  {
    assert In(b, b.a);
    AllUsed(alloc);
    if b.a !in alloc {
      UsedMore(alloc, b);
      hide InFree, InUse, Disjoint;
    }
  }

  /** One more block in use, apart from the others. */
  lemma UsedMore(alloc: map<nat, nat>, b: Blk)
    requires b.a !in alloc && Disjoint(alloc) && forall x :: !(InUse(alloc, x) && In(b, x))
    ensures Disjoint(alloc[b.a := b.n])
    ensures forall x :: InUse(alloc[b.a := b.n], x) <==> InUse(alloc, x) || In(b, x)
  {
    var alloc' := alloc[b.a := b.n];
    forall x
      ensures InUse(alloc', x) <==> InUse(alloc, x) || In(b, x)
    {
      InUseMore(alloc, b, x);
    }
    forall a, c, x | a in alloc' && c in alloc' && In(Blk(a, alloc'[a]), x) && In(Blk(c, alloc'[c]), x)
      ensures a == c
    {
      assert a != b.a ==> a in alloc && alloc[a] == alloc'[a];
      assert c != b.a ==> c in alloc && alloc[c] == alloc'[c];
      hide Disjoint;
    }
  }

  lemma AllUsed(alloc: map<nat, nat>)
    ensures forall a :: a in alloc && alloc[a] > 0 ==> InUse(alloc, a)
  {
    forall a | a in alloc && alloc[a] > 0
      ensures InUse(alloc, a)
    {
      assert In(Blk(a, alloc[a]), a);
    }
  }

  lemma InUseMore(alloc: map<nat, nat>, b: Blk, x: nat)
    requires b.a !in alloc
    ensures InUse(alloc[b.a := b.n], x) <==> InUse(alloc, x) || In(b, x)
  {
    var alloc' := alloc[b.a := b.n];
    if a :| a in alloc && In(Blk(a, alloc[a]), x) {
      assert a in alloc' && In(Blk(a, alloc'[a]), x);
    }
    if In(b, x) {
      assert b.a in alloc' && In(Blk(b.a, alloc'[b.a]), x);
    }
    if a :| a in alloc' && In(Blk(a, alloc'[a]), x) {
      assert a != b.a ==> a in alloc && In(Blk(a, alloc[a]), x);
    }
  }
}
