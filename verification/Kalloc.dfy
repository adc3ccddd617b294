/** The page allocator of kalloc.c: a counter per physical page, and a free list threaded through
    the free pages themselves. Each method is proved against the functions on values in `Frames`,
    whose invariant is what the rest of the kernel relies on. */
module Kalloc {
  import opened Frames
  import opened Lists
  import opened Params

  const PHYSTOP: nat := 0x8800_0000
  const PHYPAGES: nat := PHYSTOP / PGSIZE

  /** The list that starts at address head is the pages s; 0 is the null pointer. */
  ghost predicate Chain(next: seq<nat>, head: nat, s: seq<Pa>)
    decreases |s|
  {
    if s == [] then head == 0 else
      head == s[0] * PGSIZE && 0 < s[0] < |next| && Chain(next, next[s[0]], s[1..])
  }

  lemma {:induction false} ChainOther(next: seq<nat>, head: nat, s: seq<Pa>, pa: Pa, x: nat)
    requires Chain(next, head, s) && pa !in s && pa < |next|
    ensures Chain(next[pa := x], head, s)
    decreases |s|
  {
    if s != [] {
      assert s[0] in s;
      ChainOther(next, next[s[0]], s[1..], pa, x);
    }
  }

  /** Both critical sections of kfree, with nothing between them. */
  function Free(k: Kmem, pa: Pa): Kmem
    requires pa in k.refcnt
  {
    var k' := Decref(k, pa);
    if k'.refcnt[pa] > 0 then k' else Push(k', pa)
  }

  /** Dropping a reference keeps the allocator invariant, and puts the page on the free list
      exactly when the reference was the last one. */
  lemma FreeKeeps<T(!new)>(k: Kmem, own: map<T, Pa>, t: T)
    requires Steady(k, own) && t in own
    ensures own[t] in k.refcnt && own[t] !in k.free && Steady(Free(k, own[t]), own - {t})
    ensures own[t] in Free(k, own[t]).free <==> Sole(own, t)
  {
    hide Consistent, Sole, PageConsistent;
    var nowhere: map<T, Pa> := map[];
    OwnedUnlisted(k, own, own[t]);
    DecrefKeeps(k, own, nowhere, t, t);
    if Sole(own, t) {
      var transit := nowhere[t := own[t]];
      PushKeeps(Decref(k, own[t]), own - {t}, transit, t);
      assert transit - {t} == nowhere;
    }
  }

  /** A page that somebody refers to is not on the free list. */
  lemma OwnedUnlisted<T>(k: Kmem, own: map<T, Pa>, pa: Pa)
    requires Steady(k, own) && exists t :: t in own && own[t] == pa
    ensures pa in k.refcnt && pa !in k.free
  {
    CountPositive(own, pa);
    var nowhere: map<T, Pa> := map[];
    assert PageConsistent(k, own, nowhere, pa);
  }

  class KMem {
    const end: nat
    const refcnt: array<int>
    /** next[p] is the pointer that free page p begins with. */
    const next: array<nat>
    var freelist: nat
    ghost var free: seq<Pa>

    ghost predicate Valid()
      reads this, refcnt, next
    {
      && refcnt.Length == PHYPAGES && next.Length == PHYPAGES && 0 < end <= PHYSTOP
      && refcnt as object != next
      && Chain(next[..], freelist, free)
      && (forall pa :: pa in free ==> First() <= pa < PHYPAGES)
    }

    /** The number of the first page after the kernel. */
    function First(): nat {
      (end + PGSIZE - 1) / PGSIZE
    }

    ghost function View(): Kmem
      requires refcnt.Length == PHYPAGES
      reads this, refcnt
    {
      Kmem(map pa: nat | First() <= pa < PHYPAGES :: refcnt[pa], free)
    }

    /** kinit. Every page starts on the free list, once, with counter -1. */
    constructor (end: nat)
      requires 0 < end <= PHYSTOP
      ensures Valid() && this.end == end && fresh(refcnt) && fresh(next)
      ensures forall pa :: pa in View().refcnt ==> View().refcnt[pa] == -1 && pa in free
      ensures Unowned(View())
    {
      this.end := end;
      refcnt := new int[PHYPAGES](_ => 0);
      next := new nat[PHYPAGES](_ => 0);
      freelist := 0;
      free := [];
      new;
      Freerange();
    }

    method Freerange()
      requires Valid() && free == [] && forall pa :: 0 <= pa < PHYPAGES ==> refcnt[pa] == 0
      modifies this, refcnt, next
      ensures Valid()
      ensures forall pa :: pa in View().refcnt ==> View().refcnt[pa] == -1 && pa in free
      ensures Unowned(View())
    {
      hide Chain, Consistent, NoRepeat;
      assert NoRepeat<Pa>(free) by {
        EmptyNoRepeat<Pa>();
      }
      var p := First() * PGSIZE;
      ghost var n := First();
      while p + PGSIZE <= PHYSTOP
        invariant Valid() && p == n * PGSIZE && First() <= n && (n == First() || n <= PHYPAGES)
        invariant NoRepeat<Pa>(free) && forall pa :: pa in free <==> First() <= pa < n
        invariant forall pa :: First() <= pa < PHYPAGES ==> View().refcnt[pa] == if pa < n then -1 else 0
      {
        ghost var listed := free;
        var panicked := Kfree(p);
        assert free == [n] + listed;
        PushNoRepeat<Pa>(n, listed);
        p := p + PGSIZE;
        n := n + 1;
      }
      BootConsistent(View());
    }

    /** Free one reference to the page at address pa. It panics exactly when pa is not the address
        of a page that the allocator manages. Freeing a page that is on the free list already is not
        noticed: if its counter is below 2, the page is then linked to what was the first free page,
        and the list is one no longer. */
    method Kfree(pa: nat) returns (panicked: bool)
      requires Valid()
      modifies this`freelist, this`free, refcnt, next
      ensures refcnt.Length == PHYPAGES && next.Length == PHYPAGES
      ensures panicked <==> pa % PGSIZE != 0 || pa / PGSIZE !in old(View()).refcnt
      ensures panicked || pa / PGSIZE !in old(free) ==> Valid()
      ensures panicked ==> View() == old(View())
      ensures !panicked ==> View() == Free(old(View()), pa / PGSIZE)
      ensures !panicked && old(refcnt[pa / PGSIZE]) <= 1 ==> freelist == pa && next[pa / PGSIZE] == old(freelist)
    {
      hide Chain;
      if pa % PGSIZE == 0 {
        InRange(pa, end);
      }
      if pa % PGSIZE != 0 || pa < end || pa >= PHYSTOP {
        return true;
      }
      panicked := false;
      var index := pa / PGSIZE;
      refcnt[index] := refcnt[index] - 1;
      if refcnt[index] > 0 {
        return;
      }
      if index !in free {
        ChainPush(next[..], freelist, free, index);
      }
      next[index] := freelist;
      freelist := pa;
      free := [index] + free;
    }

    /** Take the first free page and give it one reference; 0 when there is none. */
    method Alloc() returns (r: nat)
      requires Valid()
      modifies this`freelist, this`free, refcnt
      ensures Valid()
      ensures r == 0 <==> old(free) == []
      ensures r == 0 ==> View() == old(View())
      ensures r != 0 ==> r == old(free)[0] * PGSIZE && View() == Frames.Kalloc(old(View()))
    {
      r := freelist;
      if r != 0 {
        assert r / PGSIZE == free[0] && free[0] in free;
        assert forall pa :: pa in free[1..] ==> pa in free;
        freelist := next[r / PGSIZE];
        refcnt[r / PGSIZE] := 1;
        free := free[1..];
      }
    }

    /** One more reference. The counters of pages that the allocator does not manage, below the end
        of the kernel, count too, and nobody looks at them. */
    method Incref(pa: nat)
      requires Valid() && pa < PHYSTOP
      modifies refcnt
      ensures Valid() && refcnt[pa / PGSIZE] == old(refcnt[pa / PGSIZE]) + 1
      ensures View() == if pa / PGSIZE < First() then old(View()) else Frames.Incref(old(View()), pa / PGSIZE)
    {
      refcnt[pa / PGSIZE] := refcnt[pa / PGSIZE] + 1;
    }
  }

  lemma InRange(pa: nat, end: nat)
    requires pa % PGSIZE == 0
    ensures pa < end <==> pa / PGSIZE < (end + PGSIZE - 1) / PGSIZE
    ensures pa >= PHYSTOP <==> pa / PGSIZE >= PHYPAGES
  {
  }

  lemma ChainPush(next: seq<nat>, head: nat, s: seq<Pa>, pa: Pa)
    requires Chain(next, head, s) && pa !in s && 0 < pa < |next|
    ensures Chain(next[pa := head], pa * PGSIZE, [pa] + s)
  {
    ChainOther(next, head, s, pa, head);
    assert ([pa] + s)[1..] == s;
  }

  /** The allocator invariant when nobody refers to any page. */
  ghost predicate Unowned(k: Kmem) {
    var own: map<nat, Pa> := map[];
    Steady(k, own)
  }

  /** After boot nobody refers to any page, and every page is free. */
  lemma BootConsistent(k: Kmem)
    requires NoRepeat(k.free) && forall pa :: pa in k.refcnt ==> k.refcnt[pa] == -1 && pa in k.free
    requires 0 !in k.refcnt && forall pa :: pa in k.free ==> pa in k.refcnt
    ensures Unowned(k)
  {
    var own: map<nat, Pa>, nowhere: map<nat, Pa> := map[], map[];
    forall pa | pa in k.refcnt
      ensures PageConsistent(k, own, nowhere, pa)
    {
      CountPositive(own, pa);
    }
  }
}
