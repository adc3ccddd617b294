/** vm.c: page tables walked, changed and torn down in physical memory. */
module Vm {
  import opened Frames
  import opened PageTable
  import opened Params
  import opened Teardown
  import Kalloc
  import Lists

  function Up(size: nat): nat {
    (size + PGSIZE - 1) / PGSIZE
  }

  /** The number of the trapframe page, the first page above user memory. */
  const TOP: nat := PAGES - 2

  lemma KeptRefl(s: State, t: Pa)
    ensures Kept(s, s, t) && SameLeaves(s, s)
  {
  }

  lemma KeptTrans(s: State, s1: State, s2: State, t: Pa)
    requires Kept(s, s1, t) && Kept(s1, s2, t)
    ensures Kept(s, s2, t)
  {
  }

  /** One level of walk: the entry on the way to page p is valid exactly when the next table
      exists, and then points to it. */
  lemma StepDown(s: State, t: Pa, level: nat, p: nat)
    requires Inv(s) && 0 < level <= 2 && NodeOf(t, NodeAt(level, p)) in s.own && p < PAGES
    ensures Px(level, p) < PTES && (level == 2 ==> Px(level, p) < PTES / 2)
    ensures Child(NodeAt(level, p), Px(level, p)) == NodeAt(level - 1, p)
    ensures var e, c := Ptes(s.mem, s.own[NodeOf(t, NodeAt(level, p))])[Px(level, p)], NodeOf(t, NodeAt(level - 1, p));
      if c in s.own then e.f.v && e.ppn == s.own[c] else !e.f.v
    ensures NodeOf(t, NodeAt(level - 1, p)) !in s.own ==> NodeOf(t, NodeAt(0, p)) !in s.own
  {
    hide Steady, LeafIn, Ptes, Leaf, Sole;
    var n, x := NodeAt(level, p), Px(level, p);
    assert Linked(s, t, n);
    assert EntryOk(s, t, n, x, Ptes(s.mem, s.own[NodeOf(t, n)])[x]);
    if NodeOf(t, NodeAt(0, p)) in s.own {
      assert NodeIn(s, t, NodeAt(0, p));
    }
  }

  /** Entries lo to lo + n of table t are set to the pages from pa on; all others are as before. */
  ghost predicate Mapped(s: State, s': State, t: Pa, lo: nat, n: nat, pa: Pa, f: Flags) {
    forall u: Pa, q: nat ::
      Leaf(s', u, q) == if u == t && lo <= q < lo + n then Pte(pa + (q - lo), f.(v := true)) else Leaf(s, u, q)
  }

  /** Entries lo to hi of table t are cleared; all others are as before. */
  ghost predicate Unmapped(s: State, s': State, t: Pa, lo: nat, hi: nat) {
    forall u: Pa, q: nat :: Leaf(s', u, q) == if u == t && lo <= q < hi then NONE else Leaf(s, u, q)
  }

  /** The references of s' are those of s but the ones from entries lo to hi of table t, and their
      pages are as they were. */
  ghost predicate Without(s: State, s': State, t: Pa, lo: nat, hi: nat) {
    && (forall a :: a in s'.own <==> a in s.own && !(a.LeafOf? && a.t == t && lo <= a.p < hi))
    && (forall a :: a in s'.own ==> s'.own[a] == s.own[a])
    && (forall a :: a in s'.own && !a.NodeOf? && s.own[a] in s.mem ==>
          s.own[a] in s'.mem && s'.mem[s.own[a]] == s.mem[s.own[a]])
  }

  /** The permissions of a page that uvmalloc maps. */
  function UserFlags(xperm: Flags): Flags {
    Flags(true, true, xperm.w, xperm.x, true, false)
  }

  /** The first n pages are user memory. */
  ghost predicate Covers(s: State, t: Pa, n: nat) {
    forall q :: 0 <= q < n ==> LeafOf(t, q) in s.own
  }

  /** User memory is exactly the first n pages. */
  ghost predicate Sized(s: State, t: Pa, n: nat) {
    && Covers(s, t, n)
    && (forall q :: n <= q < TOP ==> !Leaf(s, t, q).f.v)
  }

  /** The kernel holds one page more, under the name id. */
  ghost predicate Held(s: State, s': State, id: nat) {
    && s.k.free != [] && s'.own == s.own[Other(id) := s.k.free[0]] && Sole(s'.own, Other(id))
    && s.k.free[0] in s'.mem && s'.mem[s.k.free[0]].Data? && |s'.mem[s.k.free[0]].bytes| == PGSIZE
    && (forall a :: a in s.own && s.own[a] in s.mem ==> s.own[a] in s'.mem && s'.mem[s.own[a]] == s.mem[s.own[a]])
  }

  /** Table t maps pages lo to hi, each to a page of its own, with flags f; nothing else about the
      references, the entries or the user pages has changed, but t may have more tables. */
  ghost predicate Extended(s: State, s': State, t: Pa, lo: nat, hi: nat, f: Flags) {
    && (forall u: Pa, q: nat :: u != t || !(lo <= q < hi) ==> Leaf(s', u, q) == Leaf(s, u, q))
    && (forall q :: lo <= q < hi ==> Leaf(s', t, q).f == f && LeafOf(t, q) in s'.own && Sole(s'.own, LeafOf(t, q)))
    && (forall a :: a in s.own ==> a in s'.own && s'.own[a] == s.own[a])
    && (forall a :: a in s'.own && a !in s.own ==> !a.Other? && a.t == t && (a.LeafOf? ==> lo <= a.p < hi))
    && (forall a :: a in s.own && !a.NodeOf? && s.own[a] in s.mem ==>
          s.own[a] in s'.mem && s'.mem[s.own[a]] == s.mem[s.own[a]])
  }

  /** mappages panics at once. */
  predicate Misused(va: nat, size: nat) {
    va % PGSIZE != 0 || size % PGSIZE != 0 || size == 0
  }

  /** Page q of table t cannot be mapped: it is mapped already, or beyond what a table can map. */
  ghost predicate Bad(s: State, t: Pa, q: nat) {
    q >= PAGES || Leaf(s, t, q).f.v
  }

  ghost predicate Unused(s: State, t: Pa, lo: nat, n: nat) {
    forall q :: lo <= q < lo + n ==> !Bad(s, t, q)
  }

  lemma UnusedMore(s: State, t: Pa, lo: nat, n: nat)
    requires Unused(s, t, lo, n) && !Bad(s, t, lo + n)
    ensures Unused(s, t, lo, n + 1)
  {
    hide Leaf;
  }

  lemma UnusedNone(s: State, t: Pa, lo: nat)
    ensures Unused(s, t, lo, 0)
  {
  }

  /** Page q of table t cannot be unmapped. */
  ghost predicate Gone(s: State, t: Pa, q: nat) {
    q >= PAGES || !Leaf(s, t, q).f.v
  }

  class Vm {
    var mem: map<Pa, Page>
    var k: Kmem
    ghost var own: map<Token, Pa>

    ghost function S(): State
      reads this
    {
      State(mem, k, own)
    }

    /** Find the entry for address va, as an index into a low table, and make the tables on the way
        to it if alloc. It changes no entry that a lookup can see. It fails only when a table is
        missing and either alloc is off or memory has run out. */
    method Walk(t: Pa, va: nat, alloc: bool) returns (panic: bool, ok: bool, at: Pa, x: nat)
      requires Inv(S()) && NodeOf(t, Root) in own
      modifies this
      ensures panic <==> va >= MAXVA
      ensures Inv(S()) && SameLeaves(old(S()), S()) && Kept(old(S()), S(), t)
      ensures panic || !alloc ==> S() == old(S())
      ensures |k.free| <= |old(k.free)|
      ensures var c := NodeOf(t, NodeAt(0, va / PGSIZE));
        !panic ==> if ok then c in own && at == own[c] && x == va / PGSIZE % 512
        else c !in old(own) && (alloc ==> k.free == [])
    {
      hide Inv, SameLeaves, Kept;
      KeptRefl(S(), t);
      if va >= MAXVA {
        return true, false, 0, 0;
      }
      var p := va / PGSIZE;
      var level, pagetable := 2, t;
      RootIs(S(), t);
      while level > 0
        invariant 0 <= level <= 2 && Inv(S()) && SameLeaves(old(S()), S()) && Kept(old(S()), S(), t)
        invariant !alloc ==> S() == old(S())
        invariant |k.free| <= |old(k.free)|
        invariant NodeOf(t, NodeAt(level, p)) in own && pagetable == own[NodeOf(t, NodeAt(level, p))]
      {
        StepDown(S(), t, level, p);
        var i := Px(level, p);
        var pte := Ptes(mem, pagetable)[i];
        if pte.f.v {
          pagetable := pte.ppn;
        } else {
          if !alloc || k.free == [] {
            KeptStill(old(S()), S(), t, NodeOf(t, NodeAt(0, p)));
            return false, false, 0, 0;
          }
          ghost var s := S();
          GrownKeeps(s, t, NodeAt(level, p), i);
          FreshPage(s, NodeOf(t, NodeAt(level, p)));
          var pa := k.free[0];
          k := Frames.Kalloc(k);
          mem := mem[pa := Table(Empty())];
          own := own[NodeOf(t, NodeAt(level - 1, p)) := pa];
          mem := mem[pagetable := Table(Ptes(mem, pagetable)[i := Link(pa)])];
          assert S() == Grown(s, t, NodeAt(level, p), i);
          SameTrans(old(S()), s, S());
          KeptTrans(old(S()), s, S(), t);
          pagetable := pa;
        }
        level := level - 1;
      }
      return false, true, pagetable, Px(0, p);
    }

    /** One turn of mappages' loop, after n turns from state s0. */
    method MapOne(t: Pa, a: nat, page: Pa, perm: Flags, ghost s0: State, ghost lo: nat, ghost n: nat, ghost pa: Pa)
      returns (panic: bool, ok: bool)
      requires Inv(S()) && NodeOf(t, Root) in own && (perm.r || perm.w || perm.x)
      requires a == (lo + n) * PGSIZE && page == pa + n
      requires Kept(s0, S(), t) && Mapped(s0, S(), t, lo, n, pa, perm)
      modifies this
      ensures Inv(S()) && NodeOf(t, Root) in own && Kept(s0, S(), t) && |k.free| <= |old(k.free)|
      ensures panic || !ok ==> Mapped(s0, S(), t, lo, n, pa, perm)
      ensures panic ==> Bad(s0, t, lo + n)
      ensures !panic && !ok ==> k.free == []
      ensures !panic && ok ==> !Bad(s0, t, lo + n) && Mapped(s0, S(), t, lo, n + 1, pa, perm)
    {
      hide Inv, SameLeaves, Kept, Mapped, Leaf, LeafSet;
      ghost var s1 := S();
      var outside, found, at, x := Walk(t, a, true);
      ghost var s2, q := S(), lo + n;
      SameTransMapped(s0, s1, s2, t, lo, n, pa, perm);
      if outside {
        return true, false;
      }
      if !found {
        return false, false;
      }
      LeafWalked(s2, t, q);
      MappedHere(s0, s2, t, lo, n, pa, perm);
      if Ptes(mem, at)[x].f.v {
        return true, false;
      }
      ghost var e := Pte(page, perm.(v := true));
      EntryNone(s0, s2, t, lo, n, pa, perm);
      SetLeafKeeps(s2, t, q, e);
      mem := mem[at := Table(Ptes(mem, at)[x := Pte(page, perm.(v := true))])];
      assert S() == SetLeaf(s2, t, q, e);
      MappedStep(s0, s2, S(), t, lo, n, pa, perm);
      return false, true;
    }

    /** Map size bytes at va to the pages from pa on. It panics when va or size is not a multiple of
        the page size or size is 0, or when it comes to a page that is already mapped or beyond
        MAXVA; it fails when memory runs out before that. Either way the first n pages have been
        mapped. */
    method Mappages(t: Pa, va: nat, size: nat, pa: Pa, perm: Flags) returns (panic: bool, ok: bool, ghost n: nat)
      requires Inv(S()) && NodeOf(t, Root) in own && (perm.r || perm.w || perm.x)
      modifies this
      ensures Misused(va, size) ==> panic && n == 0 && S() == old(S())
      ensures Inv(S()) && Kept(old(S()), S(), t) && Mapped(old(S()), S(), t, va / PGSIZE, n, pa, perm)
      ensures Unused(old(S()), t, va / PGSIZE, n)
      ensures !Misused(va, size) ==>
        if panic then n < size / PGSIZE && Bad(old(S()), t, va / PGSIZE + n)
        else if ok then n == size / PGSIZE
        else n < size / PGSIZE && k.free == []
      ensures |k.free| <= |old(k.free)|
    {
      hide Inv, SameLeaves, Kept, Mapped, Leaf, LeafSet, Unused;
      n := 0;
      UnusedNone(S(), t, va / PGSIZE);
      MappedNone(S(), t, va / PGSIZE, pa, perm);
      if va % PGSIZE != 0 || size % PGSIZE != 0 || size == 0 {
        return true, false, 0;
      }
      var a, last, page := va, va + size - PGSIZE, pa;
      while true
        invariant a == va + n * PGSIZE <= last && page == pa + n && NodeOf(t, Root) in own && |k.free| <= |old(k.free)|
        invariant Inv(S()) && Kept(old(S()), S(), t) && Mapped(old(S()), S(), t, va / PGSIZE, n, pa, perm)
        invariant Unused(old(S()), t, va / PGSIZE, n)
        decreases last - a
      {
        var outside, found := MapOne(t, a, page, perm, old(S()), va / PGSIZE, n, pa);
        if outside || !found {
          return outside, false, n;
        }
        UnusedMore(old(S()), t, va / PGSIZE, n);
        n := n + 1;
        if a == last {
          return false, true, n;
        }
        a := a + PGSIZE;
        page := page + 1;
      }
    }


    /** Clear the entries of npages pages from va on, and drop the pages if doFree. It panics exactly
        when va is not a multiple of the page size or one of the pages is not mapped or beyond
        MAXVA. Only entries of counted user pages are freed. */
    method Uvmunmap(t: Pa, va: nat, npages: nat, doFree: bool) returns (panic: bool)
      requires Inv(S()) && NodeOf(t, Root) in own
      requires forall q :: va / PGSIZE <= q < va / PGSIZE + npages && Leaf(S(), t, q).f.v ==>
        (LeafOf(t, q) in own <==> doFree)
      modifies this
      ensures panic <==> va % PGSIZE != 0 || exists q :: va / PGSIZE <= q < va / PGSIZE + npages && Gone(old(S()), t, q)
      ensures !panic ==> Inv(S()) && Unmapped(old(S()), S(), t, va / PGSIZE, va / PGSIZE + npages)
      ensures !panic ==> Without(old(S()), S(), t, va / PGSIZE, va / PGSIZE + npages)
      ensures !panic && !doFree ==> k == old(k)
    {
      hide Inv, SameLeaves, Kept, Unmapped, Without, Leaf, LeafSet;
      if va % PGSIZE != 0 {
        return true;
      }
      var a := va;
      ghost var lo, q := va / PGSIZE, va / PGSIZE;
      UnmappedNone(S(), t, lo);
      while a < va + npages * PGSIZE
        invariant lo <= q <= lo + npages && a == q * PGSIZE && Inv(S())
        invariant Unmapped(old(S()), S(), t, lo, q) && Without(old(S()), S(), t, lo, q)
        invariant forall j :: lo <= j < q ==> !Gone(old(S()), t, j)
        invariant !doFree ==> k == old(k)
      {
        ghost var s := S();
        UnmappedNext(old(S()), s, t, lo, q);
        LeafWalked(s, t, q);
        var outside, found, at, x := Walk(t, a, false);
        if outside || !found {
          assert Gone(old(S()), t, q);
          return true;
        }
        var pte := Ptes(mem, at)[x];
        if !pte.f.v {
          assert Gone(old(S()), t, q);
          return true;
        }
        if doFree {
          Counted(s, LeafOf(t, q));
          LeafParts(s, t, q);
          DroppedKeeps(s, LeafOf(t, q));
          k := Kalloc.Free(k, pte.ppn);
          own := own - {LeafOf(t, q)};
          assert S() == Dropped(s, LeafOf(t, q));
        } else {
          assert own == own - {LeafOf(t, q)};
          SameRefl(s);
        }
        ghost var s1 := S();
        SetLeafKeeps(s1, t, q, NONE);
        mem := mem[at := Table(Ptes(mem, at)[x := NONE])];
        assert S() == SetLeaf(s1, t, q, NONE);
        UnmappedStep(old(S()), s, s1, S(), t, lo, q);
        a := a + PGSIZE;
        q := q + 1;
      }
      return false;
    }


    /** kalloc, into a kernel variable that the ghost name id stands for. */
    method Alloc(ghost id: nat) returns (ok: bool, pa: Pa)
      requires Inv(S()) && Other(id) !in own
      modifies this
      ensures ok <==> old(k.free) != []
      ensures ok ==> |k.free| == |old(k.free)| - 1 && k == Frames.Kalloc(old(k))
      ensures !ok ==> S() == old(S())
      ensures ok ==> Inv(S()) && SameLeaves(old(S()), S()) && Held(old(S()), S(), id) && pa == own[Other(id)]
    {
      hide Inv, SameLeaves, Sole;
      if k.free == [] {
        return false, 0;
      }
      assert |seq(PGSIZE, _ => 0)| == PGSIZE;
      var junk: seq<Byte> :| |junk| == PGSIZE;
      TakenKeeps(S(), id, junk);
      ok, pa := true, k.free[0];
      mem, k, own := mem[pa := Data(junk)], Frames.Kalloc(k), own[Other(id) := pa];
      assert S() == Taken(old(S()), id, junk);
    }

    /** Bring a process from oldsz to newsz bytes; returns the new size. */
    method Uvmdealloc(t: Pa, oldsz: nat, newsz: nat) returns (r: nat)
      requires Inv(S()) && NodeOf(t, Root) in own && Up(oldsz) <= PAGES
      requires forall q :: Up(newsz) <= q < Up(oldsz) ==> LeafOf(t, q) in own
      modifies this
      ensures r == if newsz >= oldsz then oldsz else newsz
      ensures Inv(S()) && Unmapped(old(S()), S(), t, Up(newsz), Up(oldsz))
      ensures Without(old(S()), S(), t, Up(newsz), Up(oldsz))
    {
      hide Inv, Unmapped, Without, Leaf;
      UnmappedEmpty(S(), t, Up(newsz), Up(oldsz));
      if newsz >= oldsz {
        UpMonotone(oldsz, newsz);
        return oldsz;
      }
      if Up(newsz) * PGSIZE < Up(oldsz) * PGSIZE {
        var npages := (Up(oldsz) * PGSIZE - Up(newsz) * PGSIZE) / PGSIZE;
        forall q | Up(newsz) <= q < Up(oldsz)
          ensures Leaf(S(), t, q).f.v
        {
          LeafParts(S(), t, q);
        }
        var panic := Uvmunmap(t, Up(newsz) * PGSIZE, npages, true);
        assert !panic;
      }
      return newsz;
    }

    /** Grow a process from oldsz to newsz bytes with fresh pages; returns newsz. If memory runs out
        it returns 0, and every entry and every reference is as it was before. There is less
        physical memory than room below the trapframe, so growth never reaches it. */
    method Uvmalloc(t: Pa, oldsz: nat, newsz: nat, xperm: Flags, ghost id: nat) returns (r: nat, ghost ok: bool)
      requires Inv(S()) && NodeOf(t, Root) in own && Up(oldsz) + |k.free| <= TOP && Other(id) !in own
      requires Sized(S(), t, Up(oldsz))
      modifies this
      ensures Inv(S())
      ensures newsz < oldsz ==> ok && r == oldsz && S() == old(S())
      ensures newsz >= oldsz && ok ==>
        r == newsz && Sized(S(), t, Up(newsz)) && Extended(old(S()), S(), t, Up(oldsz), Up(newsz), UserFlags(xperm))
      ensures newsz >= oldsz && ok ==> Up(newsz) + |k.free| <= TOP
      ensures !ok ==> r == 0 && SameLeaves(old(S()), S()) && Kept(old(S()), S(), t)
    {
      hide Inv, SameLeaves, Kept, Mapped, Leaf, Unmapped, Without, Extended, Sole;
      ok := true;
      var f := UserFlags(xperm);
      if newsz < oldsz {
        return oldsz, true;
      }
      var a := Up(oldsz) * PGSIZE;
      ghost var s0, lo, q := S(), Up(oldsz), Up(oldsz);
      ExtendedNone(s0, t, lo, f);
      UpMonotone(oldsz, newsz);
      while a < newsz
        invariant lo <= q <= Up(newsz) && a == q * PGSIZE && Inv(S()) && NodeOf(t, Root) in own && Other(id) !in own
        invariant q + |k.free| <= TOP
        invariant Extended(s0, S(), t, lo, q, f)
      {
        ghost var s1 := S();
        UpExact(q);
        UpExact(lo);
        var got, pa := Alloc(id);
        if !got {
          ExtendedOwns(s0, S(), t, lo, q, f);
          var _ := Uvmdealloc(t, a, Up(oldsz) * PGSIZE);
          Restored(s0, s1, S(), t, lo, q, f);
          return 0, false;
        }
        ghost var s2 := S();
        NextFree(s0, s1, s2, t, lo, q, f);
        var panic, mapped;
        ghost var n;
        panic, mapped, n := Mappages(t, a, PGSIZE, pa, f);
        assert !panic;
        ghost var s3 := S();
        HeldKept(s1, s2, s3, t, id);
        if !mapped {
          Counted(s3, Other(id));
          DroppedKeeps(s3, Other(id));
          k := Kalloc.Free(k, pa);
          own := own - {Other(id)};
          assert S() == Dropped(s3, Other(id));
          GivenBack(s0, s1, s2, s3, S(), t, lo, q, pa, f, id);
          ghost var s4 := S();
          ExtendedOwns(s0, S(), t, lo, q, f);
          var _ := Uvmdealloc(t, a, Up(oldsz) * PGSIZE);
          Restored(s0, s4, S(), t, lo, q, f);
          return 0, false;
        }
        MappedOne(s2, s3, t, q, pa, f);
        AdoptedKeeps(s3, id, t, q);
        own := (own - {Other(id)})[LeafOf(t, q) := own[Other(id)]];
        assert S() == Adopted(s3, id, t, q);
        ExtendedStep(s0, s1, s2, s3, S(), t, lo, q, pa, f, id);
        a := a + PGSIZE;
        q := q + 1;
      }
      SizedExtended(s0, S(), t, lo, q, f);
      return newsz, true;
    }

    /** Free the table pages at and under node n of table t. It panics exactly when it meets a leaf;
        otherwise each of those pages loses the one reference it has, and nothing else changes. */
    method Freewalk(pagetable: Pa, ghost t: Pa, ghost n: Node, ghost dead: set<Token>) returns (ok: bool)
      requires InvBut(S(), dead) && NodeOf(t, n) in own && pagetable == own[NodeOf(t, n)]
      requires n.Root? || NodeOf(t, Parent(n)) in dead
      requires forall m :: Below(n, m) ==> NodeOf(t, m) !in dead
      modifies this
      ensures ok <==> NoLeafBelow(old(S()), t, n)
      ensures ok ==> InvBut(S(), dead) && Pruned(old(S()), S(), t, n)
      decreases if n.Root? then 2 else if n.Mid? then 1 else 0
    {
      hide InvBut, PrunedTo, Pruned, NoLeafBefore, NoLeafBelow, Before, Bare;
      var i := 0;
      ghost var s0, self := S(), NodeOf(t, n);
      assert Below(n, n);
      PrunedNone(s0, t, n);
      DeadMore(s0, dead, self);
      NodePages(s0, dead);
      while i < PTES
        invariant 0 <= i <= PTES && InvBut(S(), dead + {self}) && PrunedTo(s0, S(), t, n, i)
        invariant self in own && own[self] == pagetable && NoLeafBefore(s0, t, n, i)
        invariant forall j :: i <= j < PTES ==> Ptes(mem, pagetable)[j] == Ptes(s0.mem, pagetable)[j]
        invariant n.Low? ==> S() == s0 && forall j :: 0 <= j < i ==> !Ptes(mem, pagetable)[j].f.v
      {
        var pte := Ptes(mem, pagetable)[i];
        EntryKind(s0, t, n, i, dead);
        if pte.f.v && !(pte.f.r || pte.f.w || pte.f.x) {
          ghost var s1 := S();
          NoLeafChild(s0, s1, t, n, i);
          ChildThere(s0, s1, t, n, i);
          ok := Freewalk(pte.ppn, t, Child(n, i), dead + {self});
          if !ok {
            return false;
          }
          ghost var s2 := S();
          PrunedSelf(s1, s2, t, n, i);
          ClearedKeeps(s2, t, n, i, dead + {self});
          mem := mem[pagetable := Table(Ptes(mem, pagetable)[i := NONE])];
          assert S() == ClearedAt(s2, t, n, i);
          PrunedChild(s0, s1, s2, S(), t, n, i);
        } else if pte.f.v {
          LeafFound(s0, t, n, i);
          return false;
        } else {
          PrunedSkip(s0, S(), t, n, i);
        }
        i := i + 1;
      }
      ghost var s1 := S();
      ChildrenGone(s0, s1, t, n, dead);
      CountedBut(s1, dead + {self}, self);
      if n.Low? {
        BareIs(s0, t, n);
      }
      NodeDropped(s1, t, n, dead);
      k := Kalloc.Free(k, pagetable);
      own := own - {self};
      assert S() == Dropped(s1, self);
      PrunedAll(s0, s1, S(), t, n, dead);
      return true;
    }

    /** Free a table whose user memory is sz bytes. It panics exactly when the table maps a page
        beyond that; otherwise every reference from the table and its entries is dropped, and no
        other. */
    method Uvmfree(t: Pa, sz: nat) returns (ok: bool)
      requires Inv(S()) && NodeOf(t, Root) in own && Up(sz) <= TOP && Covers(S(), t, Up(sz))
      modifies this
      ensures ok <==> forall p: nat :: Up(sz) <= p ==> !Leaf(old(S()), t, p).f.v
      ensures ok ==> Inv(S()) && Freed(old(S()), S(), t)
    {
      hide Inv, InvBut, Leaf, Unmapped, Without, Pruned, NoLeafBelow;
      ghost var s0, n := S(), Up(sz);
      UnmappedNone(s0, t, 0);
      if sz > 0 {
        forall q | 0 <= q < n
          ensures Leaf(S(), t, q).f.v
        {
          LeafParts(S(), t, q);
        }
        var panic := Uvmunmap(t, 0, Up(sz), true);
        assert !panic;
      }
      ghost var s1 := S();
      UnmappedLeft(s0, s1, t, n);
      NoLeafIff(s1, t);
      RootIs(s1, t);
      assert InvBut(s1, {}) by {
        InvIs(s1);
      }
      ok := Freewalk(t, t, Root, {});
      if ok {
        InvIs(S());
        FreedAll(s0, s1, S(), t, n);
      }
    }

    /** proc_freepagetable, for a table with the trampoline and the trapframe mapped at the top. It
        panics exactly when the table maps a user page beyond sz. */
    method ProcFreepagetable(t: Pa, sz: nat) returns (ok: bool)
      requires Inv(S()) && NodeOf(t, Root) in own && Up(sz) <= TOP && Covers(S(), t, Up(sz))
      requires forall p :: TOP <= p < PAGES ==> Leaf(S(), t, p).f.v && LeafOf(t, p) !in own
      modifies this
      ensures ok <==> forall p :: Up(sz) <= p < TOP ==> !Leaf(old(S()), t, p).f.v
      ensures ok ==> Inv(S()) && Freed(old(S()), S(), t)
    {
      hide Inv, Leaf, Unmapped, Without, Freed;
      ghost var s0 := S();
      var panic := Uvmunmap(t, (PAGES - 1) * PGSIZE, 1, false);
      assert !panic;
      ghost var s1 := S();
      UnmappedAbove(s0, s1, t, PAGES - 1, sz);
      panic := Uvmunmap(t, TOP * PGSIZE, 1, false);
      assert !panic;
      UnmappedAbove(s1, S(), t, TOP, sz);
      UserLeft(s0, s1, S(), t, Up(sz));
      ghost var s2 := S();
      ok := Uvmfree(t, sz);
      if ok {
        FreedTwice(s0, s1, s2, S(), t);
      }
    }

    /** A fault on a store to va in table cur. It succeeds exactly for a user page that is marked
        copy-on-write, if the page has one reference or a page is free; then the table has a
        writable page of its own there, and nobody sees any byte change. Otherwise nothing
        happens. The names id and id + 1 stand for the variables mem and pa. */
    method HandleCowFault(cur: Pa, va: nat, ghost id: nat) returns (r: int)
      requires Inv(S()) && NodeOf(cur, Root) in own && CowCounted(S(), cur) && Other(id) !in own
      requires Other(id + 1) !in own
      modifies this
      ensures r == 0 || r == -1
      ensures r == 0 <==> va < MAXVA && Repairable(old(S()), cur, va / PGSIZE)
      ensures r == -1 ==> S() == old(S())
      ensures r == 0 ==> Inv(S()) && Repaired(old(S()), S(), cur, va / PGSIZE)
      ensures r == 0 ==> k == Split(old(k), Leaf(old(S()), cur, va / PGSIZE).ppn)
    {
      hide Inv, Leaf, Sole, SameLeaves, Repaired, LeafSet, CowCounted;
      ghost var s0, p, a := S(), va / PGSIZE, LeafOf(cur, va / PGSIZE);
      if va >= MAXVA {
        return -1;
      }
      var _, found, at, x := Walk(cur, va / PGSIZE * PGSIZE, false);
      LeafWalked(s0, cur, p);
      if !found {
        return -1;
      }
      var pte := Ptes(mem, at)[x];
      if !pte.f.v || !pte.f.u || !pte.f.cow {
        return -1;
      }
      CowIs(s0, cur, p);
      CounterIsOne(s0, a);
      var pa := pte.ppn;
      if k.refcnt[pa] == 1 {
        var e := pte.(f := pte.f.(w := true, cow := false));
        SetLeafKeeps(s0, cur, p, e);
        mem := mem[at := Table(Ptes(mem, at)[x := e])];
        assert S() == SetLeaf(s0, cur, p, e);
        RepairedHere(s0, S(), cur, p, e);
        return 0;
      }
      var ok, page := Alloc(id);
      if !ok {
        return -1;
      }
      CopyAndSwap(cur, at, x, pte, page, id, s0, p);
      SplitCopies(s0, a);
      return 0;
    }

    /** The rest of handle_cow_fault: copy the page, map the copy, drop the reference to the old. */
    method CopyAndSwap(cur: Pa, at: Pa, x: nat, pte: Pte, page: Pa, ghost id: nat, ghost s0: State, ghost p: nat)
      requires Inv(s0) && LeafOf(cur, p) in s0.own && Other(id) !in s0.own && Other(id + 1) !in s0.own
      requires Inv(S()) && SameLeaves(s0, S()) && Held(s0, S(), id) && page == own[Other(id)]
      requires pte == Leaf(s0, cur, p) && x == p % 512 && NodeOf(cur, NodeAt(0, p)) in own
      requires at == own[NodeOf(cur, NodeAt(0, p))]
      modifies this
      ensures Inv(S()) && Repaired(s0, S(), cur, p)
      ensures pte.ppn in old(k.refcnt) && k == Kalloc.Free(old(k), pte.ppn)
    {
      hide Inv, Leaf, Sole, SameLeaves, Repaired, LeafSet, Held, Ptes, Kalloc.Free, NodeAt;
      ghost var s1, a := S(), LeafOf(cur, p);
      HeldIs(s0, s1, id);
      var pa := pte.ppn;
      HeldFacts(s0, s1, cur, p, id);
      StoredKeeps(s1, Other(id), mem[pa].bytes);
      mem := mem[page := Data(mem[pa].bytes)];
      ghost var s2 := S();
      assert s2 == Stored(s1, Other(id), s1.mem[pa].bytes);
      ReleasedKeeps(s2, cur, p, id + 1);
      own := (own - {a})[Other(id + 1) := own[a]];
      ghost var s3 := S();
      assert s3 == Released(s2, cur, p, id + 1);
      var e := Pte(page, pte.f.(w := true, cow := false));
      SetLeafKeeps(s3, cur, p, e);
      mem := mem[at := Table(Ptes(mem, at)[x := e])];
      ghost var s4 := S();
      assert s4 == SetLeaf(s3, cur, p, e);
      SwapFacts(s3, s4, cur, p, e, id);
      AdoptedKeeps(s4, id, cur, p);
      own := (own - {Other(id)})[a := own[Other(id)]];
      ghost var s5 := S();
      assert s5 == Adopted(s4, id, cur, p);
      Counted(s5, Other(id + 1));
      DroppedKeeps(s5, Other(id + 1));
      k := Kalloc.Free(k, pa);
      own := own - {Other(id + 1)};
      assert S() == Dropped(s5, Other(id + 1));
      CopiedPages(s0, s1, s2, s3, s4, cur, p, e, id);
      CopiedLeaves(s0, s1, s2, s3, s4, s5, S(), cur, p, e);
      assert own == s0.own[a := page];
      SoleDropped(s5.own, a, Other(id + 1));
      RepairedCopy(s0, S(), cur, p, e);
    }

    /** Share the sz bytes of table t with table u, which has no user memory. On success u has the
        same entries as t, writable ones now copy-on-write in both, and counts as a further
        reference to each page. When it runs out of memory at page i, the first i pages stay
        shared, and t's own entry for page i is already write-protected. */
    method Uvmcopy(t: Pa, u: Pa, sz: nat) returns (r: int, ghost i: nat)
      requires Inv(S()) && t != u && NodeOf(t, Root) in own && NodeOf(u, Root) in own
      requires Up(sz) <= TOP && Sized(S(), t, Up(sz)) && Sized(S(), u, 0)
      modifies this
      ensures Inv(S()) && (r == 0 || r == -1)
      ensures r == 0 ==> i == Up(sz) && Copied(old(S()), S(), t, u, i, i)
      ensures r == -1 ==> i < Up(sz) && Copied(old(S()), S(), t, u, i + 1, i) && k.free == []
    {
      hide Inv, Leaf, SameLeaves, LeafSet, Copied, Mapped, Kept, Sized, Sole, Ptes, NodeAt;
      ghost var s0 := S();
      i := 0;
      var a := 0;
      CopiedNone(s0, t, u);
      while a < sz
        invariant a == i * PGSIZE && i <= Up(sz) && Inv(S()) && Copied(s0, S(), t, u, i, i)
        invariant NodeOf(t, Root) in own && NodeOf(u, Root) in own
      {
        ghost var s1 := S();
        CopiedNext(s0, s1, t, u, i, Up(sz));
        LeafWalked(s1, t, i);
        var _, _, at, x := Walk(t, a, false);
        var pte := Ptes(mem, at)[x];
        var pa, flags := pte.ppn, pte.f;
        if flags.w {
          flags := flags.(w := false, cow := true);
          SetLeafKeeps(s1, t, i, Pte(pa, flags));
          mem := mem[at := Table(Ptes(mem, at)[x := Pte(pa, flags)])];
          assert S() == SetLeaf(s1, t, i, Pte(pa, flags));
        }
        ghost var s2 := S();
        CopiedMarked(s0, s1, s2, t, u, i, Pte(pa, flags));
        InvalidNone(s2, u, i);
        var panic, ok;
        ghost var n;
        panic, ok, n := Mappages(u, a, PGSIZE, pa, flags);
        assert !panic;
        ghost var s3 := S();
        if !ok {
          CopiedFailed(s0, s2, s3, t, u, i, pa, flags);
          return -1, i;
        }
        CopiedMapped(s0, s2, s3, t, u, i, pa, flags);
        Counted(s3, LeafOf(t, i));
        SharedKeeps(s3, t, i, u, i);
        k, own := Incref(k, pa), own[LeafOf(u, i) := pa];
        assert S() == Shared(s3, t, i, u, i);
        CopiedShared(s0, s2, s3, S(), t, u, i, pa, flags);
        a := a + PGSIZE;
        i := i + 1;
      }
      return 0, i;
    }

    /** The part of copyout that finds a page to write to, taking a copy-on-write fault by itself.
        The fault goes to the current process's table, cur. */
    method WritablePage(t: Pa, cur: Pa, va0: nat, ghost id: nat) returns (ok: bool, pa: Pa)
      requires Inv(S()) && Copyable(S(), t, cur) && Other(id) !in own && Other(id + 1) !in own && va0 % PGSIZE == 0
      modifies this
      ensures Inv(S()) && Copyable(S(), t, cur)
      ensures S() == old(S()) || (Cow(old(S()), t, va0 / PGSIZE) && Repaired(old(S()), S(), t, va0 / PGSIZE))
      ensures ok <==> va0 < MAXVA && Stores(S(), t, va0 / PGSIZE)
      ensures ok <==> Writable(old(S()), t, va0 / PGSIZE)
      ensures ok ==> Prepared(old(S()), S(), t, va0 / PGSIZE)
      ensures ok ==>
        LeafOf(t, va0 / PGSIZE) in own && Sole(own, LeafOf(t, va0 / PGSIZE)) && pa == own[LeafOf(t, va0 / PGSIZE)]
    {
      hide Inv, Leaf, Sole, Repaired, Ptes, NodeAt, CowCounted, UserCounted;
      ghost var p := va0 / PGSIZE;
      if va0 >= MAXVA {
        return false, 0;
      }
      var outside, found, at, x := Walk(t, va0, false);
      LeafWalked(S(), t, p);
      if !found {
        return false, 0;
      }
      var pte := Ptes(mem, at)[x];
      if pte.f.v && pte.f.cow {
        CowNotWritable(S(), t, cur, p);
        var r := HandleCowFault(cur, va0, id);
        if r < 0 {
          return false, 0;
        }
        CopyableRepaired(old(S()), S(), t, p);
        RepairedStores(old(S()), S(), t, p);
        LeafHasTable(S(), t, p);
        outside, found, at, x := Walk(t, va0, false);
        LeafWalked(S(), t, p);
        pte := Ptes(mem, at)[x];
      }
      if !pte.f.v || !pte.f.u || !pte.f.w {
        return false, 0;
      }
      if pte.ppn == 0 {
        return false, 0;
      }
      WritableOwned(S(), t, p);
      return true, pte.ppn;
    }

    /** Copy src to address dstva of table t, which must be the current one or have no copy-on-write
        entry. The first n bytes of src are then in the user memory of t, and no other byte of any
        user memory has changed; n is all of them, or the next address cannot be stored to. Whether
        and where it fails follows from the entries, the counters and the number of free pages at
        the start. */
    method Copyout(t: Pa, cur: Pa, dstva: nat, src: seq<Byte>, ghost id: nat) returns (r: int, n: nat)
      requires Inv(S()) && Copyable(S(), t, cur) && Other(id) !in own && Other(id + 1) !in own
      modifies this
      ensures Inv(S()) && n <= |src| && Wrote(old(S()), S(), t, dstva, src[..n])
      ensures r == if n == |src| then 0 else -1
      ensures r == -1 ==> dstva + n >= MAXVA || !Stores(S(), t, (dstva + n) / PGSIZE)
      ensures Copyable(S(), t, cur) && Undisturbed(old(S()), S(), t)
      ensures r == 0 <==> |src| == 0 || Reaches(old(S()), t, dstva / PGSIZE, Up(dstva + |src|))
      ensures r == -1 ==>
        var p := (dstva + n) / PGSIZE;
        Reaches(old(S()), t, dstva / PGSIZE, p) && !Reaches(old(S()), t, dstva / PGSIZE, p + 1)
    {
      hide Inv, Leaf, Sole, Repaired, Wrote, Copyable, Stores, Headway, Reaches, Prepared, Writable, Undisturbed;
      n := 0;
      ghost var s0, first := S(), dstva / PGSIZE;
      WroteNone(S(), t, dstva);
      HeadwayNone(s0, t, first);
      UndisturbedNone(s0, t);
      while n < |src|
        invariant 0 <= n <= |src| && Inv(S()) && Copyable(S(), t, cur) && Other(id) !in own && Other(id + 1) !in own
        invariant Wrote(s0, S(), t, dstva, src[..n]) && Undisturbed(s0, S(), t)
        invariant n == |src| == 0 || Headway(s0, S(), t, first, if n < |src| then (dstva + n) / PGSIZE else Up(dstva + n))
      {
        ghost var s1, p := S(), (dstva + n) / PGSIZE;
        var va0 := (dstva + n) / PGSIZE * PGSIZE;
        var ok, pa := WritablePage(t, cur, va0, id);
        ghost var s2, a := S(), LeafOf(t, p);
        WroteRepaired(s0, s1, s2, t, dstva, src[..n], p, id);
        UndisturbedRepaired(s0, s1, s2, t, p);
        HeadwayReaches(s0, s1, t, first, p);
        if ok {
          HeadwayOn(s0, s1, s2, t, cur, first, p);
        } else {
          HeadwayStuck(s0, s1, t, cur, first, p);
          ReachesLess(s0, t, first, p + 1, Up(dstva + |src|));
          return -1, n;
        }
        var o := dstva + n - va0;
        var m := if |src| - n < PGSIZE - o then |src| - n else PGSIZE - o;
        LeafParts(s2, t, p);
        var page := mem[pa].bytes;
        var page' := page[..o] + src[n..n + m] + page[o + m..];
        StoredKeeps(s2, a, page');
        mem := mem[pa := Data(page')];
        assert S() == Stored(s2, a, page');
        CopyableStored(s2, S(), t, cur);
        HeadwayStored(s0, s2, S(), t, first, p + 1);
        UndisturbedStored(s0, s2, S(), t, p);
        WroteChunk(s0, s2, S(), t, dstva, src, n, m, page');
        NextPage(dstva + n, m, dstva + |src|);
        n := n + m;
      }
      assert src[..n] == src;
      if |src| > 0 {
        HeadwayReaches(s0, S(), t, first, Up(dstva + n));
      }
      return 0, n;
    }

    /** Copy len bytes from address srcva of table t. It fails exactly when one of the addresses is
        not a user's, and otherwise returns what user memory holds. */
    method Copyin(t: Pa, srcva: nat, len: nat) returns (ok: bool, dst: seq<Byte>)
      requires Inv(S()) && NodeOf(t, Root) in own && UserCounted(S(), t)
      modifies this
      ensures S() == old(S())
      ensures ok <==> forall va :: srcva <= va < srcva + len ==> Loads(S(), t, va / PGSIZE)
      ensures ok ==> |dst| == len && forall va :: srcva <= va < srcva + len ==> dst[va - srcva] == ByteOf(S(), t, va)
    {
      hide Inv, Leaf, Sole, Ptes, NodeAt, UserCounted, Loads, ByteOf;
      dst := [];
      while |dst| < len
        invariant |dst| <= len && S() == old(S())
        invariant forall va :: srcva <= va < srcva + |dst| ==>
          Loads(S(), t, va / PGSIZE) && dst[va - srcva] == ByteOf(S(), t, va)
        decreases len - |dst|
      {
        ghost var at := srcva + |dst|;
        var va0 := (srcva + |dst|) / PGSIZE * PGSIZE;
        var pa := Walkaddr(t, va0);
        if pa == 0 {
          return false, [];
        }
        var o := srcva + |dst| - va0;
        var m := if len - |dst| < PGSIZE - o then len - |dst| else PGSIZE - o;
        LoadsFrom(S(), t, va0 / PGSIZE, va0, o, m);
        dst := dst + mem[pa].bytes[o..o + m];
      }
      return true, dst;
    }

    /** Copy a string of fewer than max bytes from address srcva of table t. It succeeds exactly when
        user memory has a NUL there with only user addresses before it, and returns the bytes
        before the first one. */
    method Copyinstr(t: Pa, srcva: nat, max: nat) returns (ok: bool, dst: seq<Byte>)
      requires Inv(S()) && NodeOf(t, Root) in own && UserCounted(S(), t)
      modifies this
      ensures S() == old(S())
      ensures ok ==> |dst| < max && Nonzero(S(), t, srcva, dst)
      ensures ok ==> Loads(S(), t, (srcva + |dst|) / PGSIZE) && ByteOf(S(), t, srcva + |dst|) == 0
      ensures !ok ==> Nonzero(S(), t, srcva, dst) && (|dst| == max || !Loads(S(), t, (srcva + |dst|) / PGSIZE))
    {
      hide Inv, Leaf, Sole, Ptes, NodeAt, UserCounted, Loads, ByteOf, Nonzero;
      dst := [];
      NonzeroNone(S(), t, srcva);
      while |dst| < max
        invariant |dst| <= max && S() == old(S()) && Nonzero(S(), t, srcva, dst)
        decreases max - |dst|
      {
        var start := srcva + |dst|;
        var va0 := start / PGSIZE * PGSIZE;
        var pa := Walkaddr(t, va0);
        if pa == 0 {
          return false, dst;
        }
        var o := start - va0;
        var n := if max - |dst| < PGSIZE - o then max - |dst| else PGSIZE - o;
        LoadsFrom(S(), t, va0 / PGSIZE, va0, o, n);
        var i := 0;
        while i < n
          invariant 0 <= i <= n && srcva + |dst| == start + i && Nonzero(S(), t, srcva, dst) && S() == old(S())
        {
          var c := mem[pa].bytes[o + i];
          assert (start + i) / PGSIZE == va0 / PGSIZE && ByteOf(S(), t, start + i) == c;
          if c == 0 {
            return true, dst;
          }
          NonzeroMore(S(), t, srcva, dst, c);
          dst := dst + [c];
          i := i + 1;
        }
      }
      return false, dst;
    }

    /** The page that user address va is mapped to, or 0. */
    method Walkaddr(t: Pa, va: nat) returns (pa: Pa)
      requires Inv(S()) && NodeOf(t, Root) in own
      modifies this
      ensures S() == old(S())
      ensures pa != 0 <==> Loads(S(), t, va / PGSIZE)
      ensures pa != 0 ==> pa == Leaf(S(), t, va / PGSIZE).ppn
    {
      hide Inv, Leaf, Ptes, NodeAt;
      if va >= MAXVA {
        return 0;
      }
      var _, found, at, x := Walk(t, va, false);
      LeafWalked(S(), t, va / PGSIZE);
      if !found {
        return 0;
      }
      var pte := Ptes(mem, at)[x];
      if !pte.f.v || !pte.f.u {
        return 0;
      }
      return pte.ppn;
    }

    /** Take the page at va from the user. It panics exactly when there is no entry for it. */
    method Uvmclear(t: Pa, va: nat) returns (panic: bool)
      requires Inv(S()) && NodeOf(t, Root) in own
      modifies this
      ensures panic <==> va >= MAXVA || NodeOf(t, NodeAt(0, va / PGSIZE)) !in old(own)
      ensures panic ==> S() == old(S())
      ensures Inv(S())
      ensures !panic ==> LeafSet(old(S()), S(), t, va / PGSIZE, Unprivileged(Leaf(old(S()), t, va / PGSIZE)))
    {
      hide Inv, Leaf, LeafSet, Ptes, NodeAt, Sole;
      var outside, found, at, x := Walk(t, va, false);
      if outside || !found {
        return true;
      }
      ghost var s0, p := S(), va / PGSIZE;
      LeafWalked(s0, t, p);
      var e := Unprivileged(Ptes(mem, at)[x]);
      UnprivilegedFits(s0, t, p);
      SetLeafKeeps(s0, t, p, e);
      mem := mem[at := Table(Ptes(mem, at)[x := e])];
      assert S() == SetLeaf(s0, t, p, e);
      return false;
    }

    /** proc_pagetable: a table with the trampoline and the trapframe, and no user memory. On
        failure every reference is as it was. */
    method ProcPagetable(trampoline: Pa, trapframe: Pa) returns (ok: bool, t: Pa)
      requires Inv(S())
      modifies this
      ensures Inv(S())
      ensures ok ==> NodeOf(t, Root) in own && Kept(old(S()), S(), t) && Sized(S(), t, 0)
      ensures ok ==> old(k.free) != [] && t == old(k.free[0]) && |k.free| < |old(k.free)|
      ensures ok ==> KernelMapped(old(S()), S(), t, trampoline, trapframe)
      ensures !ok ==> SameRefs(old(S()), S())
    {
      hide Inv, Leaf, Kept, SameLeaves, Mapped, Unmapped, Without, Freed, SameRefs;
      ghost var s0 := S();
      if k.free == [] {
        SameRefsRefl(s0);
        return false, 0;
      }
      CreatedKeeps(s0);
      t := k.free[0];
      k, mem, own := Frames.Kalloc(k), mem[t := Table(Empty())], own[NodeOf(t, Root) := t];
      ghost var s1 := S();
      assert s1 == Created(s0);
      NoneYet(s0, s1);
      ghost var n;
      var panic;
      panic, ok, n := Mappages(t, (PAGES - 1) * PGSIZE, PGSIZE, trampoline, TRAMPOLINE_FLAGS);
      assert !panic;
      ghost var s2 := S();
      KeptRoot(s1, s2, t);
      KeptTrans(s0, s1, s2, t);
      if !ok {
        MappedOnly(s1, s2, t, PAGES - 1, 0, trampoline, TRAMPOLINE_FLAGS);
        NoUserPages(s0, s2, t);
        var freed := Uvmfree(t, 0);
        FreedKept(s0, s2, S(), t);
        return false, 0;
      }
      MappedOnly(s1, s2, t, PAGES - 1, 1, trampoline, TRAMPOLINE_FLAGS);
      panic, ok, n := Mappages(t, TOP * PGSIZE, PGSIZE, trapframe, TRAPFRAME_FLAGS);
      assert !panic;
      ghost var s3 := S();
      KeptRoot(s2, s3, t);
      KeptTrans(s0, s2, s3, t);
      NoUserPages(s0, s3, t);
      if !ok {
        MappedOnly(s2, s3, t, TOP, 0, trapframe, TRAPFRAME_FLAGS);
        panic := Uvmunmap(t, (PAGES - 1) * PGSIZE, 1, false);
        assert !panic;
        UnmappedAbove(s3, S(), t, PAGES - 1, 0);
        ghost var s4 := S();
        var freed := Uvmfree(t, 0);
        FreedKeptAfter(s0, s3, s4, S(), t);
        return false, 0;
      }
      MappedOnly(s2, s3, t, TOP, 1, trapframe, TRAPFRAME_FLAGS);
      MappedTwo(s0, s1, s2, s3, t, trampoline, trapframe);
    }

    /** The memory side of fork: a table for the child (allocproc), uvmcopy, and freeproc of the
        child, whose size is still 0, when uvmcopy fails after i pages. Then fork panics exactly
        when the child already had a page; otherwise every reference is as it was. `mid` is the
        state in which the child has its table, and `half` the one in which uvmcopy has failed. */
    method Fork(t: Pa, sz: nat, trampoline: Pa, trapframe: Pa)
      returns (r: int, panicked: bool, u: Pa, ghost i: nat, ghost mid: State, ghost half: State)
      requires Inv(S()) && NodeOf(t, Root) in own && Up(sz) <= TOP && Sized(S(), t, Up(sz))
      modifies this
      ensures r == 0 || r == -1
      ensures r == 0 ==> !panicked && i == Up(sz) && Inv(S()) && Copied(mid, S(), t, u, i, i)
      ensures r == 0 ==> KernelMapped(old(S()), mid, u, trampoline, trapframe) && Kept(old(S()), mid, u)
      ensures r == -1 ==> (panicked <==> i > 0) && (i > 0 ==> i < Up(sz) && Copied(mid, half, t, u, i + 1, i))
      ensures r == -1 && !panicked ==> Inv(S()) && SameRefs(old(S()), S())
    {
      hide Inv, Leaf, Kept, Sized, Covers, Copied, KernelMapped, SameRefs, Freed;
      ghost var s0 := S();
      var ok;
      ok, u := ProcPagetable(trampoline, trapframe);
      mid, half := S(), S();
      if !ok {
        return -1, false, u, 0, mid, half;
      }
      ForkStart(s0, mid, t, u, Up(sz), trampoline, trapframe);
      r, i := Uvmcopy(t, u, sz);
      panicked := false;
      if r < 0 {
        half := S();
        ForkStopped(s0, mid, half, t, u, i, trampoline, trapframe);
        ok := ProcFreepagetable(u, 0);
        panicked := !ok;
        if ok {
          ForkUndone(s0, mid, half, S(), t, u, i);
        }
      }
    }
  }

  const TRAMPOLINE_FLAGS: Flags := Flags(true, true, false, true, false, false)
  const TRAPFRAME_FLAGS: Flags := Flags(true, true, true, false, false, false)

  /** Table t maps the trampoline and the trapframe, with no access for the user; every other entry
      is as it was. */
  ghost predicate KernelMapped(s: State, s': State, t: Pa, trampoline: Pa, trapframe: Pa) {
    && Leaf(s', t, PAGES - 1) == Pte(trampoline, TRAMPOLINE_FLAGS)
    && Leaf(s', t, TOP) == Pte(trapframe, TRAPFRAME_FLAGS)
    && (forall u: Pa, p: nat :: u != t || p < TOP || p >= PAGES ==> Leaf(s', u, p) == Leaf(s, u, p))
  }

  /** The same references, to pages that are the same unless they hold tables. */
  ghost predicate SameRefs(s: State, s': State) {
    && s'.own == s.own
    && (forall a :: a in s.own && !a.NodeOf? && s.own[a] in s.mem ==>
          s.own[a] in s'.mem && s'.mem[s.own[a]] == s.mem[s.own[a]])
  }

  lemma SameRefsRefl(s: State)
    ensures SameRefs(s, s)
  {
  }

  /** A new table maps nothing. */
  lemma NoneYet(s: State, s1: State)
    requires Inv(s) && s.k.free != [] && s1 == Created(s) && SameLeaves(s, s1)
    ensures forall p: nat :: Leaf(s1, s.k.free[0], p) == NONE
  {
    hide Inv;
    UnusedName(s);
  }

  lemma KeptRoot(s: State, s': State, t: Pa)
    requires Kept(s, s', t) && NodeOf(t, Root) in s.own
    ensures NodeOf(t, Root) in s'.own
  {
  }

  lemma MappedOnly(s: State, s': State, t: Pa, p: nat, n: nat, pa: Pa, f: Flags)
    requires Mapped(s, s', t, p, n, pa, f) && n <= 1
    ensures forall q: nat :: Leaf(s', t, q) == if q == p && n == 1 then Pte(pa, f.(v := true)) else Leaf(s, t, q)
  {
    hide Leaf;
  }

  lemma NoUserPages(s: State, s': State, t: Pa)
    requires Inv(s) && s.k.free != [] && t == s.k.free[0] && Kept(s, s', t)
    ensures forall p :: LeafOf(t, p) !in s'.own
  {
    hide Inv;
    UnusedName(s);
  }

  lemma FreedKept(s: State, s1: State, s2: State, t: Pa)
    requires Inv(s) && s.k.free != [] && t == s.k.free[0] && Kept(s, s1, t) && Freed(s1, s2, t)
    ensures SameRefs(s, s2)
  {
    hide Inv;
    UnusedName(s);
    forall a | a in s.own
      ensures a in s2.own && s2.own[a] == s.own[a]
    {
      if a.NodeOf? {
        assert NodeOf(a.t, a.n) in s.own;
      } else if a.LeafOf? {
        assert LeafOf(a.t, a.p) in s.own;
      }
    }
    assert s2.own == s.own;
  }

  lemma FreedKeptAfter(s: State, s1: State, s2: State, s3: State, t: Pa)
    requires Inv(s) && s.k.free != [] && t == s.k.free[0] && Kept(s, s1, t) && Without(s1, s2, t, PAGES - 1, PAGES)
    requires Unmapped(s1, s2, t, PAGES - 1, PAGES) && Freed(s2, s3, t)
    ensures SameRefs(s, s3)
  {
    hide Inv, Leaf;
    assert Freed(s1, s3, t);
    FreedKept(s, s1, s3, t);
  }

  lemma MappedTwo(s: State, s1: State, s2: State, s3: State, t: Pa, trampoline: Pa, trapframe: Pa)
    requires SameLeaves(s, s1) && Mapped(s1, s2, t, PAGES - 1, 1, trampoline, TRAMPOLINE_FLAGS)
    requires Mapped(s2, s3, t, TOP, 1, trapframe, TRAPFRAME_FLAGS)
    ensures KernelMapped(s, s3, t, trampoline, trapframe)
  {
    hide Leaf;
  }

  // ---------------------------------------------------------------- user memory

  /** The byte at address va of the user memory of table t. */
  ghost function ByteOf(s: State, t: Pa, va: nat): Byte {
    var a := LeafOf(t, va / PGSIZE);
    if a in s.own && s.own[a] in s.mem && s.mem[s.own[a]].Data? && |s.mem[s.own[a]].bytes| == PGSIZE
    then s.mem[s.own[a]].bytes[va % PGSIZE] else 0
  }

  /** Every entry of table t that the user may use counts as a reference. */
  ghost predicate UserCounted(s: State, t: Pa) {
    forall p: nat :: Leaf(s, t, p).f.v && Leaf(s, t, p).f.u ==> LeafOf(t, p) in s.own
  }

  /** Copyout may be used on table t while cur is the table of the current process. */
  ghost predicate Copyable(s: State, t: Pa, cur: Pa) {
    && NodeOf(t, Root) in s.own && NodeOf(cur, Root) in s.own && CowCounted(s, cur) && UserCounted(s, t)
    && (t != cur ==> forall p: nat :: !(Leaf(s, t, p).f.v && Leaf(s, t, p).f.cow))
  }

  function Unprivileged(e: Pte): Pte {
    e.(f := e.f.(u := false))
  }

  lemma UnprivilegedFits(s: State, t: Pa, p: nat)
    requires Inv(s) && NodeOf(t, NodeAt(0, p)) in s.own
    ensures var e := Unprivileged(Leaf(s, t, p));
      && LeafWord(e)
      && (LeafOf(t, p) in s.own ==>
            e.f.v && e.f.r && e.ppn == s.own[LeafOf(t, p)] && (e.f.w ==> !e.f.cow && Sole(s.own, LeafOf(t, p))))
  {
    hide Steady, Sole;
    if LeafOf(t, p) in s.own {
      LeafParts(s, t, p);
    }
    assert Linked(s, t, NodeAt(0, p));
    assert EntryOk(s, t, NodeAt(0, p), p % 512, Ptes(s.mem, s.own[NodeOf(t, NodeAt(0, p))])[p % 512]);
  }

  ghost predicate Stores(s: State, t: Pa, p: nat) {
    var e := Leaf(s, t, p);
    e.f.v && e.f.u && e.f.w && e.ppn != 0
  }

  ghost predicate Loads(s: State, t: Pa, p: nat) {
    var e := Leaf(s, t, p);
    p < PAGES && e.f.v && e.f.u && e.ppn != 0
  }

  /** data is what user memory has from address lo on, and none of it is NUL. */
  ghost predicate Nonzero(s: State, t: Pa, lo: nat, data: seq<Byte>) {
    forall va :: lo <= va < lo + |data| ==> Loads(s, t, va / PGSIZE) && ByteOf(s, t, va) == data[va - lo] != 0
  }

  /** The user memory of t has data at address lo; no other byte of any user memory has changed. */
  ghost predicate Wrote(s: State, s': State, t: Pa, lo: nat, data: seq<Byte>) {
    && (forall u, p :: LeafOf(u, p) in s'.own <==> LeafOf(u, p) in s.own)
    && (forall u: Pa, va: nat :: LeafOf(u, va / PGSIZE) in s.own ==>
          ByteOf(s', u, va) == if u == t && lo <= va < lo + |data| then data[va - lo] else ByteOf(s, u, va))
  }

  /** The pages of the other references are as they were, and so is all but the bytes if table t has
      no copy-on-write entry. */
  ghost predicate Undisturbed(s: State, s': State, t: Pa) {
    && s'.own.Keys == s.own.Keys
    && (forall a :: a in s.own && !a.NodeOf? && (a.LeafOf? ==> a.t != t) && s.own[a] in s.mem ==>
          s'.own[a] == s.own[a] && s.own[a] in s'.mem && s'.mem[s.own[a]] == s.mem[s.own[a]])
    && ((forall p: nat :: !Cow(s, t, p)) ==> s'.own == s.own && s'.k == s.k && SameLeaves(s, s'))
  }

  lemma UndisturbedNone(s: State, t: Pa)
    ensures Undisturbed(s, s, t)
  {
    hide Leaf, Cow;
  }

  lemma UndisturbedRepaired(s: State, s1: State, s2: State, t: Pa, p: nat)
    requires Undisturbed(s, s1, t) && (s2 == s1 || (Cow(s1, t, p) && Repaired(s1, s2, t, p)))
    ensures Undisturbed(s, s2, t)
  {
    hide Leaf, Sole;
    if s2 != s1 {
      assert SameLeaves(s, s1) ==> Leaf(s, t, p) == Leaf(s1, t, p) && Cow(s, t, p);
      forall a | a in s.own && !a.NodeOf? && (a.LeafOf? ==> a.t != t) && s.own[a] in s.mem
        ensures s2.own[a] == s.own[a] && s.own[a] in s2.mem && s2.mem[s.own[a]] == s.mem[s.own[a]]
      {
        assert a in s1.own.Keys;
      }
    }
  }

  lemma UndisturbedStored(s: State, s1: State, s2: State, t: Pa, p: nat)
    requires Undisturbed(s, s1, t) && LeafOf(t, p) in s1.own && s2.own == s1.own && s2.k == s1.k && SameLeaves(s1, s2)
    requires forall b :: b in s1.own && b != LeafOf(t, p) && s1.own[b] in s1.mem ==>
      s1.own[b] in s2.mem && s2.mem[s1.own[b]] == s1.mem[s1.own[b]]
    ensures Undisturbed(s, s2, t)
  {
    hide Leaf, Cow;
    forall a | a in s.own && !a.NodeOf? && (a.LeafOf? ==> a.t != t) && s.own[a] in s.mem
      ensures s2.own[a] == s.own[a] && s.own[a] in s2.mem && s2.mem[s.own[a]] == s.mem[s.own[a]]
    {
      assert a in s1.own.Keys;
    }
  }

  lemma NonzeroNone(s: State, t: Pa, lo: nat)
    ensures Nonzero(s, t, lo, [])
  {
  }

  lemma NonzeroMore(s: State, t: Pa, lo: nat, data: seq<Byte>, c: Byte)
    requires Nonzero(s, t, lo, data) && Loads(s, t, (lo + |data|) / PGSIZE) && ByteOf(s, t, lo + |data|) == c != 0
    ensures Nonzero(s, t, lo, data + [c])
  {
    hide Loads, ByteOf;
    forall va | lo <= va < lo + |data| + 1
      ensures Loads(s, t, va / PGSIZE) && ByteOf(s, t, va) == (data + [c])[va - lo] != 0
    {
      assert va < lo + |data| ==> ByteOf(s, t, va) == data[va - lo];
    }
  }

  lemma CowNotWritable(s: State, t: Pa, cur: Pa, p: nat)
    requires Inv(s) && Copyable(s, t, cur) && Leaf(s, t, p).f.v && Leaf(s, t, p).f.cow
    ensures t == cur && !Stores(s, t, p)
  {
    hide Leaf, Inv;
    CowIs(s, t, p);
  }

  lemma CopyableRepaired(s: State, s': State, t: Pa, p: nat)
    requires Copyable(s, t, t) && Repaired(s, s', t, p)
    ensures Copyable(s', t, t) && (Leaf(s, t, p).f.v ==> Leaf(s', t, p).f.v)
  {
    hide Leaf, Sole;
    assert NodeOf(t, Root) in s'.own.Keys;
    forall q: nat | Leaf(s', t, q).f.v && (Leaf(s', t, q).f.u || Leaf(s', t, q).f.cow)
      ensures LeafOf(t, q) in s'.own
    {
      if q != p {
        assert Leaf(s', t, q) == Leaf(s, t, q);
        assert LeafOf(t, q) in s.own.Keys;
      }
    }
  }

  lemma CopyableStored(s: State, s': State, t: Pa, cur: Pa)
    requires Copyable(s, t, cur) && SameLeaves(s, s') && s'.own == s.own
    ensures Copyable(s', t, cur)
  {
    hide Leaf;
  }

  lemma WritableOwned(s: State, t: Pa, p: nat)
    requires Inv(s) && UserCounted(s, t) && Stores(s, t, p)
    ensures LeafOf(t, p) in s.own && s.own[LeafOf(t, p)] == Leaf(s, t, p).ppn && Sole(s.own, LeafOf(t, p))
  {
    hide Leaf, Inv, Sole;
    LeafParts(s, t, p);
  }

  // ---------------------------------------------------------------- how far copyout gets

  /** An entry that copyout can store through, if need be after a copy-on-write fault. */
  ghost predicate Usable(s: State, t: Pa, p: nat) {
    var e := Leaf(s, t, p);
    p < PAGES && e.f.v && e.f.u && e.ppn != 0 && (e.f.w || e.f.cow)
  }

  ghost predicate Cow(s: State, t: Pa, p: nat) {
    Leaf(s, t, p).f.v && Leaf(s, t, p).f.cow
  }

  /** A fault on entry p, if it needs one, finds a page to copy to, if it needs one. */
  ghost predicate Writable(s: State, t: Pa, p: nat) {
    Usable(s, t, p) && (Cow(s, t, p) ==> Repairable(s, t, p))
  }

  /** The copy-on-write entries from lo to hi that refer to page pa. */
  ghost function Sharing(s: State, t: Pa, lo: nat, hi: nat, pa: Pa): set<nat> {
    set q | lo <= q < hi && Cow(s, t, q) && Leaf(s, t, q).ppn == pa
  }

  /** The copy-on-write entry p needs a new page, if the ones from lo on have got theirs: its page has
      a reference besides this one and those. */
  ghost predicate NeedsCopy(s: State, t: Pa, lo: nat, p: nat) {
    var pa := Leaf(s, t, p).ppn;
    Cow(s, t, p) && pa in s.k.refcnt && s.k.refcnt[pa] - |Sharing(s, t, lo, p, pa)| > 1
  }

  ghost function Copies(s: State, t: Pa, lo: nat, hi: nat): set<nat> {
    set p | lo <= p < hi && NeedsCopy(s, t, lo, p)
  }

  /** Copyout from page lo on gets to page hi: every entry is usable, and there are enough free pages. */
  ghost predicate Reaches(s: State, t: Pa, lo: nat, hi: nat) {
    (forall p :: lo <= p < hi ==> Usable(s, t, p)) && |Copies(s, t, lo, hi)| <= |s.k.free|
  }

  /** What WritablePage does to a page that it returns. */
  ghost predicate Prepared(s: State, s': State, t: Pa, p: nat) {
    if Cow(s, t, p) then Repairable(s, t, p) && Repaired(s, s', t, p) && s'.k == Split(s.k, Leaf(s, t, p).ppn)
    else s' == s
  }

  /** State s after copyout has dealt with pages lo to hi of s0. */
  ghost predicate Headway(s0: State, s: State, t: Pa, lo: nat, hi: nat) {
    && lo <= hi
    && (forall q :: lo <= q < hi ==> Usable(s0, t, q))
    && s.k.refcnt.Keys == s0.k.refcnt.Keys
    && |s.k.free| == |s0.k.free| - |Copies(s0, t, lo, hi)|
    && (forall q :: q >= hi ==> Leaf(s, t, q) == Leaf(s0, t, q))
    && (forall q :: q >= hi && Cow(s0, t, q) ==> Fewer(s0, s, t, lo, hi, Leaf(s0, t, q).ppn))
  }

  /** As many references to page pa are gone as were shared by entries lo to hi. */
  ghost predicate Fewer(s0: State, s: State, t: Pa, lo: nat, hi: nat, pa: Pa) {
    pa in s.k.refcnt && pa in s0.k.refcnt ==> s.k.refcnt[pa] == s0.k.refcnt[pa] - |Sharing(s0, t, lo, hi, pa)|
  }

  lemma HeadwayNone(s: State, t: Pa, lo: nat)
    ensures Headway(s, s, t, lo, lo)
  {
    hide Leaf;
    assert Copies(s, t, lo, lo) == {};
    forall pa
      ensures Sharing(s, t, lo, lo, pa) == {}
    {
    }
  }

  lemma HeadwayReaches(s0: State, s: State, t: Pa, lo: nat, hi: nat)
    requires Headway(s0, s, t, lo, hi)
    ensures Reaches(s0, t, lo, hi)
  {
    hide Leaf;
  }

  lemma HeadwayStored(s0: State, s: State, s': State, t: Pa, lo: nat, hi: nat)
    requires Headway(s0, s, t, lo, hi) && s'.k == s.k && SameLeaves(s, s')
    ensures Headway(s0, s', t, lo, hi)
  {
    hide Leaf;
  }

  /** The next page is ready: its entry was not copy-on-write, or it is not any more. */
  lemma HeadwayOn(s0: State, s: State, s': State, t: Pa, cur: Pa, lo: nat, p: nat)
    requires Inv(s) && Copyable(s, t, cur) && Headway(s0, s, t, lo, p) && Writable(s, t, p) && Prepared(s, s', t, p)
    ensures Headway(s0, s', t, lo, p + 1)
  {
    hide Inv, Leaf, Sole, Repaired;
    assert Leaf(s, t, p) == Leaf(s0, t, p);
    if Cow(s, t, p) {
      CowIs(s, cur, p);
      HeadwayFault(s0, s, s', t, lo, p);
    } else {
      SharingSame(s0, t, lo, p);
      assert forall q :: q >= p + 1 ==> Leaf(s, t, q) == Leaf(s0, t, q);
      assert forall pa :: Fewer(s0, s, t, lo, p, pa) ==> Fewer(s0, s, t, lo, p + 1, pa);
    }
  }

  lemma SharingSame(s: State, t: Pa, lo: nat, p: nat)
    requires lo <= p && !Cow(s, t, p)
    ensures Copies(s, t, lo, p + 1) == Copies(s, t, lo, p)
    ensures forall pa :: Sharing(s, t, lo, p + 1, pa) == Sharing(s, t, lo, p, pa)
  {
    hide Leaf;
  }

  lemma SharingMore(s: State, t: Pa, lo: nat, p: nat, pa: Pa)
    requires lo <= p && Cow(s, t, p)
    ensures |Sharing(s, t, lo, p + 1, pa)| == |Sharing(s, t, lo, p, pa)| + if Leaf(s, t, p).ppn == pa then 1 else 0
  {
    hide Leaf;
    assert Sharing(s, t, lo, p + 1, pa) == Sharing(s, t, lo, p, pa) + if Leaf(s, t, p).ppn == pa then {p} else {};
  }

  lemma CopiesMore(s: State, t: Pa, lo: nat, p: nat)
    requires lo <= p
    ensures |Copies(s, t, lo, p + 1)| == |Copies(s, t, lo, p)| + if NeedsCopy(s, t, lo, p) then 1 else 0
  {
    hide NeedsCopy;
    assert Copies(s, t, lo, p + 1) == Copies(s, t, lo, p) + if NeedsCopy(s, t, lo, p) then {p} else {};
  }

  /** The counter of page p's page says whether a copy is needed. */
  lemma CountsTell(s0: State, s: State, t: Pa, lo: nat, p: nat)
    requires Inv(s) && CowCounted(s, t) && Headway(s0, s, t, lo, p) && Cow(s, t, p)
    ensures var pa := Leaf(s0, t, p).ppn;
      && Leaf(s0, t, p) == Leaf(s, t, p) && LeafOf(t, p) in s.own && s.own[LeafOf(t, p)] == pa
      && pa in s.k.refcnt && pa in s0.k.refcnt && s.k.refcnt[pa] >= 1
      && (s.k.refcnt[pa] != 1 <==> NeedsCopy(s0, t, lo, p))
  {
    hide Inv, Leaf, Sharing, Copies, Usable;
    var pa := Leaf(s, t, p).ppn;
    CowIs(s, t, p);
    CountedOnce(s, LeafOf(t, p));
    assert Leaf(s0, t, p) == Leaf(s, t, p);
    assert pa in s.k.refcnt.Keys && pa in s0.k.refcnt;
    assert Fewer(s0, s, t, lo, p, pa);
  }

  lemma CountedOnce(s: State, a: Token)
    requires Inv(s) && a in s.own && s.own[a] in s.k.refcnt
    ensures s.k.refcnt[s.own[a]] >= 1
  {
    hide NodeIn, Linked, LeafIn;
    var nowhere: map<Token, Pa> := map[];
    CountPositive(s.own, s.own[a]);
    assert PageConsistent(s.k, s.own, nowhere, s.own[a]);
  }

  lemma HeadwayFault(s0: State, s: State, s': State, t: Pa, lo: nat, p: nat)
    requires Inv(s) && CowCounted(s, t) && Headway(s0, s, t, lo, p) && Usable(s, t, p) && Cow(s, t, p)
    requires Prepared(s, s', t, p)
    ensures Headway(s0, s', t, lo, p + 1)
  {
    hide Inv, Leaf, Sole, Sharing, Copies, NeedsCopy;
    CountsTell(s0, s, t, lo, p);
    CopiesMore(s0, t, lo, p);
    if s.k.free != [] {
      FreeListed(s);
    }
    assert s'.k.refcnt.Keys == s.k.refcnt.Keys;
    forall q | q >= p + 1
      ensures Leaf(s', t, q) == Leaf(s0, t, q)
    {
    }
    forall q | q >= p + 1 && Cow(s0, t, q)
      ensures Fewer(s0, s', t, lo, p + 1, Leaf(s0, t, q).ppn)
    {
      FewerStill(s0, s, s', t, lo, p, q);
    }
  }

  lemma FewerStill(s0: State, s: State, s': State, t: Pa, lo: nat, p: nat, q: nat)
    requires Inv(s) && CowCounted(s, t) && Headway(s0, s, t, lo, p) && Cow(s, t, p) && p < q && Cow(s0, t, q)
    requires Prepared(s, s', t, p)
    ensures Fewer(s0, s', t, lo, p + 1, Leaf(s0, t, q).ppn)
  {
    hide Inv, Leaf, Sharing, Copies, NeedsCopy, Repaired;
    var pa, pa' := Leaf(s0, t, p).ppn, Leaf(s0, t, q).ppn;
    assert Leaf(s, t, q) == Leaf(s0, t, q);
    assert Fewer(s0, s, t, lo, p, pa');
    CountsTell(s0, s, t, lo, p);
    CowIs(s, t, q);
    CounterIsOne(s, LeafOf(t, p));
    SharingMore(s0, t, lo, p, pa');
    if s.k.refcnt[pa] != 1 {
      FreshPage(s, LeafOf(t, q));
      FreshPage(s, LeafOf(t, p));
    }
  }

  lemma FreeListed(s: State)
    requires Inv(s) && s.k.free != []
    ensures s.k.free[0] in s.k.refcnt
  {
  }

  /** Copyout stops at a page that is not usable, or that needs a free page when there is none. */
  lemma HeadwayStuck(s0: State, s: State, t: Pa, cur: Pa, lo: nat, p: nat)
    requires Inv(s) && Copyable(s, t, cur) && Headway(s0, s, t, lo, p) && !Writable(s, t, p)
    ensures !Reaches(s0, t, lo, p + 1)
  {
    hide Inv, Leaf, Sharing, Copies, NeedsCopy;
    assert Leaf(s, t, p) == Leaf(s0, t, p);
    if Usable(s0, t, p) {
      CowNotWritable(s, t, cur, p);
      CountsTell(s0, s, t, lo, p);
      CopiesMore(s0, t, lo, p);
    }
  }

  /** A page that handle_cow_fault has repaired can be stored to. */
  lemma RepairedStores(s: State, s': State, t: Pa, p: nat)
    requires Inv(s) && Inv(s') && CowCounted(s, t) && Repairable(s, t, p) && Repaired(s, s', t, p)
    ensures Stores(s', t, p) && Leaf(s, t, p).ppn != 0
  {
    hide Inv, Leaf, Sole;
    CowIs(s, t, p);
    assert LeafOf(t, p) in s'.own.Keys;
    LeafParts(s', t, p);
    NotZero(s, LeafOf(t, p));
    NotZero(s', LeafOf(t, p));
  }

  lemma NotZero(s: State, a: Token)
    requires Inv(s) && a in s.own
    ensures s.own[a] != 0
  {
    hide NodeIn, Linked, LeafIn;
  }

  lemma NextPage(va: nat, m: nat, end: nat)
    requires m > 0 && va + m <= end && va % PGSIZE + m <= PGSIZE
    requires va + m == end || va % PGSIZE + m == PGSIZE
    ensures (if va + m < end then (va + m) / PGSIZE else Up(va + m)) == va / PGSIZE + 1
    ensures va / PGSIZE + 1 <= Up(end)
  {
  }

  lemma ReachesLess(s: State, t: Pa, lo: nat, p: nat, hi: nat)
    requires p <= hi
    ensures Reaches(s, t, lo, hi) ==> Reaches(s, t, lo, p)
  {
    hide Leaf;
    assert Copies(s, t, lo, p) <= Copies(s, t, lo, hi);
    Lists.SubsetSize(Copies(s, t, lo, p), Copies(s, t, lo, hi));
  }

  lemma WroteNone(s: State, t: Pa, lo: nat)
    ensures Wrote(s, s, t, lo, [])
  {
    hide ByteOf;
  }

  lemma WroteRepaired(s: State, s1: State, s2: State, t: Pa, lo: nat, data: seq<Byte>, p: nat, id: nat)
    requires Inv(s1) && Wrote(s, s1, t, lo, data) && (s2 == s1 || Repaired(s1, s2, t, p))
    ensures Wrote(s, s2, t, lo, data)
    ensures Other(id) in s2.own.Keys <==> Other(id) in s1.own.Keys
    ensures Other(id + 1) in s2.own.Keys <==> Other(id + 1) in s1.own.Keys
  {
    hide Inv, Leaf, Sole;
    if s2 != s1 {
      forall u, q
        ensures LeafOf(u, q) in s2.own <==> LeafOf(u, q) in s1.own
      {
        assert LeafOf(u, q) in s2.own.Keys <==> LeafOf(u, q) in s1.own.Keys;
      }
      forall u: Pa, va: nat | LeafOf(u, va / PGSIZE) in s1.own
        ensures ByteOf(s2, u, va) == ByteOf(s1, u, va)
      {
        LeafParts(s1, u, va / PGSIZE);
      }
      hide ByteOf, Repaired;
    }
  }

  /** One page's worth of copyout. */
  lemma WroteChunk(s: State, s1: State, s2: State, t: Pa, lo: nat, src: seq<Byte>, n: nat, m: nat, page: seq<Byte>)
    requires n + m <= |src| && Wrote(s, s1, t, lo, src[..n]) && Inv(s1) && (lo + n) % PGSIZE + m <= PGSIZE == |page|
    requires n + m == |src| || (lo + n) % PGSIZE + m == PGSIZE
    requires var a := LeafOf(t, (lo + n) / PGSIZE);
      Sole(s1.own, a) && s2 == Stored(s1, a, page)
      && s1.own[a] in s1.mem && s1.mem[s1.own[a]].Data? && |s1.mem[s1.own[a]].bytes| == PGSIZE
    requires var was := s1.mem[s1.own[LeafOf(t, (lo + n) / PGSIZE)]].bytes;
      var o := (lo + n) % PGSIZE;
      page == was[..o] + src[n..n + m] + was[o + m..]
    ensures Wrote(s, s2, t, lo, src[..n + m])
  {
    hide Inv;
    var p, o := (lo + n) / PGSIZE, (lo + n) % PGSIZE;
    var a := LeafOf(t, p);
    forall u: Pa, va: nat | LeafOf(u, va / PGSIZE) in s.own
      ensures ByteOf(s2, u, va) == if u == t && lo <= va < lo + (n + m) then src[va - lo] else ByteOf(s, u, va)
    {
      assert ByteOf(s1, u, va) == if u == t && lo <= va < lo + n then src[..n][va - lo] else ByteOf(s, u, va);
      if u == t && va / PGSIZE == p {
        SamePageOffset(lo + n, va);
        assert ByteOf(s2, u, va) == page[va % PGSIZE];
      } else {
        assert s1.own[LeafOf(u, va / PGSIZE)] != s1.own[a];
        assert ByteOf(s2, u, va) == ByteOf(s1, u, va);
        OtherPage(lo + n, m, va);
      }
    }
  }

  lemma SamePageOffset(x: nat, y: nat)
    requires x / PGSIZE == y / PGSIZE
    ensures y - x == y % PGSIZE - x % PGSIZE
  {
  }

  lemma OtherPage(x: nat, m: nat, y: nat)
    requires x % PGSIZE + m <= PGSIZE
    ensures x <= y < x + m ==> y / PGSIZE == x / PGSIZE
  {
  }

  lemma LoadsFrom(s: State, t: Pa, p: nat, va0: nat, o: nat, m: nat)
    requires Inv(s) && UserCounted(s, t) && Loads(s, t, p) && va0 == p * PGSIZE && o + m <= PGSIZE
    ensures var pa := Leaf(s, t, p).ppn;
      && pa in s.mem && s.mem[pa].Data? && |s.mem[pa].bytes| == PGSIZE
      && forall va :: va0 + o <= va < va0 + o + m ==> va / PGSIZE == p && ByteOf(s, t, va) == s.mem[pa].bytes[va - va0]
  {
    hide Inv, Leaf;
    LeafParts(s, t, p);
  }

  // ---------------------------------------------------------------- fork

  function CowPte(e: Pte): Pte {
    if e.f.w then e.(f := e.f.(w := false, cow := true)) else e
  }

  /** The first m entries of table t are write-protected, and the first i of them shared with
      table u; nothing else has changed, but u may have more tables. */
  ghost predicate Copied(s: State, s': State, t: Pa, u: Pa, m: nat, i: nat) {
    && (forall v: Pa, q: nat ::
          Leaf(s', v, q) == if (v == t && q < m) || (v == u && q < i) then CowPte(Leaf(s, t, q)) else Leaf(s, v, q))
    && (forall a :: a in s.own ==> a in s'.own && s'.own[a] == s.own[a])
    && (forall a :: a in s'.own && a !in s.own ==> !a.Other? && a.t == u && (a.LeafOf? ==> a.p < i))
    && (forall q :: 0 <= q < i ==>
          LeafOf(t, q) in s.own && LeafOf(u, q) in s'.own && s'.own[LeafOf(u, q)] == s.own[LeafOf(t, q)])
    && SamePages(s, s')
  }

  ghost predicate SamePages(s: State, s': State) {
    forall a :: a in s.own && !a.NodeOf? && s.own[a] in s.mem ==>
      s.own[a] in s'.mem && s'.mem[s.own[a]] == s.mem[s.own[a]]
  }

  /** Right after a fork the child reads what the parent read before it, and everyone else,
      the parent included, what they read before. */
  lemma ForkShows(s: State, s': State, t: Pa, u: Pa, m: nat, n: nat)
    requires Inv(s) && Copied(s, s', t, u, m, n)
    ensures forall va: nat :: va / PGSIZE < n ==> ByteOf(s', u, va) == ByteOf(s, t, va)
    ensures forall v: Pa, va: nat :: LeafOf(v, va / PGSIZE) in s.own ==> ByteOf(s', v, va) == ByteOf(s, v, va)
  {
    hide Inv, Leaf;
    forall v: Pa, va: nat | LeafOf(v, va / PGSIZE) in s.own
      ensures ByteOf(s', v, va) == ByteOf(s, v, va)
    {
      LeafParts(s, v, va / PGSIZE);
    }
    forall va: nat | va / PGSIZE < n
      ensures ByteOf(s', u, va) == ByteOf(s, t, va)
    {
      assert LeafOf(t, va / PGSIZE) in s.own;
      assert ByteOf(s', t, va) == ByteOf(s, t, va);
      assert s'.own[LeafOf(u, va / PGSIZE)] == s'.own[LeafOf(t, va / PGSIZE)];
    }
  }

  lemma CopiedNone(s: State, t: Pa, u: Pa)
    ensures Copied(s, s, t, u, 0, 0)
  {
    hide Leaf;
  }

  /** Page i of t is mapped and not yet marked, and page i of u is free. */
  lemma CopiedNext(s: State, s1: State, t: Pa, u: Pa, i: nat, n: nat)
    requires Copied(s, s1, t, u, i, i) && t != u && i < n <= TOP && Inv(s1) && Sized(s, t, n) && Sized(s, u, 0)
    ensures var e := Leaf(s, t, i);
      && LeafOf(t, i) in s.own && LeafOf(t, i) in s1.own && s1.own[LeafOf(t, i)] == s.own[LeafOf(t, i)] == e.ppn
      && Leaf(s1, t, i) == e && e.f.v && e.f.r && i < PAGES
      && !Leaf(s1, u, i).f.v
  {
    hide Leaf, Inv;
    LeafParts(s1, t, i);
  }

  lemma CopiedMarked(s: State, s1: State, s2: State, t: Pa, u: Pa, i: nat, e: Pte)
    requires Copied(s, s1, t, u, i, i) && t != u && e == CowPte(Leaf(s, t, i))
    requires (s2 == s1 && Leaf(s1, t, i) == e) || LeafSet(s1, s2, t, i, e)
    ensures Copied(s, s2, t, u, i + 1, i)
    ensures Leaf(s2, u, i) == Leaf(s1, u, i) && Leaf(s2, t, i) == e && s2.own == s1.own
  {
    hide Leaf;
  }

  lemma CopiedFailed(s: State, s2: State, s3: State, t: Pa, u: Pa, i: nat, pa: Pa, f: Flags)
    requires Copied(s, s2, t, u, i + 1, i) && Kept(s2, s3, u) && Mapped(s2, s3, u, i, 0, pa, f)
    ensures Copied(s, s3, t, u, i + 1, i)
  {
    hide Leaf;
  }

  lemma CopiedMapped(s: State, s2: State, s3: State, t: Pa, u: Pa, i: nat, pa: Pa, f: Flags)
    requires Copied(s, s2, t, u, i + 1, i) && Kept(s2, s3, u) && Mapped(s2, s3, u, i, 1, pa, f) && t != u
    requires LeafOf(t, i) in s2.own && LeafOf(u, i) !in s2.own
    ensures Leaf(s3, t, i) == Leaf(s2, t, i) && Leaf(s3, u, i) == Pte(pa, f.(v := true))
    ensures LeafOf(t, i) in s3.own && s3.own[LeafOf(t, i)] == s2.own[LeafOf(t, i)] && LeafOf(u, i) !in s3.own
    ensures NodeOf(t, Root) in s2.own ==> NodeOf(t, Root) in s3.own
    ensures NodeOf(u, Root) in s2.own ==> NodeOf(u, Root) in s3.own
  {
    hide Leaf;
  }

  lemma CopiedShared(s: State, s2: State, s3: State, s4: State, t: Pa, u: Pa, i: nat, pa: Pa, f: Flags)
    requires Copied(s, s2, t, u, i + 1, i) && Kept(s2, s3, u) && Mapped(s2, s3, u, i, 1, pa, f) && t != u
    requires LeafOf(t, i) in s.own && LeafOf(u, i) !in s2.own && Pte(pa, f.(v := true)) == CowPte(Leaf(s, t, i))
    requires s.own[LeafOf(t, i)] == pa && s4.mem == s3.mem && s4.own == s3.own[LeafOf(u, i) := pa] && SameLeaves(s3, s4)
    ensures Copied(s, s4, t, u, i + 1, i + 1)
  {
    hide Leaf;
    CopiedSharedRefs(s, s2, s3, s4, t, u, i, pa);
    hide Kept, SamePages;
    forall v: Pa, q: nat
      ensures Leaf(s4, v, q) ==
        if (v == t && q < i + 1) || (v == u && q < i + 1) then CowPte(Leaf(s, t, q)) else Leaf(s, v, q)
    {
      assert Leaf(s4, v, q) == Leaf(s3, v, q);
    }
  }

  lemma CopiedSharedRefs(s: State, s2: State, s3: State, s4: State, t: Pa, u: Pa, i: nat, pa: Pa)
    requires Copied(s, s2, t, u, i + 1, i) && Kept(s2, s3, u) && t != u && LeafOf(t, i) in s.own
    requires LeafOf(u, i) !in s2.own
    requires s.own[LeafOf(t, i)] == pa && s4.mem == s3.mem && s4.own == s3.own[LeafOf(u, i) := pa]
    ensures forall a :: a in s.own ==> a in s4.own && s4.own[a] == s.own[a]
    ensures forall a :: a in s4.own && a !in s.own ==> !a.Other? && a.t == u && (a.LeafOf? ==> a.p < i + 1)
    ensures forall q :: 0 <= q < i + 1 ==>
      LeafOf(t, q) in s.own && LeafOf(u, q) in s4.own && s4.own[LeafOf(u, q)] == s.own[LeafOf(t, q)]
    ensures SamePages(s, s4)
  {
    hide Leaf;
  }

  // ---------------------------------------------------------------- copy on write

  /** Every copy-on-write entry of table t counts as a reference. */
  ghost predicate CowCounted(s: State, t: Pa) {
    forall p: nat :: Leaf(s, t, p).f.v && Leaf(s, t, p).f.cow ==> LeafOf(t, p) in s.own
  }

  ghost predicate Repairable(s: State, t: Pa, p: nat) {
    var e := Leaf(s, t, p);
    e.f.v && e.f.u && e.f.cow && e.ppn in s.k.refcnt && (s.k.refcnt[e.ppn] == 1 || s.k.free != [])
  }

  /** The allocator after handle_cow_fault on a page: nothing changes for a page that has one
      reference, and otherwise a new page takes one reference over. */
  function Split(k: Kmem, pa: Pa): Kmem
    requires pa in k.refcnt && (k.refcnt[pa] == 1 || k.free != [])
  {
    if k.refcnt[pa] == 1 then k else Decref(Frames.Kalloc(k), pa)
  }

  lemma SplitCopies(s: State, a: Token)
    requires Inv(s) && a in s.own && s.own[a] in s.k.refcnt && s.k.refcnt[s.own[a]] != 1 && s.k.free != []
    ensures Kalloc.Free(Frames.Kalloc(s.k), s.own[a]) == Split(s.k, s.own[a])
  {
    hide NodeIn, Linked, LeafIn;
    CountPositive(s.own, s.own[a]);
    FreshPage(s, a);
    var nowhere: map<Token, Pa> := map[];
    assert PageConsistent(s.k, s.own, nowhere, s.own[a]);
  }

  /** Entry p of table t is now writable, and alone refers to its page; every other entry is as it
      was, and every user page shows the bytes that it showed. */
  ghost predicate Repaired(s: State, s': State, t: Pa, p: nat) {
    && (forall u: Pa, q: nat :: u != t || q != p ==> Leaf(s', u, q) == Leaf(s, u, q))
    && Leaf(s', t, p).f == Leaf(s, t, p).f.(w := true, cow := false)
    && Sole(s'.own, LeafOf(t, p)) && s'.own.Keys == s.own.Keys
    && (forall a :: a in s.own && a != LeafOf(t, p) ==> s'.own[a] == s.own[a])
    && (forall a :: a in s.own && !a.NodeOf? && s.own[a] in s.mem ==>
          s'.own[a] in s'.mem && s'.mem[s'.own[a]] == s.mem[s.own[a]])
  }

  lemma LeafWalked(s: State, t: Pa, p: nat)
    ensures var c := NodeOf(t, NodeAt(0, p));
      Leaf(s, t, p) == if c in s.own then Ptes(s.mem, s.own[c])[p % 512] else NONE
  {
  }

  lemma CowIs(s: State, t: Pa, p: nat)
    requires Inv(s) && CowCounted(s, t) && Leaf(s, t, p).f.v && Leaf(s, t, p).f.cow
    ensures LeafOf(t, p) in s.own && s.own[LeafOf(t, p)] == Leaf(s, t, p).ppn && Leaf(s, t, p).ppn in s.k.refcnt
    ensures Leaf(s, t, p).f.r && !Leaf(s, t, p).f.w
  {
    hide Leaf, Inv;
    LeafParts(s, t, p);
    Counted(s, LeafOf(t, p));
  }

  lemma RepairedHere(s: State, s': State, t: Pa, p: nat, e: Pte)
    requires LeafSet(s, s', t, p, e) && e.f == Leaf(s, t, p).f.(w := true, cow := false) && Sole(s.own, LeafOf(t, p))
    ensures Repaired(s, s', t, p)
  {
    hide Leaf, Sole;
  }

  lemma HeldFacts(s: State, s1: State, t: Pa, p: nat, id: nat)
    requires Inv(s) && Held(s, s1, id) && LeafOf(t, p) in s.own && Other(id) !in s.own
    ensures var pa := s.own[LeafOf(t, p)];
      && LeafOf(t, p) in s1.own && s1.own[LeafOf(t, p)] == pa && Sole(s1.own, Other(id)) && s1.own[Other(id)] != pa
      && pa in s.mem && pa in s1.mem && s1.mem[pa] == s.mem[pa] && s1.mem[pa].Data? && |s1.mem[pa].bytes| == PGSIZE
    ensures Leaf(s, t, p).ppn == s.own[LeafOf(t, p)] && Leaf(s, t, p).f.r && Leaf(s, t, p).f.v && p < PAGES
  {
    hide Leaf, Inv;
    LeafParts(s, t, p);
    FreshPage(s, LeafOf(t, p));
  }

  lemma HeldIs(s: State, s1: State, id: nat)
    requires Held(s, s1, id)
    ensures Other(id) in s1.own && s1.own == s.own[Other(id) := s1.own[Other(id)]]
  {
  }

  lemma SwapFacts(s3: State, s4: State, t: Pa, p: nat, e: Pte, id: nat)
    requires LeafSet(s3, s4, t, p, e) && Other(id) in s3.own && s3.own[Other(id)] in s3.mem
    ensures Leaf(s4, t, p) == e && s4.own == s3.own && s4.own[Other(id)] in s4.mem
    ensures s4.mem[s4.own[Other(id)]] == s3.mem[s3.own[Other(id)]]
  {
    hide Leaf;
  }

  lemma CopiedPages(s: State, s1: State, s2: State, s3: State, s4: State, t: Pa, p: nat, e: Pte, id: nat)
    requires Held(s, s1, id) && LeafOf(t, p) in s.own && Other(id) !in s.own && Other(id + 1) !in s.own
    requires s.own[LeafOf(t, p)] in s.mem && s.mem[s.own[LeafOf(t, p)]].Data? && Sole(s1.own, Other(id))
    requires s2 == Stored(s1, Other(id), s.mem[s.own[LeafOf(t, p)]].bytes)
    requires s3 == Released(s2, t, p, id + 1) && LeafSet(s3, s4, t, p, e)
    ensures forall b :: b in s.own && b != LeafOf(t, p) && !b.NodeOf? && s.own[b] in s.mem ==>
      s.own[b] in s4.mem && s4.mem[s.own[b]] == s.mem[s.own[b]]
    ensures s1.own[Other(id)] in s4.mem && s4.mem[s1.own[Other(id)]] == s.mem[s.own[LeafOf(t, p)]]
  {
    hide Leaf;
    var page := s1.own[Other(id)];
    assert s3.own[Other(id)] == page;
    forall b | b in s.own && b != LeafOf(t, p) && !b.NodeOf? && s.own[b] in s.mem
      ensures s.own[b] in s4.mem && s4.mem[s.own[b]] == s.mem[s.own[b]]
    {
      assert b in s1.own && s1.own[b] == s.own[b] && b != Other(id);
      assert b in s3.own && s3.own[b] == s.own[b];
    }
  }

  lemma CopiedLeaves(s: State, s1: State, s2: State, s3: State, s4: State, s5: State, s6: State, t: Pa, p: nat, e: Pte)
    requires SameLeaves(s, s1) && SameLeaves(s1, s2) && SameLeaves(s2, s3) && LeafSet(s3, s4, t, p, e)
    requires SameLeaves(s4, s5) && SameLeaves(s5, s6)
    ensures forall u: Pa, q: nat :: Leaf(s6, u, q) == if u == t && q == p then e else Leaf(s, u, q)
  {
    hide Leaf;
  }

  lemma SoleDropped(own: map<Token, Pa>, a: Token, b: Token)
    requires Sole(own, a) && a != b
    ensures Sole(own - {b}, a)
  {
  }

  lemma RepairedCopy(s: State, s': State, t: Pa, p: nat, e: Pte)
    requires LeafOf(t, p) in s.own && Sole(s'.own, LeafOf(t, p)) && s'.own == s.own[LeafOf(t, p) := e.ppn]
    requires forall u: Pa, q: nat :: Leaf(s', u, q) == if u == t && q == p then e else Leaf(s, u, q)
    requires e.f == Leaf(s, t, p).f.(w := true, cow := false)
    requires forall b :: b in s.own && b != LeafOf(t, p) && !b.NodeOf? && s.own[b] in s.mem ==>
      s.own[b] in s'.mem && s'.mem[s.own[b]] == s.mem[s.own[b]]
    requires s.own[LeafOf(t, p)] in s.mem && e.ppn in s'.mem && s'.mem[e.ppn] == s.mem[s.own[LeafOf(t, p)]]
    ensures Repaired(s, s', t, p)
  {
    hide Leaf, Sole;
  }

  /** Every reference from table t and its entries is gone; every other is there, and the page that
      a user entry or the kernel refers to is as it was. */
  ghost predicate Freed(s: State, s': State, t: Pa) {
    && (forall a :: a in s'.own <==> a in s.own && (a.Other? || a.t != t))
    && (forall a :: a in s'.own ==> s'.own[a] == s.own[a])
    && (forall u: Pa, q: nat :: u != t ==> Leaf(s', u, q) == Leaf(s, u, q))
    && (forall a :: a in s'.own && !a.NodeOf? && s.own[a] in s.mem ==>
          s.own[a] in s'.mem && s'.mem[s.own[a]] == s.mem[s.own[a]])
  }

  lemma InvIs(s: State)
    ensures Inv(s) <==> InvBut(s, {})
  {
    hide InvBut;
  }

  lemma UnmappedLeft(s: State, s1: State, t: Pa, n: nat)
    requires Unmapped(s, s1, t, 0, n) && Without(s, s1, t, 0, n) && NodeOf(t, Root) in s.own
    ensures NodeOf(t, Root) in s1.own
    ensures (forall p: nat :: !Leaf(s1, t, p).f.v) <==> forall p: nat :: n <= p ==> !Leaf(s, t, p).f.v
  {
    hide Leaf;
    if forall p: nat :: !Leaf(s1, t, p).f.v {
      forall p: nat | n <= p
        ensures !Leaf(s, t, p).f.v
      {
        assert Leaf(s1, t, p) == Leaf(s, t, p);
      }
    }
  }

  lemma FreedAll(s: State, s1: State, s2: State, t: Pa, n: nat)
    requires Without(s, s1, t, 0, n) && Unmapped(s, s1, t, 0, n)
    requires Pruned(s1, s2, t, Root) && Inv(s1) && forall p: nat :: !Leaf(s1, t, p).f.v
    ensures Freed(s, s2, t)
  {
    hide Leaf, Inv;
    PrunedLeaves(s1, s2, t);
    forall p | LeafOf(t, p) in s1.own
      ensures false
    {
      LeafParts(s1, t, p);
    }
  }

  lemma PrunedLeaves(s: State, s': State, t: Pa)
    requires Inv(s) && Pruned(s, s', t, Root)
    ensures forall u: Pa, q: nat :: u != t ==> Leaf(s', u, q) == Leaf(s, u, q)
  {
    hide Steady, Linked, LeafIn, Sole, Below;
    forall u: Pa, q: nat | u != t
      ensures Leaf(s', u, q) == Leaf(s, u, q)
    {
      var c := NodeOf(u, NodeAt(0, q));
      assert c in s'.own <==> c in s.own;
      if c in s.own {
        assert NodeIn(s, u, NodeAt(0, q));
      }
    }
  }

  lemma UnmappedAbove(s: State, s': State, t: Pa, p: nat, sz: nat)
    requires Unmapped(s, s', t, p, p + 1) && Without(s, s', t, p, p + 1) && LeafOf(t, p) !in s.own
    ensures forall q: nat :: Leaf(s', t, q) == if q == p then NONE else Leaf(s, t, q)
    ensures forall q :: LeafOf(t, q) in s'.own <==> LeafOf(t, q) in s.own
    ensures NodeOf(t, Root) in s'.own <==> NodeOf(t, Root) in s.own
  {
    hide Leaf;
  }

  /** With trampoline and trapframe gone, what is left above n is user memory beyond it. */
  lemma UserLeft(s: State, s1: State, s2: State, t: Pa, n: nat)
    requires Inv(s) && Covers(s, t, n) && n <= TOP
    requires forall q: nat :: Leaf(s1, t, q) == if q == PAGES - 1 then NONE else Leaf(s, t, q)
    requires forall q: nat :: Leaf(s2, t, q) == if q == TOP then NONE else Leaf(s1, t, q)
    requires forall q :: LeafOf(t, q) in s2.own <==> LeafOf(t, q) in s.own
    ensures Covers(s2, t, n)
    ensures (forall q: nat :: n <= q ==> !Leaf(s2, t, q).f.v) <==> forall q :: n <= q < TOP ==> !Leaf(s, t, q).f.v
  {
    hide Leaf, Inv;
    if forall q :: n <= q < TOP ==> !Leaf(s, t, q).f.v {
      forall q: nat | n <= q
        ensures !Leaf(s2, t, q).f.v
      {
        if q >= PAGES {
          BeyondMax(s, t, q);
        }
      }
    } else {
      var q :| n <= q < TOP && Leaf(s, t, q).f.v;
      assert Leaf(s2, t, q).f.v;
    }
  }

  lemma BeyondMax(s: State, t: Pa, q: nat)
    requires Inv(s) && q >= PAGES
    ensures !Leaf(s, t, q).f.v
  {
    hide Steady, Linked, LeafIn, Sole, Ptes;
  }

  /** What uvmcopy needs, once the child has its table. */
  lemma ForkStart(s: State, s1: State, t: Pa, u: Pa, n: nat, trampoline: Pa, trapframe: Pa)
    requires Inv(s) && NodeOf(t, Root) in s.own && Sized(s, t, n) && s.k.free != [] && u == s.k.free[0] && n <= TOP
    requires Kept(s, s1, u) && KernelMapped(s, s1, u, trampoline, trapframe)
    ensures t != u && NodeOf(t, Root) in s1.own && Sized(s1, t, n)
  {
    hide Inv, Leaf;
    UnusedName(s);
  }

  /** The child of a failed uvmcopy maps i pages and the two of the kernel. */
  lemma ForkStopped(s: State, s1: State, s2: State, t: Pa, u: Pa, i: nat, trampoline: Pa, trapframe: Pa)
    requires Inv(s) && s.k.free != [] && u == s.k.free[0] && Kept(s, s1, u) && Sized(s1, u, 0) && t != u
    requires KernelMapped(s, s1, u, trampoline, trapframe)
    requires Copied(s1, s2, t, u, i + 1, i) && i < TOP && NodeOf(u, Root) in s1.own && Inv(s2)
    ensures NodeOf(u, Root) in s2.own && Covers(s2, u, 0)
    ensures forall p :: TOP <= p < PAGES ==> Leaf(s2, u, p).f.v && LeafOf(u, p) !in s2.own
    ensures (forall p :: 0 <= p < TOP ==> !Leaf(s2, u, p).f.v) <==> i == 0
  {
    hide Inv, Leaf;
    UnusedName(s);
    if i > 0 {
      assert LeafOf(u, 0) in s2.own;
      LeafParts(s2, u, 0);
      assert Leaf(s2, u, 0).f.v;
    }
  }

  lemma ForkUndone(s: State, s1: State, s2: State, s3: State, t: Pa, u: Pa, i: nat)
    requires Inv(s) && s.k.free != [] && u == s.k.free[0] && Kept(s, s1, u)
    requires Copied(s1, s2, t, u, i + 1, i) && Freed(s2, s3, u)
    ensures SameRefs(s, s3)
  {
    hide Inv, Leaf;
    UnusedName(s);
  }

  lemma FreedTwice(s: State, s1: State, s2: State, s3: State, t: Pa)
    requires Without(s, s1, t, PAGES - 1, PAGES) && Without(s1, s2, t, TOP, TOP + 1) && Freed(s2, s3, t)
    requires Unmapped(s, s1, t, PAGES - 1, PAGES) && Unmapped(s1, s2, t, TOP, TOP + 1)
    ensures Freed(s, s3, t)
  {
    hide Leaf;
  }

  lemma DeadMore(s: State, dead: set<Token>, a: Token)
    requires InvBut(s, dead)
    ensures InvBut(s, dead + {a})
  {
    hide Steady, NodeIn, Linked, LeafIn;
  }

  lemma NodePages(s: State, dead: set<Token>)
    requires InvBut(s, dead)
    ensures forall a :: a in s.own && a.NodeOf? ==> s.own[a] in s.mem
  {
    hide Steady, Linked, LeafIn, Sole;
    forall a | a in s.own && a.NodeOf?
      ensures s.own[a] in s.mem
    {
      assert NodeIn(s, a.t, a.n);
    }
  }

  lemma CountedBut(s: State, dead: set<Token>, a: Token)
    requires InvBut(s, dead) && a in s.own
    ensures s.own[a] in s.k.refcnt
  {
    Kalloc.OwnedUnlisted(s.k, s.own, s.own[a]);
  }

  /** A child of a node whose earlier children are gone is still there. */
  lemma ChildThere(s: State, s1: State, t: Pa, n: Node, i: nat)
    requires PrunedTo(s, s1, t, n, i) && !n.Low? && NodeOf(t, Child(n, i)) in s.own
    ensures NodeOf(t, Child(n, i)) in s1.own && s1.own[NodeOf(t, Child(n, i))] == s.own[NodeOf(t, Child(n, i))]
    ensures Parent(Child(n, i)) == n && forall m :: Below(Child(n, i), m) ==> Below(n, m) && m != n
  {
  }

  lemma PrunedSelf(s1: State, s2: State, t: Pa, n: Node, i: nat)
    requires !n.Low? && Pruned(s1, s2, t, Child(n, i)) && NodeOf(t, n) in s1.own && s1.own[NodeOf(t, n)] in s1.mem
    ensures NodeOf(t, n) in s2.own && s2.own[NodeOf(t, n)] == s1.own[NodeOf(t, n)]
    ensures Ptes(s2.mem, s2.own[NodeOf(t, n)]) == Ptes(s1.mem, s1.own[NodeOf(t, n)])
  {
  }

  lemma LeafFound(s: State, t: Pa, n: Node, i: nat)
    requires n.Low? && NodeOf(t, n) in s.own && i < PTES && Ptes(s.mem, s.own[NodeOf(t, n)])[i].f.v
    ensures !NoLeafBelow(s, t, n)
  {
    assert !Bare(s, t, n);
  }

  lemma BareIs(s: State, t: Pa, n: Node)
    requires NodeOf(t, n) in s.own && forall i :: 0 <= i < PTES ==> !Ptes(s.mem, s.own[NodeOf(t, n)])[i].f.v
    ensures Bare(s, t, n)
  {
  }

  lemma UpExact(n: nat)
    ensures Up(n * PGSIZE) == n
  {
  }

  lemma UpMonotone(m: nat, n: nat)
    requires m <= n
    ensures Up(m) <= Up(n)
  {
  }

  lemma UnmappedEmpty(s: State, t: Pa, lo: nat, hi: nat)
    ensures hi <= lo ==> Unmapped(s, s, t, lo, hi) && Without(s, s, t, lo, hi)
  {
    hide Leaf;
  }

  lemma ExtendedNone(s: State, t: Pa, lo: nat, f: Flags)
    ensures Extended(s, s, t, lo, lo, f)
  {
    hide Leaf, Sole;
  }

  lemma InvalidNone(s: State, t: Pa, p: nat)
    requires Inv(s) && !Leaf(s, t, p).f.v
    ensures Leaf(s, t, p) == NONE && LeafOf(t, p) !in s.own
  {
    hide Steady, NodeIn, Sole;
    if NodeOf(t, NodeAt(0, p)) in s.own {
      assert Linked(s, t, NodeAt(0, p));
      assert EntryOk(s, t, NodeAt(0, p), p % 512, Ptes(s.mem, s.own[NodeOf(t, NodeAt(0, p))])[p % 512]);
    }
  }

  /** The next page to be mapped is not mapped yet. */
  lemma NextFree(s: State, s1: State, s2: State, t: Pa, lo: nat, q: nat, f: Flags)
    requires Extended(s, s1, t, lo, q, f) && SameLeaves(s1, s2) && Sized(s, t, lo) && lo <= q < TOP && Inv(s2)
    ensures !Leaf(s2, t, q).f.v && LeafOf(t, q) !in s2.own
  {
    hide Leaf, Sole, Inv;
    InvalidNone(s2, t, q);
  }

  lemma HeldKept(s1: State, s2: State, s3: State, t: Pa, id: nat)
    requires Held(s1, s2, id) && Kept(s2, s3, t) && Inv(s3) && Other(id) !in s1.own
    ensures Other(id) in s3.own && s3.own[Other(id)] == s1.k.free[0] && Sole(s3.own, Other(id))
    ensures s1.k.free[0] in s3.mem && s3.mem[s1.k.free[0]] == s2.mem[s1.k.free[0]]
    ensures forall a :: a in s2.own ==> a in s3.own
    ensures forall p, u :: LeafOf(u, p) !in s2.own ==> LeafOf(u, p) !in s3.own
  {
    hide Inv, Leaf;
    NodesSole(s3);
    var pa := s1.k.free[0];
    assert s2.own[Other(id)] == pa;
    forall a | a in s3.own && s3.own[a] == pa
      ensures a == Other(id)
    {
      if a.NodeOf? {
        assert Sole(s3.own, NodeOf(a.t, a.n));
      }
    }
  }

  lemma MappedOne(s: State, s': State, t: Pa, q: nat, pa: Pa, f: Flags)
    requires Mapped(s, s', t, q, 1, pa, f)
    ensures Leaf(s', t, q) == Pte(pa, f.(v := true))
  {
    hide Leaf;
  }

  /** After a failed mapping and the kfree, entries and references are as before the kalloc. */
  lemma GivenBack(s: State, s1: State, s2: State, s3: State, s4: State, t: Pa, lo: nat, q: nat,
                     pa: Pa, f: Flags, id: nat)
    requires Extended(s, s1, t, lo, q, f) && Held(s1, s2, id) && SameLeaves(s1, s2) && Kept(s2, s3, t)
    requires Mapped(s2, s3, t, q, 0, pa, f) && Other(id) !in s1.own && Other(id) in s3.own
    requires s4.mem == s3.mem && s4.own == s3.own - {Other(id)} && SameLeaves(s3, s4) && Inv(s4)
    ensures Extended(s, s4, t, lo, q, f)
  {
    hide Inv, Leaf, Sole;
    SameAgain(s1, s2, s3, s4, t, q, pa, f);
    hide SameLeaves, Mapped;
    assert Kept(s1, s4, t);
    NodesSole(s4);
    ExtendedSame(s, s1, s4, t, lo, q, f);
    forall p | lo <= p < q
      ensures LeafOf(t, p) in s4.own && Sole(s4.own, LeafOf(t, p))
    {
      SoleKept(s1, s4, t, LeafOf(t, p));
    }
  }

  lemma SameAgain(s1: State, s2: State, s3: State, s4: State, t: Pa, q: nat, pa: Pa, f: Flags)
    requires SameLeaves(s1, s2) && Mapped(s2, s3, t, q, 0, pa, f) && SameLeaves(s3, s4)
    ensures SameLeaves(s1, s4)
  {
    hide Leaf;
  }

  lemma ExtendedSame(s: State, s1: State, s2: State, t: Pa, lo: nat, q: nat, f: Flags)
    requires Extended(s, s1, t, lo, q, f) && SameLeaves(s1, s2)
    ensures forall u: Pa, p: nat :: u != t || !(lo <= p < q) ==> Leaf(s2, u, p) == Leaf(s, u, p)
    ensures forall p :: lo <= p < q ==> Leaf(s2, t, p).f == f
  {
    hide Leaf, Sole;
  }

  lemma SoleKept(s: State, s': State, t: Pa, a: Token)
    requires Kept(s, s', t) && Sole(s.own, a) && forall u, n :: NodeOf(u, n) in s'.own ==> Sole(s'.own, NodeOf(u, n))
    ensures Sole(s'.own, a)
  {
    forall b | b in s'.own && b != a
      ensures s'.own[b] != s'.own[a]
    {
      if b !in s.own {
        assert Sole(s'.own, NodeOf(b.t, b.n));
      }
    }
  }

  lemma ExtendedStep(s: State, s1: State, s2: State, s3: State, s4: State, t: Pa, lo: nat, q: nat,
                     pa: Pa, f: Flags, id: nat)
    requires Extended(s, s1, t, lo, q, f) && Held(s1, s2, id) && SameLeaves(s1, s2) && Kept(s2, s3, t) && f.v
    requires Mapped(s2, s3, t, q, 1, pa, f) && Other(id) !in s1.own && Other(id) in s3.own && lo <= q
    requires LeafOf(t, q) !in s1.own && s4 == Adopted(s3, id, t, q) && SameLeaves(s3, s4) && Inv(s4)
    requires Sole(s4.own, LeafOf(t, q))
    ensures Extended(s, s4, t, lo, q + 1, f)
  {
    hide Inv, Leaf, Sole, SameLeaves, Mapped;
    ExtendedStepLeaves(s, s1, s2, s3, s4, t, lo, q, pa, f);
    ExtendedStepRefs(s1, s2, s3, s4, t, q, id);
    hide Held, Kept, Adopted;
    NodesSole(s4);
    forall p | lo <= p < q
      ensures LeafOf(t, p) in s4.own && Sole(s4.own, LeafOf(t, p))
    {
      SoleStays(s1, s4, LeafOf(t, p), LeafOf(t, q));
    }
  }

  lemma ExtendedStepRefs(s1: State, s2: State, s3: State, s4: State, t: Pa, q: nat, id: nat)
    requires Held(s1, s2, id) && Kept(s2, s3, t) && Other(id) !in s1.own && Other(id) in s3.own
    requires LeafOf(t, q) !in s1.own
    requires s4 == Adopted(s3, id, t, q)
    ensures LeafOf(t, q) in s4.own
    ensures forall a :: a in s1.own ==> a in s4.own && s4.own[a] == s1.own[a]
    ensures forall a :: a in s4.own && a !in s1.own ==> a == LeafOf(t, q) || (a.NodeOf? && a.t == t)
    ensures forall a :: a in s1.own && !a.NodeOf? && s1.own[a] in s1.mem ==>
      s1.own[a] in s4.mem && s4.mem[s1.own[a]] == s1.mem[s1.own[a]]
  {
    hide Leaf, Sole;
  }

  lemma ExtendedStepLeaves(s: State, s1: State, s2: State, s3: State, s4: State, t: Pa, lo: nat, q: nat, pa: Pa, f: Flags)
    requires Extended(s, s1, t, lo, q, f) && SameLeaves(s1, s2) && Mapped(s2, s3, t, q, 1, pa, f) && SameLeaves(s3, s4)
    requires f.v && lo <= q
    ensures forall u: Pa, p: nat :: u != t || !(lo <= p < q + 1) ==> Leaf(s4, u, p) == Leaf(s, u, p)
    ensures forall p :: lo <= p < q + 1 ==> Leaf(s4, t, p).f == f
  {
    hide Leaf, Sole;
    forall p | lo <= p < q
      ensures Leaf(s4, t, p).f == f
    {
      assert Leaf(s4, t, p) == Leaf(s3, t, p) == Leaf(s2, t, p) == Leaf(s1, t, p);
    }
    assert Leaf(s4, t, q) == Leaf(s3, t, q);
  }

  lemma ExtendedOwns(s: State, s': State, t: Pa, lo: nat, q: nat, f: Flags)
    requires Extended(s, s', t, lo, q, f)
    ensures forall p :: lo <= p < q ==> LeafOf(t, p) in s'.own
    ensures NodeOf(t, Root) in s.own ==> NodeOf(t, Root) in s'.own
  {
    hide Leaf, Sole;
  }

  lemma SoleStays(s: State, s': State, a: Token, c: Token)
    requires Sole(s.own, a) && a in s'.own && s'.own[a] == s.own[a] && Sole(s'.own, c) && c != a
    requires forall u, n :: NodeOf(u, n) in s'.own ==> Sole(s'.own, NodeOf(u, n))
    requires forall b :: b in s'.own && b !in s.own ==> b.NodeOf? || b == c
    requires forall b :: b in s'.own && b in s.own ==> s'.own[b] == s.own[b]
    ensures Sole(s'.own, a)
  {
    forall b | b in s'.own && b != a
      ensures s'.own[b] != s'.own[a]
    {
      if b !in s.own && b != c {
        assert Sole(s'.own, NodeOf(b.t, b.n));
      }
    }
  }

  /** Undoing the growth restores every entry and every reference. */
  lemma Restored(s: State, s1: State, s2: State, t: Pa, lo: nat, q: nat, f: Flags)
    requires Inv(s) && Sized(s, t, lo) && Extended(s, s1, t, lo, q, f) && q <= TOP
    requires Unmapped(s1, s2, t, lo, q) && Without(s1, s2, t, lo, q)
    ensures SameLeaves(s, s2) && Kept(s, s2, t)
  {
    hide Inv, Leaf, Sole;
    forall p | lo <= p < q
      ensures Leaf(s, t, p) == NONE && LeafOf(t, p) !in s.own
    {
      InvalidNone(s, t, p);
    }
  }

  lemma SizedExtended(s: State, s': State, t: Pa, lo: nat, hi: nat, f: Flags)
    requires Sized(s, t, lo) && Extended(s, s', t, lo, hi, f) && lo <= hi
    ensures Sized(s', t, hi)
  {
    hide Leaf, Sole;
  }

  lemma UnmappedNone(s: State, t: Pa, lo: nat)
    ensures Unmapped(s, s, t, lo, lo) && Without(s, s, t, lo, lo)
  {
    hide Leaf;
  }

  lemma UnmappedNext(s: State, s': State, t: Pa, lo: nat, q: nat)
    requires Unmapped(s, s', t, lo, q) && Without(s, s', t, lo, q)
    ensures Leaf(s', t, q) == Leaf(s, t, q) && (LeafOf(t, q) in s'.own <==> LeafOf(t, q) in s.own)
    ensures NodeOf(t, Root) in s'.own <==> NodeOf(t, Root) in s.own
  {
    hide Leaf;
  }

  lemma LeafHasTable(s: State, t: Pa, p: nat)
    requires Leaf(s, t, p).f.v
    ensures NodeOf(t, NodeAt(0, p)) in s.own
    ensures Leaf(s, t, p) == Ptes(s.mem, s.own[NodeOf(t, NodeAt(0, p))])[p % 512]
  {
  }

  lemma UnmappedStep(s: State, s1: State, s2: State, s3: State, t: Pa, lo: nat, q: nat)
    requires Unmapped(s, s1, t, lo, q) && Without(s, s1, t, lo, q) && SameLeaves(s1, s2) && lo <= q
    requires s2.mem == s1.mem && s2.own == s1.own - {LeafOf(t, q)} && LeafSet(s2, s3, t, q, NONE)
    ensures Unmapped(s, s3, t, lo, q + 1) && Without(s, s3, t, lo, q + 1)
  {
    hide Leaf;
  }

  lemma MappedNone(s: State, t: Pa, lo: nat, pa: Pa, f: Flags)
    ensures Kept(s, s, t) && Mapped(s, s, t, lo, 0, pa, f)
  {
    hide Leaf;
  }

  lemma SameTransMapped(s: State, s1: State, s2: State, t: Pa, lo: nat, n: nat, pa: Pa, f: Flags)
    requires Kept(s, s1, t) && Kept(s1, s2, t) && Mapped(s, s1, t, lo, n, pa, f) && SameLeaves(s1, s2)
    ensures Kept(s, s2, t) && Mapped(s, s2, t, lo, n, pa, f)
    ensures NodeOf(t, Root) in s1.own ==> NodeOf(t, Root) in s2.own
  {
    hide Leaf;
  }

  /** The entry after the ones that are mapped is as before. */
  lemma MappedHere(s: State, s': State, t: Pa, lo: nat, n: nat, pa: Pa, f: Flags)
    requires Mapped(s, s', t, lo, n, pa, f)
    ensures Leaf(s', t, lo + n) == Leaf(s, t, lo + n)
  {
    hide Leaf;
  }

  /** The next entry to be mapped is still free, so nothing refers through it. */
  lemma EntryNone(s: State, s': State, t: Pa, lo: nat, n: nat, pa: Pa, f: Flags)
    requires Inv(s') && Mapped(s, s', t, lo, n, pa, f) && !Leaf(s, t, lo + n).f.v
    ensures !Leaf(s', t, lo + n).f.v && LeafOf(t, lo + n) !in s'.own
  {
    hide Leaf, Steady, NodeIn, Linked, Sole;
  }

  lemma MappedStep(s: State, s1: State, s2: State, t: Pa, lo: nat, n: nat, pa: Pa, f: Flags)
    requires Kept(s, s1, t) && Mapped(s, s1, t, lo, n, pa, f)
    requires LeafSet(s1, s2, t, lo + n, Pte(pa + n, f.(v := true)))
    ensures Kept(s, s2, t) && Mapped(s, s2, t, lo, n + 1, pa, f)
  {
    hide Leaf;
  }

  lemma RootIs(s: State, t: Pa)
    requires Inv(s) && NodeOf(t, Root) in s.own
    ensures s.own[NodeOf(t, Root)] == t
  {
    assert NodeIn(s, t, Root);
  }

  lemma FreshPage(s: State, a: Token)
    requires Inv(s) && a in s.own && s.k.free != []
    ensures s.own[a] != s.k.free[0]
  {
    Kalloc.OwnedUnlisted(s.k, s.own, s.own[a]);
  }

  lemma SameRefl(s: State)
    ensures SameLeaves(s, s)
  {
  }

  lemma SameTrans(s: State, s1: State, s2: State)
    requires SameLeaves(s, s1) && SameLeaves(s1, s2)
    ensures SameLeaves(s, s2)
  {
    hide Leaf;
  }

  lemma KeptStill(s: State, s': State, t: Pa, a: Token)
    requires Kept(s, s', t) && a !in s'.own
    ensures a !in s.own
  {
  }
}
