/** exec.c: the new address space of a program. It holds the segments of the file, a guard page, and a
    stack with the arguments; and when exec fails, everything is given back. */
module Exec {
  import opened Frames
  import opened PageTable
  import opened Params
  import opened Vm

  const USERSTACK: nat := 1
  const MAXARG: nat := 32
  const WORD: nat := 0x1_0000_0000_0000_0000
  const UINT: nat := 0x1_0000_0000

  type Word = x: nat | x < WORD witness 0

  const STACK_FLAGS: Flags := Flags(false, false, true, false, false, false)

  /** A program header of type ELF_PROG_LOAD, with the bytes that the file has at its offset. */
  datatype Segment = Segment(vaddr: Word, memsz: Word, filesz: Word, data: seq<Byte>, perm: Flags)

  /** The size that loadseg is given: it takes an unsigned int. */
  function Size(g: Segment): nat {
    g.filesz % UINT
  }

  /** What exec checks, and that the file has all the bytes. */
  predicate Loadable(g: Segment) {
    g.filesz <= g.memsz && g.vaddr + g.memsz < WORD && g.vaddr % PGSIZE == 0 && |g.data| == Size(g)
  }

  predicate Holds(g: Segment, va: nat) {
    g.vaddr <= va < g.vaddr + |g.data|
  }

  predicate Defined(gs: seq<Segment>, va: nat) {
    exists i :: 0 <= i < |gs| && Holds(gs[i], va)
  }

  /** The byte at va after the segments gs: the last one that has va decides. */
  function Loaded(gs: seq<Segment>, va: nat): Byte
    requires Defined(gs, va)
  {
    var g := gs[|gs| - 1];
    if Holds(g, va) then g.data[va - g.vaddr] else DefinedBefore(gs, va); Loaded(gs[..|gs| - 1], va)
  }

  lemma DefinedBefore(gs: seq<Segment>, va: nat)
    requires Defined(gs, va) && !Holds(gs[|gs| - 1], va)
    ensures Defined(gs[..|gs| - 1], va)
  {
    var i :| 0 <= i < |gs| && Holds(gs[i], va);
    assert gs[..|gs| - 1][i] == gs[i];
  }

  // ---------------------------------------------------------------- the new table

  /** All that has changed since s0 is that there is a table t. */
  ghost predicate Others(s0: State, s: State, t: Pa) {
    && (forall a :: a in s0.own ==> (a.Other? || a.t != t) && a in s.own && s.own[a] == s0.own[a])
    && (forall a :: a in s.own && a !in s0.own ==> !a.Other? && a.t == t)
    && (forall a :: a in s0.own && !a.NodeOf? && s0.own[a] in s0.mem ==>
          s0.own[a] in s.mem && s.mem[s0.own[a]] == s0.mem[s0.own[a]])
    && (forall u: Pa, q: nat :: u != t ==> Leaf(s, u, q) == Leaf(s0, u, q))
  }

  /** Table t has n user pages, each to itself, and the two of the kernel. */
  ghost predicate Pages(s: State, t: Pa, n: nat) {
    && NodeOf(t, Root) in s.own && n <= TOP && Sized(s, t, n)
    && (forall q: nat :: LeafOf(t, q) in s.own ==> q < n && Sole(s.own, LeafOf(t, q)) && !Leaf(s, t, q).f.cow)
    && (forall q :: TOP <= q < PAGES ==> Leaf(s, t, q).f.v && !Leaf(s, t, q).f.u && !Leaf(s, t, q).f.cow)
  }

  ghost predicate Built(s0: State, s: State, t: Pa, n: nat) {
    Inv(s) && Others(s0, s, t) && Pages(s, t, n)
  }

  /** The user may use the first n pages. */
  ghost predicate Open(s: State, t: Pa, n: nat) {
    forall q :: 0 <= q < n ==> Leaf(s, t, q).f.u
  }

  lemma BuiltNew(s0: State, s: State, t: Pa, trampoline: Pa, trapframe: Pa)
    requires Inv(s0) && Inv(s) && s0.k.free != [] && t == s0.k.free[0] && NodeOf(t, Root) in s.own
    requires Kept(s0, s, t) && Sized(s, t, 0) && KernelMapped(s0, s, t, trampoline, trapframe)
    ensures Built(s0, s, t, 0)
  {
    hide Inv, Leaf, Sole;
    UnusedName(s0);
    forall a | a in s0.own
      ensures a.Other? || a.t != t
    {
      assert a.NodeOf? ==> a == NodeOf(a.t, a.n);
      assert a.LeafOf? ==> a == LeafOf(a.t, a.p);
    }
  }

  lemma BuiltKept(s0: State, s: State, s': State, t: Pa, n: nat)
    requires Built(s0, s, t, n) && Inv(s') && SameLeaves(s, s') && Kept(s, s', t)
    ensures Built(s0, s', t, n)
  {
    hide Inv, Leaf;
    NodesSole(s');
    forall q: nat | LeafOf(t, q) in s'.own
      ensures q < n && Sole(s'.own, LeafOf(t, q)) && !Leaf(s', t, q).f.cow
    {
      SoleKept(s, s', t, LeafOf(t, q));
    }
  }

  lemma BuiltExtended(s0: State, s: State, s': State, t: Pa, lo: nat, hi: nat, f: Flags)
    requires Built(s0, s, t, lo) && Inv(s') && Extended(s, s', t, lo, hi, f) && !f.cow && lo <= hi <= TOP
    requires Sized(s', t, hi)
    ensures Built(s0, s', t, hi)
  {
    hide Inv, Leaf, Sole;
    assert Others(s0, s', t);
    forall q: nat | LeafOf(t, q) in s'.own
      ensures q < hi && Sole(s'.own, LeafOf(t, q)) && !Leaf(s', t, q).f.cow
    {
      if LeafOf(t, q) in s.own {
        SoleBefore(s, s', t, lo, hi, f, q);
      }
    }
  }

  lemma SoleBefore(s: State, s': State, t: Pa, lo: nat, hi: nat, f: Flags, q: nat)
    requires Inv(s') && Extended(s, s', t, lo, hi, f) && Sole(s.own, LeafOf(t, q))
    ensures Sole(s'.own, LeafOf(t, q))
  {
    hide Inv, Leaf;
    NodesSole(s');
    forall b | b in s'.own && b != LeafOf(t, q)
      ensures s'.own[b] != s'.own[LeafOf(t, q)]
    {
      if b !in s.own {
        assert Sole(s'.own, b) by {
          if b.NodeOf? {
            assert Sole(s'.own, NodeOf(b.t, b.n));
          } else {
            assert b == LeafOf(t, b.p) && Sole(s'.own, LeafOf(t, b.p));
          }
        }
      }
    }
  }

  /** Other bytes in the pages of t. */
  lemma BuiltStored(s0: State, s: State, s': State, t: Pa, n: nat)
    requires Built(s0, s, t, n) && Inv(s') && Undisturbed(s, s', t)
    ensures Built(s0, s', t, n) && s'.own == s.own && s'.k == s.k && SameLeaves(s, s')
  {
    hide Inv, Leaf, Sole;
    NoCow(s0, s, t, n);
    assert s'.own == s.own && SameLeaves(s, s');
  }

  lemma NoCow(s0: State, s: State, t: Pa, n: nat)
    requires Built(s0, s, t, n)
    ensures forall q: nat :: !Cow(s, t, q)
    ensures UserCounted(s, t)
  {
    hide Inv, Leaf, Sole;
    forall q: nat | Leaf(s, t, q).f.v
      ensures !Leaf(s, t, q).f.cow && (Leaf(s, t, q).f.u ==> LeafOf(t, q) in s.own)
    {
      if q >= PAGES {
        BeyondMax(s, t, q);
      }
    }
  }

  lemma BuiltCleared(s0: State, s: State, s': State, t: Pa, n: nat, p: nat)
    requires Built(s0, s, t, n) && Inv(s') && LeafSet(s, s', t, p, Unprivileged(Leaf(s, t, p))) && p < n
    ensures Built(s0, s', t, n)
  {
    hide Inv, Leaf, Sole;
  }

  /** Copyout can be used on the new table while cur is the current one. */
  lemma BuiltCopyable(s0: State, s: State, t: Pa, n: nat, cur: Pa)
    requires Built(s0, s, t, n) && NodeOf(cur, Root) in s0.own && CowCounted(s0, cur)
    ensures Copyable(s, t, cur)
  {
    hide Inv, Leaf, Sole;
    NoCow(s0, s, t, n);
    assert t != cur;
    forall p: nat
      ensures !(Leaf(s, t, p).f.v && Leaf(s, t, p).f.cow)
    {
      assert !Cow(s, t, p);
    }
    forall p: nat | Leaf(s, cur, p).f.v && Leaf(s, cur, p).f.cow
      ensures LeafOf(cur, p) in s.own
    {
      assert Leaf(s, cur, p) == Leaf(s0, cur, p);
    }
  }

  lemma BuiltFreed(s0: State, s: State, s': State, t: Pa)
    requires Others(s0, s, t) && Freed(s, s', t)
    ensures SameRefs(s0, s')
  {
    hide Leaf;
  }

  /** The exit `bad`. */
  method Discard(vm: Vm, t: Pa, sz: nat, ghost s0: State)
    requires Built(s0, vm.S(), t, Up(sz))
    modifies vm
    ensures Inv(vm.S()) && SameRefs(s0, vm.S())
  {
    hide Inv, Leaf, Sole, Freed, SameRefs;
    ghost var s := vm.S();
    var ok := vm.ProcFreepagetable(t, sz);
    assert ok;
    BuiltFreed(s0, s, vm.S(), t);
  }

  // ---------------------------------------------------------------- segments

  function Min(a: int, b: int): int {
    if a < b then a else b
  }

  /** loadseg: sz bytes of the file to address va, of which it has src. It panics only at a page that
      is not the user's, and otherwise fails if and only if the file is too short. */
  method Loadseg(vm: Vm, t: Pa, va: nat, src: seq<Byte>, sz: nat, ghost s0: State, ghost pages: nat)
    returns (panic: bool, ok: bool)
    requires Built(s0, vm.S(), t, pages) && va % PGSIZE == 0 && |src| <= sz
    modifies vm
    ensures Inv(vm.S()) && Undisturbed(old(vm.S()), vm.S(), t)
    ensures panic ==> exists p :: va / PGSIZE <= p < Up(va + sz) && !Loads(old(vm.S()), t, p)
    ensures !panic ==> (ok <==> |src| == sz) && (ok ==> Wrote(old(vm.S()), vm.S(), t, va, src))
  {
    hide Inv, Leaf, Sole, Wrote, Undisturbed, Loads, Built, UserCounted;
    ghost var s := vm.S();
    var i := 0;
    WroteNone(s, t, va);
    UndisturbedNone(s, t);
    BuiltParts(s0, s, t, pages);
    while i < sz
      invariant 0 <= i && i % PGSIZE == 0 && Min(i, sz) <= |src| && Inv(vm.S()) && Undisturbed(s, vm.S(), t)
      invariant Wrote(s, vm.S(), t, va, src[..Min(i, sz)])
    {
      LoadPage(s0, s, vm.S(), t, pages, (va + i) / PGSIZE);
      var pa := vm.Walkaddr(t, va + i);
      if pa == 0 {
        PageOf(va, i, sz);
        return true, false;
      }
      var n := Min(PGSIZE, sz - i);
      var m := Min(n, |src| - i);
      FillPage(vm, t, va, src, i, m, pa, s);
      if m != n {
        return false, false;
      }
      i := i + PGSIZE;
    }
    assert src[..Min(i, sz)] == src;
    return false, true;
  }

  /** readi to a page that loadseg has found. */
  method FillPage(vm: Vm, ghost t: Pa, ghost va: nat, src: seq<Byte>, i: nat, m: nat, pa: Pa, ghost s: State)
    requires (va + i) % PGSIZE == 0 && m <= PGSIZE && i + m <= |src| && (i + m == |src| || m == PGSIZE)
    requires Inv(vm.S()) && Undisturbed(s, vm.S(), t) && Wrote(s, vm.S(), t, va, src[..i])
    requires var a := LeafOf(t, (va + i) / PGSIZE);
      && a in vm.own && vm.own[a] == pa && Sole(vm.own, a)
      && pa in vm.mem && vm.mem[pa].Data? && |vm.mem[pa].bytes| == PGSIZE
    modifies vm
    ensures Inv(vm.S()) && Undisturbed(s, vm.S(), t) && Wrote(s, vm.S(), t, va, src[..i + m])
  {
    hide Inv, Leaf, Sole, Wrote, Undisturbed;
    ghost var s1, p := vm.S(), (va + i) / PGSIZE;
    var page := vm.mem[pa].bytes;
    var page' := src[i..i + m] + page[m..];
    StoredKeeps(s1, LeafOf(t, p), page');
    vm.mem := vm.mem[pa := Data(page')];
    assert vm.S() == Stored(s1, LeafOf(t, p), page');
    UndisturbedStored(s, s1, vm.S(), t, p);
    assert page' == page[..0] + src[i..i + m] + page[0 + m..];
    WroteChunk(s, s1, vm.S(), t, va, src, i, m, page');
  }

  lemma BuiltParts(s0: State, s: State, t: Pa, n: nat)
    requires Built(s0, s, t, n)
    ensures Inv(s) && NodeOf(t, Root) in s.own && UserCounted(s, t)
  {
    hide Inv, Leaf, UserCounted, Others;
    NoCow(s0, s, t, n);
  }

  lemma PageOf(va: nat, i: nat, sz: nat)
    requires i < sz
    ensures va / PGSIZE <= (va + i) / PGSIZE < Up(va + sz)
  {
  }

  /** A page that is to be loaded, after others were. */
  lemma LoadPage(s0: State, s: State, s1: State, t: Pa, n: nat, p: nat)
    requires Built(s0, s, t, n) && Inv(s1) && Undisturbed(s, s1, t)
    ensures NodeOf(t, Root) in s1.own && (Loads(s1, t, p) <==> Loads(s, t, p))
    ensures Loads(s1, t, p) ==>
      var a := LeafOf(t, p);
      && a in s1.own && s1.own[a] == Leaf(s1, t, p).ppn && Sole(s1.own, a)
      && s1.own[a] in s1.mem && s1.mem[s1.own[a]].Data? && |s1.mem[s1.own[a]].bytes| == PGSIZE
  {
    hide Inv, Leaf, Sole, Others, Undisturbed;
    BuiltStored(s0, s, s1, t, n);
    NoCow(s0, s1, t, n);
    if Loads(s1, t, p) {
      LeafParts(s1, t, p);
    }
  }

  /** User memory is what the segments gs say, on the first n pages; where they say nothing, it is
      whatever the pages held. */
  ghost predicate Image(s: State, t: Pa, gs: seq<Segment>, n: nat) {
    forall va: nat :: va < n * PGSIZE && Defined(gs, va) ==> ByteOf(s, t, va) == Loaded(gs, va)
  }

  /** The end of the last segment. */
  function End(gs: seq<Segment>): nat {
    if gs == [] then 0 else
      var g := gs[|gs| - 1];
      var e := End(gs[..|gs| - 1]);
      if g.vaddr + g.memsz < e then e else g.vaddr + g.memsz
  }

  lemma {:induction false} EndBounds(gs: seq<Segment>, i: nat)
    requires i < |gs|
    ensures gs[i].vaddr + gs[i].memsz <= End(gs)
  {
    if i < |gs| - 1 {
      EndBounds(gs[..|gs| - 1], i);
    }
  }

  ghost predicate AllLoadable(gs: seq<Segment>) {
    forall i :: 0 <= i < |gs| ==> Loadable(gs[i])
  }

  /** New pages beyond the segments. */
  lemma ImageGrown(s: State, s': State, t: Pa, gs: seq<Segment>, lo: nat, hi: nat, f: Flags)
    requires Inv(s) && Covers(s, t, lo) && Image(s, t, gs, lo) && AllLoadable(gs) && End(gs) <= lo * PGSIZE
    requires Extended(s, s', t, lo, hi, f)
    ensures Image(s', t, gs, hi)
  {
    hide Inv, Leaf, Sole, Loaded, End;
    forall va: nat | va < hi * PGSIZE && Defined(gs, va)
      ensures ByteOf(s', t, va) == Loaded(gs, va)
    {
      DefinedBelow(gs, va);
      LeafParts(s, t, va / PGSIZE);
      assert ByteOf(s', t, va) == ByteOf(s, t, va);
    }
  }

  lemma DefinedBelow(gs: seq<Segment>, va: nat)
    requires AllLoadable(gs) && Defined(gs, va)
    ensures va < End(gs)
  {
    var i :| 0 <= i < |gs| && Holds(gs[i], va);
    EndBounds(gs, i);
  }

  lemma ImageLoaded(s: State, s': State, t: Pa, gs: seq<Segment>, g: Segment, n: nat)
    requires Covers(s, t, n) && Image(s, t, gs, n) && Wrote(s, s', t, g.vaddr, g.data)
    ensures Image(s', t, gs + [g], n)
  {
    hide ByteOf;
    assert (gs + [g])[..|gs|] == gs;
    forall va: nat | va < n * PGSIZE && Defined(gs + [g], va)
      ensures ByteOf(s', t, va) == Loaded(gs + [g], va)
    {
      assert LeafOf(t, va / PGSIZE) in s.own;
      if !Holds(g, va) {
        DefinedBefore(gs + [g], va);
      }
    }
  }

  lemma OpenLoads(s0: State, s: State, t: Pa, n: nat)
    requires Built(s0, s, t, n) && Open(s, t, n)
    ensures forall p: nat :: p < n ==> Loads(s, t, p)
  {
    hide Inv, Leaf, Sole, Others;
    forall p: nat | p < n
      ensures Loads(s, t, p)
    {
      LeafParts(s, t, p);
      NotZero(s, LeafOf(t, p));
    }
  }

  /** uvmalloc on a table under construction. */
  method Grow(vm: Vm, t: Pa, oldsz: nat, newsz: nat, xperm: Flags, ghost gs: seq<Segment>, ghost s0: State,
              ghost id: nat)
    returns (r: nat)
    requires Built(s0, vm.S(), t, Up(oldsz)) && Up(oldsz) + |vm.k.free| <= TOP && Other(id) !in s0.own
    requires AllLoadable(gs) && End(gs) <= oldsz && Image(vm.S(), t, gs, Up(oldsz))
    modifies vm
    ensures r == 0 ==> Built(s0, vm.S(), t, Up(oldsz))
    ensures r != 0 ==> r == if newsz < oldsz then oldsz else newsz
    ensures r != 0 ==> Built(s0, vm.S(), t, Up(r)) && Up(r) + |vm.k.free| <= TOP && Image(vm.S(), t, gs, Up(r))
    ensures r != 0 ==> forall p :: 0 <= p < Up(oldsz) ==> Leaf(vm.S(), t, p) == Leaf(old(vm.S()), t, p)
    ensures r != 0 ==> forall p :: Up(oldsz) <= p < Up(r) ==> Leaf(vm.S(), t, p).f == UserFlags(xperm)
  {
    hide Inv, Leaf, Sole, Image, Loaded, End, Loadable;
    ghost var s, ok := vm.S(), true;
    r, ok := vm.Uvmalloc(t, oldsz, newsz, xperm, id);
    if !ok {
      BuiltKept(s0, s, vm.S(), t, Up(oldsz));
    } else if newsz >= oldsz {
      UpMonotone(oldsz, newsz);
      BuiltExtended(s0, s, vm.S(), t, Up(oldsz), Up(newsz), UserFlags(xperm));
      UpCovers(oldsz);
      ImageGrown(s, vm.S(), t, gs, Up(oldsz), Up(newsz), UserFlags(xperm));
    }
  }

  lemma UpCovers(x: nat)
    ensures x <= Up(x) * PGSIZE
  {
  }

  /** One program header: what exec checks, uvmalloc and loadseg. */
  method LoadSegment(vm: Vm, t: Pa, oldsz: nat, g: Segment, ghost gs: seq<Segment>, ghost s0: State, ghost id: nat)
    returns (ok: bool, sz: nat)
    requires Ready(s0, vm.S(), t, gs, oldsz) && Other(id) !in s0.own && |g.data| <= Size(g)
    modifies vm
    ensures Built(s0, vm.S(), t, Up(sz))
    ensures ok ==> Ready(s0, vm.S(), t, gs + [g], sz)
  {
    hide Inv, Leaf, Sole, Image, Loaded, Built, Undisturbed, Wrote, Loads, Loadable;
    sz := oldsz;
    if g.memsz < g.filesz || (g.vaddr + g.memsz) % WORD < g.vaddr || g.vaddr % PGSIZE != 0 {
      return false, sz;
    }
    var r := Grow(vm, t, sz, (g.vaddr + g.memsz) % WORD, g.perm, gs, s0, id);
    if r == 0 {
      return false, sz;
    }
    sz := r;
    ghost var s := vm.S();
    OpenLoads(s0, s, t, Up(sz));
    UpMonotone(g.vaddr + Size(g), sz);
    var panic, loaded := Loadseg(vm, t, g.vaddr, g.data, Size(g), s0, Up(sz));
    assert !panic;
    BuiltStored(s0, s, vm.S(), t, Up(sz));
    if !loaded {
      return false, sz;
    }
    BuiltCovers(s0, s, t, Up(sz));
    ImageLoaded(s, vm.S(), t, gs, g, Up(sz));
    EndMore(gs, g);
    return true, sz;
  }

  /** The segments gs are loaded, and memory up to sz is the user's. */
  ghost predicate Ready(s0: State, s: State, t: Pa, gs: seq<Segment>, sz: nat) {
    && Built(s0, s, t, Up(sz)) && Open(s, t, Up(sz)) && Up(sz) + |s.k.free| <= TOP
    && AllLoadable(gs) && sz == End(gs) && Image(s, t, gs, Up(sz))
  }

  lemma EndMore(gs: seq<Segment>, g: Segment)
    requires AllLoadable(gs) && Loadable(g)
    ensures AllLoadable(gs + [g])
    ensures End(gs + [g]) == if g.vaddr + g.memsz < End(gs) then End(gs) else g.vaddr + g.memsz
  {
    assert (gs + [g])[..|gs|] == gs;
  }

  /** The loop over the program headers. On failure what there is so far can be freed. */
  method LoadSegments(vm: Vm, t: Pa, gs: seq<Segment>, ghost s0: State, ghost id: nat) returns (ok: bool, sz: nat)
    requires Built(s0, vm.S(), t, 0) && |vm.k.free| <= TOP && Other(id) !in s0.own
    requires forall i :: 0 <= i < |gs| ==> |gs[i].data| <= Size(gs[i])
    modifies vm
    ensures Built(s0, vm.S(), t, Up(sz))
    ensures ok ==> Ready(s0, vm.S(), t, gs, sz)
  {
    hide Inv, Leaf, Sole, Image, Loaded, Built, Open;
    sz := 0;
    ReadyNone(s0, vm.S(), t);
    hide Ready;
    for i := 0 to |gs|
      invariant Built(s0, vm.S(), t, Up(sz)) && Ready(s0, vm.S(), t, gs[..i], sz)
    {
      var done;
      done, sz := LoadSegment(vm, t, sz, gs[i], gs[..i], s0, id);
      if !done {
        return false, sz;
      }
      assert gs[..i + 1] == gs[..i] + [gs[i]];
    }
    assert gs[..|gs|] == gs;
    return true, sz;
  }

  lemma ReadyNone(s0: State, s: State, t: Pa)
    requires Built(s0, s, t, 0) && |s.k.free| <= TOP
    ensures Ready(s0, s, t, [], 0)
  {
    hide Inv, Leaf, Sole, Built;
  }

  lemma BuiltCovers(s0: State, s: State, t: Pa, n: nat)
    requires Built(s0, s, t, n)
    ensures Covers(s, t, n)
  {
    hide Inv, Leaf, Sole, Others;
  }

  // ---------------------------------------------------------------- the stack

  /** Of n pages, the last ones are the stack; the one below it is not the user's, the others are. */
  ghost predicate Stacked(s: State, t: Pa, n: nat) {
    && n > USERSTACK && Open(s, t, n - USERSTACK - 1)
    && Leaf(s, t, n - USERSTACK - 1).f.v && !Leaf(s, t, n - USERSTACK - 1).f.u
    && forall q :: n - USERSTACK <= q < n ==> Leaf(s, t, q).f == UserFlags(STACK_FLAGS)
  }

  /** The stack and its guard page, at the next page boundary. */
  method MakeStack(vm: Vm, t: Pa, oldsz: nat, ghost gs: seq<Segment>, ghost s0: State, ghost id: nat)
    returns (ok: bool, sz: nat)
    requires Ready(s0, vm.S(), t, gs, oldsz) && Other(id) !in s0.own
    modifies vm
    ensures Built(s0, vm.S(), t, Up(sz))
    ensures ok ==> AllLoadable(gs) && sz == (Up(End(gs)) + USERSTACK + 1) * PGSIZE
    ensures ok ==> Image(vm.S(), t, gs, Up(sz)) && Stacked(vm.S(), t, Up(sz))
  {
    hide Inv, Leaf, Sole, Image, Loaded, Built, End, LeafSet, AllLoadable;
    sz := Up(oldsz) * PGSIZE;
    UpCovers(oldsz);
    UpExact(Up(oldsz));
    var r := Grow(vm, t, sz, sz + (USERSTACK + 1) * PGSIZE, STACK_FLAGS, gs, s0, id);
    if r == 0 {
      return false, sz;
    }
    sz := r;
    UpExact(Up(oldsz) + USERSTACK + 1);
    ghost var s, n := vm.S(), Up(sz);
    BuiltParts(s0, s, t, n);
    LeafHasTable(s, t, n - USERSTACK - 1);
    BuiltSmall(s0, s, t, n);
    var panic := vm.Uvmclear(t, sz - (USERSTACK + 1) * PGSIZE);
    assert !panic;
    Guarded(s0, s, vm.S(), t, gs, n);
    return true, sz;
  }

  lemma BuiltSmall(s0: State, s: State, t: Pa, n: nat)
    requires Built(s0, s, t, n)
    ensures n <= TOP
  {
    hide Inv, Leaf, Sole, Others;
  }

  lemma Guarded(s0: State, s: State, s': State, t: Pa, gs: seq<Segment>, n: nat)
    requires n > USERSTACK && Built(s0, s, t, n) && Inv(s') && Image(s, t, gs, n) && Open(s, t, n - USERSTACK - 1)
    requires forall q :: n - USERSTACK - 1 <= q < n ==> Leaf(s, t, q).f == UserFlags(STACK_FLAGS)
    requires var p := n - USERSTACK - 1; LeafSet(s, s', t, p, Unprivileged(Leaf(s, t, p)))
    ensures Built(s0, s', t, n) && Image(s', t, gs, n) && Stacked(s', t, n)
  {
    hide Inv, Leaf, Sole, Others, Loaded;
    BuiltCleared(s0, s, s', t, n, n - USERSTACK - 1);
    forall va: nat | va < n * PGSIZE
      ensures ByteOf(s', t, va) == ByteOf(s, t, va)
    {
      LeafParts(s, t, va / PGSIZE);
    }
  }

  /** Copyout to the stack does not fail. */
  lemma StackReaches(s0: State, s: State, t: Pa, n: nat, lo: nat, hi: nat)
    requires Built(s0, s, t, n) && Stacked(s, t, n) && n - USERSTACK <= lo && hi <= n
    ensures Reaches(s, t, lo, hi)
  {
    hide Inv, Leaf, Sole, Others;
    NoCow(s0, s, t, n);
    assert Copies(s, t, lo, hi) == {} by {
      hide Cow;
    }
    forall p | lo <= p < hi
      ensures Usable(s, t, p)
    {
      LeafParts(s, t, p);
      NotZero(s, LeafOf(t, p));
    }
  }

  /** The guard page stops the kernel's copies too. */
  lemma GuardStops(s: State, t: Pa, n: nat)
    requires Stacked(s, t, n)
    ensures var p := n - USERSTACK - 1; !Loads(s, t, p) && forall lo: nat, hi :: lo <= p < hi ==> !Reaches(s, t, lo, hi)
  {
    hide Leaf;
    assert !Usable(s, t, n - USERSTACK - 1);
  }

  // ---------------------------------------------------------------- arguments

  function Align(x: int): int {
    x - x % 16
  }

  /** The stack pointer once the strings args are below top, each with its NUL. */
  function Sp(args: seq<seq<Byte>>, top: int): int {
    if args == [] then top else Align(Sp(args[..|args| - 1], top) - |args[|args| - 1]| - 1)
  }

  /** The same with the array of their addresses below that. */
  function Bottom(args: seq<seq<Byte>>, top: int): int {
    Align(Sp(args, top) - 8 * (|args| + 1))
  }

  lemma {:induction false} SpDown(args: seq<seq<Byte>>, i: nat, top: int)
    requires i <= |args|
    ensures Bottom(args, top) + 8 * (|args| + 1) <= Sp(args, top) <= Sp(args[..i], top) <= top
    decreases |args|
  {
    if i == |args| {
      assert args[..i] == args;
      if args != [] {
        SpDown(args[..i - 1], i - 1, top);
      }
    } else {
      SpDown(args[..|args| - 1], i, top);
      assert args[..|args| - 1][..i] == args[..i];
    }
  }

  lemma SpNext(args: seq<seq<Byte>>, i: nat, top: int)
    requires i < |args|
    ensures Sp(args[..i + 1], top) == Align(Sp(args[..i], top) - |args[i]| - 1)
    ensures Sp(args, top) <= Sp(args[..i + 1], top) && Sp(args[..i + 1], top) + |args[i]| + 1 <= Sp(args[..i], top) <= top
  {
    assert args[..i + 1][..i] == args[..i];
    SpDown(args, i + 1, top);
    SpDown(args, i, top);
  }

  ghost function BytesAt(s: State, t: Pa, va: nat, n: nat): (r: seq<Byte>)
    ensures |r| == n
  {
    seq<Byte>(n, k requires 0 <= k < n => ByteOf(s, t, va + k))
  }

  /** The address of string i. */
  function Address(args: seq<seq<Byte>>, i: nat, top: int): int
    requires i < |args|
  {
    Sp(args[..i + 1], top)
  }

  function Strings(args: seq<seq<Byte>>, i: nat): seq<Byte>
    requires i < |args|
  {
    args[i] + [0]
  }

  /** The strings args are in user memory below top, and us are their addresses. */
  ghost predicate Pushed(s: State, t: Pa, args: seq<seq<Byte>>, top: nat, us: seq<nat>) {
    && |us| == |args|
    && forall i :: 0 <= i < |args| ==>
         us[i] == Address(args, i, top) && BytesAt(s, t, us[i], |args[i]| + 1) == Strings(args, i)
  }

  /** A write below a range does not change it. */
  lemma BytesAbove(s: State, s': State, t: Pa, n: nat, lo: nat, data: seq<Byte>, va: nat, m: nat)
    requires Covers(s, t, n) && Wrote(s, s', t, lo, data) && lo + |data| <= va && va + m <= n * PGSIZE
    ensures BytesAt(s', t, va, m) == BytesAt(s, t, va, m)
  {
    hide ByteOf;
    forall k | 0 <= k < m
      ensures BytesAt(s', t, va, m)[k] == BytesAt(s, t, va, m)[k]
    {
      assert LeafOf(t, (va + k) / PGSIZE) in s.own;
    }
  }

  lemma BytesWritten(s: State, s': State, t: Pa, n: nat, lo: nat, data: seq<Byte>)
    requires Covers(s, t, n) && Wrote(s, s', t, lo, data) && lo + |data| <= n * PGSIZE
    ensures BytesAt(s', t, lo, |data|) == data
  {
    hide ByteOf;
    forall k | 0 <= k < |data|
      ensures BytesAt(s', t, lo, |data|)[k] == data[k]
    {
      assert LeafOf(t, (lo + k) / PGSIZE) in s.own;
    }
  }

  lemma PushedKept(s: State, s': State, t: Pa, n: nat, args: seq<seq<Byte>>, us: seq<nat>, lo: nat, data: seq<Byte>)
    requires Pushed(s, t, args, n * PGSIZE, us) && Covers(s, t, n) && Wrote(s, s', t, lo, data)
    requires lo + |data| <= Sp(args, n * PGSIZE)
    ensures Pushed(s', t, args, n * PGSIZE, us)
  {
    hide ByteOf, Sp, Wrote, Covers, BytesAt;
    forall i | 0 <= i < |args|
      ensures BytesAt(s', t, us[i], |args[i]| + 1) == BytesAt(s, t, us[i], |args[i]| + 1)
    {
      SpNext(args, i, n * PGSIZE);
      BytesAbove(s, s', t, n, lo, data, us[i], |args[i]| + 1);
    }
  }

  lemma PushedMore(s: State, s': State, t: Pa, n: nat, args: seq<seq<Byte>>, i: nat, us: seq<nat>, sp: nat)
    requires i < |args| && Pushed(s, t, args[..i], n * PGSIZE, us) && Covers(s, t, n)
    requires sp == Sp(args[..i + 1], n * PGSIZE) && Wrote(s, s', t, sp, Strings(args, i))
    ensures Pushed(s', t, args[..i + 1], n * PGSIZE, us + [sp])
  {
    hide Sp, Wrote, Covers, BytesAt;
    SpNext(args, i, n * PGSIZE);
    assert args[..i + 1][..i + 1] == args[..i + 1];
    PushedKept(s, s', t, n, args[..i], us, sp, Strings(args, i));
    BytesWritten(s, s', t, n, sp, Strings(args, i));
    forall j | 0 <= j < i
      ensures Address(args[..i + 1], j, n * PGSIZE) == Address(args[..i], j, n * PGSIZE)
    {
      assert args[..i + 1][..j + 1] == args[..i][..j + 1];
    }
  }

  // ---------------------------------------------------------------- addresses as bytes

  function Pow256(n: nat): nat {
    if n == 0 then 1 else 256 * Pow256(n - 1)
  }

  /** The n low bytes of x, the lowest first, and the number that bytes stand for. */
  function Little(x: nat, n: nat): (r: seq<Byte>)
    ensures |r| == n
  {
    if n == 0 then [] else [x % 256] + Little(x / 256, n - 1)
  }

  function Number(b: seq<Byte>): nat {
    if b == [] then 0 else b[0] + 256 * Number(b[1..])
  }

  lemma {:induction false} NumberOfLittle(x: nat, n: nat)
    requires x < Pow256(n)
    ensures Number(Little(x, n)) == x
  {
    if n > 0 {
      NumberOfLittle(x / 256, n - 1);
      assert Little(x, n)[1..] == Little(x / 256, n - 1);
    }
  }

  /** The words us, as they are in memory. */
  function Pointers(us: seq<nat>): (r: seq<Byte>)
    ensures |r| == 8 * |us|
  {
    if us == [] then [] else Pointers(us[..|us| - 1]) + Little(us[|us| - 1], 8)
  }

  function WordOf(b: seq<Byte>, i: nat): (r: seq<Byte>)
    requires 8 * i + 8 <= |b|
  {
    b[8 * i..8 * i + 8]
  }

  lemma {:induction false} PointersAt(us: seq<nat>, i: nat)
    requires i < |us|
    ensures WordOf(Pointers(us), i) == Little(us[i], 8)
    decreases |us|
  {
    if i < |us| - 1 {
      PointersAt(us[..|us| - 1], i);
    }
  }

  /** The array at va holds the words us. */
  ghost predicate Array(s: State, t: Pa, va: nat, us: seq<nat>) {
    forall i :: 0 <= i < |us| ==> Number(BytesAt(s, t, va + 8 * i, 8)) == us[i]
  }

  lemma ArrayWritten(s: State, t: Pa, va: nat, us: seq<nat>)
    requires BytesAt(s, t, va, 8 * |us|) == Pointers(us) && forall i :: 0 <= i < |us| ==> us[i] < WORD
    ensures Array(s, t, va, us)
  {
    hide BytesAt, Little, Number, Pointers;
    forall i | 0 <= i < |us|
      ensures Number(BytesAt(s, t, va + 8 * i, 8)) == us[i]
    {
      WordWritten(s, t, va, us, i);
    }
  }

  lemma WordWritten(s: State, t: Pa, va: nat, us: seq<nat>, i: nat)
    requires BytesAt(s, t, va, 8 * |us|) == Pointers(us) && i < |us| && us[i] < WORD
    ensures Number(BytesAt(s, t, va + 8 * i, 8)) == us[i]
  {
    hide BytesAt, Pointers, Number, WordOf, Little, Pow256;
    WordSize();
    NumberOfLittle(us[i], 8);
    PointersAt(us, i);
    BytesPart(s, t, va, Pointers(us), i);
  }

  lemma BytesPart(s: State, t: Pa, va: nat, whole: seq<Byte>, i: nat)
    requires BytesAt(s, t, va, |whole|) == whole && 8 * i + 8 <= |whole|
    ensures BytesAt(s, t, va + 8 * i, 8) == WordOf(whole, i)
  {
    hide ByteOf;
    var part := BytesAt(s, t, va + 8 * i, 8);
    forall k | 0 <= k < 8
      ensures part[k] == whole[8 * i + k]
    {
      assert BytesAt(s, t, va, |whole|)[8 * i + k] == ByteOf(s, t, va + (8 * i + k));
    }
    assert part == WordOf(whole, i);
  }

  lemma WordSize()
    ensures Pow256(8) == WORD
  {
    assert Pow256(4) == 0x1_0000_0000;
  }

  // ---------------------------------------------------------------- exec

  /** The new table has the segments gs and a stack, n pages in all. */
  ghost predicate Stage(s0: State, s: State, t: Pa, gs: seq<Segment>, n: nat) {
    Built(s0, s, t, n) && Stacked(s, t, n) && Image(s, t, gs, n - USERSTACK)
  }

  /** What exec needs of the current process, to copy to another table and then to free its own. */
  ghost predicate Current(s: State, cur: Pa, sz: nat) {
    && NodeOf(cur, Root) in s.own && CowCounted(s, cur) && Up(sz) <= TOP && Sized(s, cur, Up(sz))
    && forall p :: TOP <= p < PAGES ==> Leaf(s, cur, p).f.v && LeafOf(cur, p) !in s.own
  }

  /** A copyout to the stack: it does not fail. */
  method Poke(vm: Vm, t: Pa, cur: Pa, va: nat, data: seq<Byte>, ghost gs: seq<Segment>, ghost n: nat, ghost s0: State,
              ghost id: nat)
    requires Stage(s0, vm.S(), t, gs, n) && (n - USERSTACK) * PGSIZE <= va && va + |data| <= n * PGSIZE
    requires NodeOf(cur, Root) in s0.own && CowCounted(s0, cur) && Other(id) !in s0.own && Other(id + 1) !in s0.own
    modifies vm
    ensures Stage(s0, vm.S(), t, gs, n) && Wrote(old(vm.S()), vm.S(), t, va, data) && Covers(old(vm.S()), t, n)
  {
    hide Inv, Leaf, Sole, Wrote, Undisturbed, Reaches, Copyable, CowCounted;
    ghost var s := vm.S();
    BuiltCopyable(s0, s, t, n, cur);
    InPages(va, |data|, n);
    StackReaches(s0, s, t, n, va / PGSIZE, if data == [] then va / PGSIZE else Up(va + |data|));
    var r, m := vm.Copyout(t, cur, va, data, id);
    assert r == 0 && data[..m] == data;
    Staged(s0, s, vm.S(), t, gs, n, va, data);
  }

  lemma InPages(va: nat, m: nat, n: nat)
    requires n > USERSTACK && (n - USERSTACK) * PGSIZE <= va && va + m <= n * PGSIZE
    ensures n - USERSTACK <= va / PGSIZE <= n && Up(va + m) <= n
  {
  }

  lemma Staged(s0: State, s: State, s': State, t: Pa, gs: seq<Segment>, n: nat, va: nat, data: seq<Byte>)
    requires Stage(s0, s, t, gs, n) && Inv(s') && Undisturbed(s, s', t) && Wrote(s, s', t, va, data)
    requires (n - USERSTACK) * PGSIZE <= va
    ensures Stage(s0, s', t, gs, n)
  {
    hide Inv, Leaf, Sole, Undisturbed, Others, Loaded, ByteOf;
    BuiltStored(s0, s, s', t, n);
    forall x: nat | x < (n - USERSTACK) * PGSIZE
      ensures ByteOf(s', t, x) == ByteOf(s, t, x)
    {
      assert LeafOf(t, x / PGSIZE) in s.own;
    }
  }

  /** The strings, and the array of their addresses. It fails if and only if there are too many, or
      they do not fit on the stack. */
  method PushArgs(vm: Vm, t: Pa, cur: Pa, args: seq<seq<Byte>>, sz: nat, ghost gs: seq<Segment>, ghost s0: State,
                  ghost id: nat)
    returns (ok: bool, sp: nat, us: seq<nat>)
    requires Stage(s0, vm.S(), t, gs, Up(sz)) && sz % PGSIZE == 0
    requires NodeOf(cur, Root) in s0.own && CowCounted(s0, cur) && Other(id) !in s0.own && Other(id + 1) !in s0.own
    requires |args| != MAXARG && forall i :: 0 <= i < |args| ==> |args[i]| < PGSIZE
    modifies vm
    ensures Stage(s0, vm.S(), t, gs, Up(sz))
    ensures ok <==> |args| < MAXARG && Bottom(args, sz) >= sz - USERSTACK * PGSIZE
    ensures ok ==> sp == Bottom(args, sz) && Pushed(vm.S(), t, args, sz, us) && Array(vm.S(), t, sp, us + [0])
  {
    hide Stage, Pushed, Array, Wrote, Covers, Sp, CowCounted;
    us := [];
    sp := sz;
    ghost var n := Up(sz);
    StageSize(s0, vm.S(), t, gs, sz);
    var stackbase := sp - USERSTACK * PGSIZE;
    PushedNone(vm.S(), t, args, sz);
    for argc := 0 to |args|
      invariant Stage(s0, vm.S(), t, gs, n) && argc <= MAXARG
      invariant sp == Sp(args[..argc], sz) >= stackbase && Pushed(vm.S(), t, args[..argc], sz, us)
    {
      SpNext(args, argc, sz);
      SpDown(args, argc, sz);
      if argc >= MAXARG {
        return false, 0, [];
      }
      sp := sp - (|args[argc]| + 1);
      sp := sp - sp % 16;
      if sp < stackbase {
        return false, 0, [];
      }
      ghost var s := vm.S();
      Poke(vm, t, cur, sp, args[argc] + [0], gs, Up(sz), s0, id);
      PushedMore(s, vm.S(), t, n, args, argc, us, sp);
      us := us + [sp];
    }
    assert args[..|args|] == args;
    SpDown(args, |args|, sz);
    ok, sp := PushArray(vm, t, cur, args, sz, sp, us, gs, s0, id);
  }

  method PushArray(vm: Vm, t: Pa, cur: Pa, args: seq<seq<Byte>>, sz: nat, top: nat, us: seq<nat>,
                   ghost gs: seq<Segment>, ghost s0: State, ghost id: nat)
    returns (ok: bool, sp: nat)
    requires Stage(s0, vm.S(), t, gs, Up(sz)) && sz % PGSIZE == 0 && |args| < MAXARG
    requires NodeOf(cur, Root) in s0.own && CowCounted(s0, cur) && Other(id) !in s0.own && Other(id + 1) !in s0.own
    requires top == Sp(args, sz) && sz - USERSTACK * PGSIZE <= top && Pushed(vm.S(), t, args, sz, us)
    modifies vm
    ensures Stage(s0, vm.S(), t, gs, Up(sz))
    ensures ok <==> Bottom(args, sz) >= sz - USERSTACK * PGSIZE
    ensures ok ==> sp == Bottom(args, sz) && Pushed(vm.S(), t, args, sz, us) && Array(vm.S(), t, sp, us + [0])
  {
    hide Stage, Pushed, Array, Wrote, Covers, Sp, CowCounted, BytesAt;
    StageSize(s0, vm.S(), t, gs, sz);
    SpDown(args, |args|, sz);
    PushedBelow(vm.S(), t, args, sz, us);
    sp := top - (|args| + 1) * 8;
    sp := sp - sp % 16;
    if sp < sz - USERSTACK * PGSIZE {
      return false, 0;
    }
    ghost var s := vm.S();
    var data := Pointers(us + [0]);
    Poke(vm, t, cur, sp, data, gs, Up(sz), s0, id);
    PushedKept(s, vm.S(), t, Up(sz), args, us, sp, data);
    BytesWritten(s, vm.S(), t, Up(sz), sp, data);
    ArrayWritten(vm.S(), t, sp, us + [0]);
    return true, sp;
  }

  lemma StageSize(s0: State, s: State, t: Pa, gs: seq<Segment>, sz: nat)
    requires Stage(s0, s, t, gs, Up(sz)) && sz % PGSIZE == 0
    ensures sz == Up(sz) * PGSIZE && USERSTACK < Up(sz) <= TOP
  {
    hide Inv, Leaf, Sole, Others, Image;
  }

  lemma PushedNone(s: State, t: Pa, args: seq<seq<Byte>>, top: nat)
    ensures args[..0] == [] && Pushed(s, t, args[..0], top, []) && Sp(args[..0], top) == top
  {
    hide BytesAt;
  }

  lemma PushedBelow(s: State, t: Pa, args: seq<seq<Byte>>, top: nat, us: seq<nat>)
    requires Pushed(s, t, args, top, us) && top <= TOP * PGSIZE
    ensures |us| == |args| && forall i :: 0 <= i < |us + [0]| ==> (us + [0])[i] < WORD
  {
    hide BytesAt, Sp;
    forall i | 0 <= i < |us|
      ensures us[i] <= top
    {
      SpNext(args, i, top);
    }
  }

  /** The memory of the program that exec starts: the segments, then the guard page, then the stack
      with the strings args and the array of their addresses at the stack pointer. */
  ghost predicate Started(s: State, t: Pa, gs: seq<Segment>, args: seq<seq<Byte>>, sz: nat, sp: nat, us: seq<nat>) {
    && AllLoadable(gs) && sz == (Up(End(gs)) + USERSTACK + 1) * PGSIZE
    && Pages(s, t, Up(sz)) && Stacked(s, t, Up(sz)) && Image(s, t, gs, Up(sz) - USERSTACK)
    && sp == Bottom(args, sz) >= sz - USERSTACK * PGSIZE && Pushed(s, t, args, sz, us) && Array(s, t, sp, us + [0])
  }

  /** Table t has taken the place of cur; every other reference, entry and page is as it was. */
  ghost predicate Replaced(s0: State, s: State, cur: Pa, t: Pa) {
    && (forall a :: a in s0.own && (a.Other? || a.t != cur) ==> a in s.own && s.own[a] == s0.own[a])
    && (forall a :: a in s.own ==> (a.Other? || a.t != cur) && (a in s0.own || (!a.Other? && a.t == t)))
    && (forall a :: a in s0.own && (a.Other? || a.t != cur) && !a.NodeOf? && s0.own[a] in s0.mem ==>
          s0.own[a] in s.mem && s.mem[s0.own[a]] == s0.mem[s0.own[a]])
    && (forall u: Pa, q: nat :: u != t && u != cur ==> Leaf(s, u, q) == Leaf(s0, u, q))
  }

  lemma CurrentKept(s0: State, s: State, t: Pa, cur: Pa, sz: nat)
    requires Others(s0, s, t) && Current(s0, cur, sz)
    ensures Current(s, cur, sz) && cur != t
  {
    hide Leaf;
    assert cur != t;
    forall p: nat
      ensures Leaf(s, cur, p) == Leaf(s0, cur, p) && (LeafOf(cur, p) in s.own <==> LeafOf(cur, p) in s0.own)
    {
    }
  }

  lemma BytesFreed(s: State, s': State, t: Pa, cur: Pa)
    requires Inv(s) && Freed(s, s', cur) && t != cur
    ensures forall va: nat :: ByteOf(s', t, va) == ByteOf(s, t, va)
    ensures forall va: nat, n: nat :: BytesAt(s', t, va, n) == BytesAt(s, t, va, n)
  {
    hide Leaf, Inv;
    forall va: nat
      ensures ByteOf(s', t, va) == ByteOf(s, t, va)
    {
      assert LeafOf(t, va / PGSIZE) in s'.own <==> LeafOf(t, va / PGSIZE) in s.own;
      if LeafOf(t, va / PGSIZE) in s.own {
        LeafParts(s, t, va / PGSIZE);
      }
    }
    hide ByteOf;
  }

  lemma StartedFreed(s: State, s': State, t: Pa, cur: Pa, gs: seq<Segment>, args: seq<seq<Byte>>, sz: nat, sp: nat,
                     us: seq<nat>)
    requires Inv(s) && Started(s, t, gs, args, sz, sp, us) && Freed(s, s', cur) && t != cur
    ensures Started(s', t, gs, args, sz, sp, us)
  {
    hide Inv, Leaf, ByteOf, BytesAt, Number, Sp, End, Loaded;
    BytesFreed(s, s', t, cur);
    assert NodeOf(t, Root) in s'.own;
    forall q: nat
      ensures Leaf(s', t, q) == Leaf(s, t, q) && (LeafOf(t, q) in s'.own <==> LeafOf(t, q) in s.own)
    {
    }
  }

  lemma ReplacedFreed(s0: State, s: State, s': State, cur: Pa, t: Pa)
    requires Others(s0, s, t) && Freed(s, s', cur) && t != cur
    ensures Replaced(s0, s', cur, t)
  {
    hide Leaf;
  }

  /** exec, with the program headers gs of the file. On failure every reference is as it was. The
      strings come from sys_exec, which allows less than a page for each. It also keeps them fewer
      than MAXARG; with exactly as many, exec would store the final 0 beyond the end of ustack. */
  method Exec(vm: Vm, cur: Pa, oldsz: nat, gs: seq<Segment>, args: seq<seq<Byte>>, trampoline: Pa, trapframe: Pa,
              ghost id: nat)
    returns (ok: bool, t: Pa, sz: nat, sp: nat, us: seq<nat>)
    requires Inv(vm.S()) && Current(vm.S(), cur, oldsz) && |vm.k.free| <= TOP
    requires Other(id) !in vm.own && Other(id + 1) !in vm.own
    requires forall i :: 0 <= i < |gs| ==> |gs[i].data| <= Size(gs[i])
    requires |args| != MAXARG && forall i :: 0 <= i < |args| ==> |args[i]| < PGSIZE
    modifies vm
    ensures Inv(vm.S())
    ensures !ok ==> SameRefs(old(vm.S()), vm.S())
    ensures ok ==> Started(vm.S(), t, gs, args, sz, sp, us) && Replaced(old(vm.S()), vm.S(), cur, t)
    ensures ok ==> |args| < MAXARG
  {
    hide Inv, Leaf, Kept, KernelMapped, Sized, SameRefs, Current, Ready, Pages, Others, Stacked, Image, Freed, Started,
         Replaced, Pushed, Array, CowCounted;
    ghost var s0 := vm.S();
    sz, sp, us := 0, 0, [];
    ok, t := vm.ProcPagetable(trampoline, trapframe);
    if !ok {
      return;
    }
    BuiltNew(s0, vm.S(), t, trampoline, trapframe);
    ok, sz := LoadSegments(vm, t, gs, s0, id);
    if ok {
      ok, sz := MakeStack(vm, t, sz, gs, s0, id);
    }
    if ok {
      StageMade(s0, vm.S(), t, gs, sz);
      CurrentParts(s0, cur, oldsz);
      ok, sp, us := PushArgs(vm, t, cur, args, sz, gs, s0, id);
    }
    if !ok {
      Discard(vm, t, sz, s0);
      return;
    }
    StartedNow(s0, vm.S(), t, gs, args, sz, sp, us);
    Commit(vm, t, cur, oldsz, gs, args, sz, sp, us, s0);
  }

  lemma StageMade(s0: State, s: State, t: Pa, gs: seq<Segment>, sz: nat)
    requires Built(s0, s, t, Up(sz)) && Stacked(s, t, Up(sz)) && Image(s, t, gs, Up(sz))
    ensures Stage(s0, s, t, gs, Up(sz))
  {
    hide Built, Leaf, ByteOf, Loaded;
  }

  lemma CurrentParts(s: State, cur: Pa, sz: nat)
    requires Current(s, cur, sz)
    ensures NodeOf(cur, Root) in s.own && CowCounted(s, cur)
  {
    hide Leaf;
  }

  lemma StartedNow(s0: State, s: State, t: Pa, gs: seq<Segment>, args: seq<seq<Byte>>, sz: nat, sp: nat, us: seq<nat>)
    requires Stage(s0, s, t, gs, Up(sz)) && AllLoadable(gs) && sz == (Up(End(gs)) + USERSTACK + 1) * PGSIZE
    requires sp == Bottom(args, sz) >= sz - USERSTACK * PGSIZE && Pushed(s, t, args, sz, us) && Array(s, t, sp, us + [0])
    ensures Built(s0, s, t, Up(sz)) && Started(s, t, gs, args, sz, sp, us)
  {
    hide Inv, Others, Pages, Stacked, Image, Pushed, Array, Bottom, End;
  }

  /** The new table becomes that of the process, and the old one is freed. */
  method Commit(vm: Vm, ghost t: Pa, cur: Pa, oldsz: nat, ghost gs: seq<Segment>, ghost args: seq<seq<Byte>>,
                ghost sz: nat, ghost sp: nat, ghost us: seq<nat>, ghost s0: State)
    requires Built(s0, vm.S(), t, Up(sz)) && Started(vm.S(), t, gs, args, sz, sp, us) && Current(s0, cur, oldsz)
    modifies vm
    ensures Inv(vm.S()) && Started(vm.S(), t, gs, args, sz, sp, us) && Replaced(s0, vm.S(), cur, t)
  {
    hide Inv, Leaf, Pages, Others, Freed, Started, Replaced;
    ghost var s := vm.S();
    CurrentKept(s0, s, t, cur, oldsz);
    var freed := vm.ProcFreepagetable(cur, oldsz);
    assert freed;
    StartedFreed(s, vm.S(), t, cur, gs, args, sz, sp, us);
    ReplacedFreed(s0, s, vm.S(), cur, t);
  }
}
