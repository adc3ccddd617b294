/** Sv39 page tables in physical memory, and who refers to which physical page.

    A table is a tree of pages: a root, middle tables and low tables, of 512 entries each. What it
    means is the function `Leaf`, from virtual page numbers to the entries of the low tables. */
module PageTable {
  import opened Frames
  import opened Params
  import Kalloc


  const PTES: nat := 512
  const MAXVA: nat := 0x40_0000_0000
  const PAGES: nat := MAXVA / PGSIZE

  datatype Flags = Flags(v: bool, r: bool, w: bool, x: bool, u: bool, cow: bool)
  datatype Pte = Pte(ppn: Pa, f: Flags)

  const NONE: Pte := Pte(0, Flags(false, false, false, false, false, false))

  /** An entry that points to a table of the next level. */
  function Link(pa: Pa): Pte {
    Pte(pa, Flags(true, false, false, false, false, false))
  }

  predicate Leafy(e: Pte) {
    e.f.r || e.f.w || e.f.x
  }

  datatype Page = Table(ptes: seq<Pte>) | Data(bytes: seq<Byte>)

  /** A table without a valid entry. */
  function Empty(): (r: seq<Pte>)
    ensures |r| == PTES && forall i :: 0 <= i < PTES ==> r[i] == NONE
  {
    seq(PTES, _ => NONE)
  }

  datatype Node = Root | Mid(i: nat) | Low(i: nat, j: nat)

  function Child(n: Node, k: nat): Node
    requires !n.Low?
  {
    if n.Root? then Mid(k) else Low(n.i, k)
  }

  /** The table of the given level on the way to virtual page p. */
  function NodeAt(level: nat, p: nat): Node
    requires level <= 2
  {
    if level == 2 then Root else if level == 1 then Mid(p / 0x40000) else Low(p / 0x40000, p / 512 % 512)
  }

  /** PX: the index into that table. */
  function Px(level: nat, p: nat): nat
    requires level <= 2
  {
    (if level == 2 then p / 0x40000 else if level == 1 then p / 512 else p) % 512
  }

  /** A reference to a physical page: from a table to one of its tables or user pages, or from the
      kernel. A table is named by its root page. */
  datatype Token = NodeOf(t: Pa, n: Node) | LeafOf(t: Pa, p: nat) | Other(id: nat)

  datatype State = State(mem: map<Pa, Page>, k: Kmem, own: map<Token, Pa>)

  function Ptes(mem: map<Pa, Page>, pa: Pa): (r: seq<Pte>)
    ensures |r| == PTES
  {
    if pa in mem && mem[pa].Table? && |mem[pa].ptes| == PTES then mem[pa].ptes else Empty()
  }

  /** What table t says of virtual page p. */
  ghost function Leaf(s: State, t: Pa, p: nat): Pte {
    if NodeOf(t, NodeAt(0, p)) in s.own then Ptes(s.mem, s.own[NodeOf(t, NodeAt(0, p))])[p % 512] else NONE
  }

  /** The page of a table node is a table, and the node alone refers to it. The upper half of the
      root is not used, because MAXVA is half of what Sv39 can address. */
  ghost predicate NodeIn(s: State, t: Pa, n: Node)
    requires NodeOf(t, n) in s.own
  {
    var pa := s.own[NodeOf(t, n)];
    && pa in s.mem && s.mem[pa].Table? && |s.mem[pa].ptes| == PTES
    && Sole(s.own, NodeOf(t, n))
    && (n.Root? ==> pa == t)
    && (n.Mid? ==> n.i < PTES / 2 && NodeOf(t, Root) in s.own)
    && (n.Low? ==> n.i < PTES / 2 && n.j < PTES && NodeOf(t, Mid(n.i)) in s.own)
  }

  /** The entries of a table node: its valid entries are the links to its child nodes, or, in a low
      table, leaves. */
  ghost predicate Linked(s: State, t: Pa, n: Node)
    requires NodeOf(t, n) in s.own
  {
    forall k :: 0 <= k < PTES ==> EntryOk(s, t, n, k, Ptes(s.mem, s.own[NodeOf(t, n)])[k])
  }

  ghost predicate EntryOk(s: State, t: Pa, n: Node, k: nat, e: Pte) {
    if n.Low? then LeafWord(e)
    else if NodeOf(t, Child(n, k)) in s.own then e == Link(s.own[NodeOf(t, Child(n, k))])
    else !e.f.v
  }

  /** What a low table holds: leaves, and zero words. */
  predicate LeafWord(e: Pte) {
    if e.f.v then Leafy(e) else e == NONE
  }

  /** A counted user page: it is mapped, readable and holds data, and if it can be written it is not shared. */
  ghost predicate LeafIn(s: State, t: Pa, p: nat)
    requires LeafOf(t, p) in s.own
  {
    var pa, e := s.own[LeafOf(t, p)], Leaf(s, t, p);
    && p < PAGES && e.f.v && e.f.r && e.ppn == pa && pa in s.mem && s.mem[pa].Data? && |s.mem[pa].bytes| == PGSIZE
    && (e.f.w ==> !e.f.cow && Sole(s.own, LeafOf(t, p)))
  }

  /** The invariant, outside the tables in `dead`, which are being torn down. */
  ghost predicate InvBut(s: State, dead: set<Token>) {
    && Steady(s.k, s.own)
    && (forall t, n :: NodeOf(t, n) in s.own ==> NodeIn(s, t, n))
    && (forall t, n :: NodeOf(t, n) in s.own && NodeOf(t, n) !in dead ==> Linked(s, t, n))
    && (forall t, p :: LeafOf(t, p) in s.own ==> LeafIn(s, t, p))
  }

  ghost predicate Inv(s: State) {
    InvBut(s, {})
  }

  ghost predicate SameLeaves(s: State, s': State) {
    forall t, p :: Leaf(s', t, p) == Leaf(s, t, p)
  }

  /** Only table t has new nodes; every other reference, and the page it refers to, is as it was. */
  ghost predicate Kept(s: State, s': State, t: Pa) {
    && (forall a :: a in s.own ==> a in s'.own && s'.own[a] == s.own[a])
    && (forall a :: a in s'.own && a !in s.own ==> a.NodeOf? && a.t == t)
    && (forall a :: a in s.own && !a.NodeOf? && s.own[a] in s.mem ==>
          s.own[a] in s'.mem && s'.mem[s.own[a]] == s.mem[s.own[a]])
  }

  // ---------------------------------------------------------------- new tables

  /** A new empty table, as entry x of node n. */
  ghost function Grown(s: State, t: Pa, n: Node, x: nat): State
    requires s.k.free != [] && NodeOf(t, n) in s.own && !n.Low? && x < PTES
  {
    var pa, at := s.k.free[0], s.own[NodeOf(t, n)];
    State(s.mem[pa := Table(Empty())][at := Table(Ptes(s.mem, at)[x := Link(pa)])],
          Frames.Kalloc(s.k), s.own[NodeOf(t, Child(n, x)) := pa])
  }

  lemma GrownPages(s: State, t: Pa, n: Node, x: nat)
    requires Inv(s) && s.k.free != [] && NodeOf(t, n) in s.own && !n.Low? && x < PTES && (n.Root? ==> x < PTES / 2)
    requires NodeOf(t, Child(n, x)) !in s.own
    ensures var s' := Grown(s, t, n, x); var c := NodeOf(t, Child(n, x));
      && Steady(s'.k, s'.own) && Sole(s'.own, c)
      && (forall a :: Sole(s.own, a) ==> Sole(s'.own, a))
      && (forall a :: a in s.own ==> s.own[a] != s'.own[c])
      && (forall a :: a in s.own && a != NodeOf(t, n) && s.own[a] in s.mem ==>
            s.own[a] in s'.mem && s'.mem[s.own[a]] == s.mem[s.own[a]])
  {
    hide Consistent, Linked, LeafIn, Ptes;
    var nowhere: map<Token, Pa> := map[];
    KallocKeeps(s.k, s.own, nowhere, NodeOf(t, Child(n, x)));
    SoleInsert(s.own, NodeOf(t, Child(n, x)), s.k.free[0]);
    assert NodeIn(s, t, n);
  }

  lemma GrownKeeps(s: State, t: Pa, n: Node, x: nat)
    requires Inv(s) && s.k.free != [] && NodeOf(t, n) in s.own && !n.Low? && x < PTES && (n.Root? ==> x < PTES / 2)
    requires NodeOf(t, Child(n, x)) !in s.own
    ensures var s' := Grown(s, t, n, x); Inv(s') && SameLeaves(s, s') && Kept(s, s', t)
  {
    var s' := Grown(s, t, n, x);
    GrownPages(s, t, n, x);
    GrownNodes(s, t, n, x);
    GrownLinks(s, t, n, x);
    GrownLeaves(s, t, n, x);
    hide Sole, Steady, Linked, NodeIn, LeafIn, Grown, Leaf;
  }

  lemma GrownNodes(s: State, t: Pa, n: Node, x: nat)
    requires Inv(s) && s.k.free != [] && NodeOf(t, n) in s.own && !n.Low? && x < PTES && (n.Root? ==> x < PTES / 2)
    requires NodeOf(t, Child(n, x)) !in s.own
    ensures var s' := Grown(s, t, n, x);
      forall u, m :: NodeOf(u, m) in s'.own ==> NodeIn(s', u, m)
  {
    hide Steady, Linked, LeafIn, Ptes;
    GrownPages(s, t, n, x);
    hide Sole;
  }

  lemma GrownLinks(s: State, t: Pa, n: Node, x: nat)
    requires Inv(s) && s.k.free != [] && NodeOf(t, n) in s.own && !n.Low? && x < PTES && (n.Root? ==> x < PTES / 2)
    requires NodeOf(t, Child(n, x)) !in s.own
    ensures var s' := Grown(s, t, n, x);
      forall u, m :: NodeOf(u, m) in s'.own ==> Linked(s', u, m)
  {
    hide Steady, LeafIn;
    GrownPages(s, t, n, x);
    hide Sole;
    var s' := Grown(s, t, n, x);
    forall u, m | NodeOf(u, m) in s'.own
      ensures Linked(s', u, m)
    {
      forall i | 0 <= i < PTES
        ensures EntryOk(s', u, m, i, Ptes(s'.mem, s'.own[NodeOf(u, m)])[i])
      {
        if NodeOf(u, m) in s.own {
          assert EntryOk(s, u, m, i, Ptes(s.mem, s.own[NodeOf(u, m)])[i]);
        }
      }
    }
  }

  lemma GrownLeaves(s: State, t: Pa, n: Node, x: nat)
    requires Inv(s) && s.k.free != [] && NodeOf(t, n) in s.own && !n.Low? && x < PTES && (n.Root? ==> x < PTES / 2)
    requires NodeOf(t, Child(n, x)) !in s.own
    ensures var s' := Grown(s, t, n, x);
      SameLeaves(s, s') && forall u, p :: LeafOf(u, p) in s'.own ==> LeafIn(s', u, p)
  {
    hide Steady, Linked;
    GrownPages(s, t, n, x);
    hide Sole;
    var s' := Grown(s, t, n, x);
    forall u, p
      ensures Leaf(s', u, p) == Leaf(s, u, p)
    {
    }
  }

  /** uvmcreate: a table with no entry, on a page of its own. */
  ghost function Created(s: State): State
    requires s.k.free != []
  {
    var pa := s.k.free[0];
    State(s.mem[pa := Table(Empty())], Frames.Kalloc(s.k), s.own[NodeOf(pa, Root) := pa])
  }

  lemma UnusedName(s: State)
    requires Inv(s) && s.k.free != []
    ensures forall n :: NodeOf(s.k.free[0], n) !in s.own
    ensures forall p :: LeafOf(s.k.free[0], p) !in s.own
  {
    hide Steady, Linked, Sole, Ptes;
    var pa := s.k.free[0];
    if NodeOf(pa, Root) in s.own {
      assert NodeIn(s, pa, Root);
      Kalloc.OwnedUnlisted(s.k, s.own, s.own[NodeOf(pa, Root)]);
    }
    assert NodeOf(pa, Root) !in s.own;
  }

  lemma CreatedPages(s: State)
    requires Inv(s) && s.k.free != []
    ensures var s' := Created(s); var c := NodeOf(s.k.free[0], Root);
      && Steady(s'.k, s'.own) && Sole(s'.own, c) && c !in s.own
      && (forall a :: Sole(s.own, a) ==> Sole(s'.own, a))
      && (forall a :: a in s.own ==> s.own[a] != s.k.free[0])
  {
    hide Consistent, Linked, LeafIn, NodeIn;
    UnusedName(s);
    var nowhere: map<Token, Pa> := map[];
    KallocKeeps(s.k, s.own, nowhere, NodeOf(s.k.free[0], Root));
    SoleInsert(s.own, NodeOf(s.k.free[0], Root), s.k.free[0]);
  }

  lemma CreatedKeeps(s: State)
    requires Inv(s) && s.k.free != []
    ensures var s' := Created(s);
      Inv(s') && SameLeaves(s, s') && Kept(s, s', s.k.free[0])
  {
    var s', t := Created(s), s.k.free[0];
    CreatedPages(s);
    UnusedName(s);
    CreatedNodes(s);
    hide Steady, Sole, NodeIn, Linked;
    assert forall u, p :: Leaf(s', u, p) == Leaf(s, u, p);
    hide Leaf;
    forall u, p | LeafOf(u, p) in s'.own
      ensures LeafIn(s', u, p)
    {
      assert LeafIn(s, u, p);
    }
  }

  lemma CreatedNodes(s: State)
    requires Inv(s) && s.k.free != []
    ensures var s' := Created(s);
      forall u, m :: NodeOf(u, m) in s'.own ==> NodeIn(s', u, m) && Linked(s', u, m)
  {
    var s', t := Created(s), s.k.free[0];
    CreatedPages(s);
    UnusedName(s);
    hide Steady, Sole, LeafIn, Leaf;
    forall u, m | NodeOf(u, m) in s'.own
      ensures NodeIn(s', u, m) && Linked(s', u, m)
    {
      if u != t {
        assert NodeIn(s, u, m) && Linked(s, u, m);
      }
      forall i | 0 <= i < PTES
        ensures EntryOk(s', u, m, i, Ptes(s'.mem, s'.own[NodeOf(u, m)])[i])
      {
        if u != t {
          assert EntryOk(s, u, m, i, Ptes(s.mem, s.own[NodeOf(u, m)])[i]);
        }
      }
    }
  }

  // ---------------------------------------------------------------- entries

  /** Entry p of table t, whose low table exists, becomes e. */
  ghost function SetLeaf(s: State, t: Pa, p: nat, e: Pte): State
    requires NodeOf(t, NodeAt(0, p)) in s.own
  {
    var at := s.own[NodeOf(t, NodeAt(0, p))];
    s.(mem := s.mem[at := Table(Ptes(s.mem, at)[p % 512 := e])])
  }

  lemma OnePage(p: nat, q: nat)
    requires NodeAt(0, p) == NodeAt(0, q) && p % 512 == q % 512
    ensures p == q
  {
    assert p / 512 == p / 0x40000 * 512 + p / 512 % 512;
    assert q / 512 == q / 0x40000 * 512 + q / 512 % 512;
  }

  /** Only entry p of table t differs, and every reference and every user page is as it was. */
  ghost predicate LeafSet(s: State, s': State, t: Pa, p: nat, e: Pte) {
    && s'.own == s.own && s'.k == s.k
    && (forall u, q :: Leaf(s', u, q) == if u == t && q == p then e else Leaf(s, u, q))
    && (forall a :: a in s.own && !a.NodeOf? && s.own[a] in s.mem ==>
          s.own[a] in s'.mem && s'.mem[s.own[a]] == s.mem[s.own[a]])
  }

  lemma SetLeafChanges(s: State, t: Pa, p: nat, e: Pte)
    requires Inv(s) && NodeOf(t, NodeAt(0, p)) in s.own
    ensures LeafSet(s, SetLeaf(s, t, p, e), t, p, e)
  {
    hide Steady, Linked, LeafIn;
    var s' := SetLeaf(s, t, p, e);
    assert NodeIn(s, t, NodeAt(0, p));
    forall u: Pa, q: nat
      ensures Leaf(s', u, q) == if u == t && q == p then e else Leaf(s, u, q)
    {
      if u == t && NodeAt(0, q) == NodeAt(0, p) && q % 512 == p % 512 {
        OnePage(p, q);
      }
    }
  }

  lemma SetLeafKeeps(s: State, t: Pa, p: nat, e: Pte)
    requires Inv(s) && NodeOf(t, NodeAt(0, p)) in s.own && LeafWord(e)
    requires LeafOf(t, p) in s.own ==>
      e.f.v && e.f.r && e.ppn == s.own[LeafOf(t, p)] && (e.f.w ==> !e.f.cow && Sole(s.own, LeafOf(t, p)))
    ensures Inv(SetLeaf(s, t, p, e)) && LeafSet(s, SetLeaf(s, t, p, e), t, p, e)
  {
    var s' := SetLeaf(s, t, p, e);
    SetLeafChanges(s, t, p, e);
    SetLeafNodes(s, t, p, e);
    hide Leaf, Steady, SetLeaf, Linked, NodeIn, Sole;
    forall u, q | LeafOf(u, q) in s'.own
      ensures LeafIn(s', u, q)
    {
      assert LeafIn(s, u, q);
    }
  }

  lemma SetLeafNodes(s: State, t: Pa, p: nat, e: Pte)
    requires Inv(s) && NodeOf(t, NodeAt(0, p)) in s.own && LeafWord(e)
    ensures var s' := SetLeaf(s, t, p, e);
      forall u, n :: NodeOf(u, n) in s'.own ==> NodeIn(s', u, n) && Linked(s', u, n)
  {
    hide Steady, LeafIn, Leaf;
    var s' := SetLeaf(s, t, p, e);
    assert NodeIn(s, t, NodeAt(0, p));
    forall u, n | NodeOf(u, n) in s'.own
      ensures NodeIn(s', u, n) && Linked(s', u, n)
    {
      assert NodeIn(s, u, n) && Linked(s, u, n);
      forall i | 0 <= i < PTES
        ensures EntryOk(s', u, n, i, Ptes(s'.mem, s'.own[NodeOf(u, n)])[i])
      {
        assert EntryOk(s, u, n, i, Ptes(s.mem, s.own[NodeOf(u, n)])[i]);
      }
    }
  }

  // ---------------------------------------------------------------- references

  /** Nothing about tables and their entries has changed between s and s', but only which pages
      are referred to by tokens other than nodes. */
  ghost predicate SameNodes(s: State, s': State) {
    && (forall t, n :: NodeOf(t, n) in s.own <==> NodeOf(t, n) in s'.own)
    && (forall t, n :: NodeOf(t, n) in s.own ==> s'.own[NodeOf(t, n)] == s.own[NodeOf(t, n)])
    && (forall t, n :: NodeOf(t, n) in s.own && s.own[NodeOf(t, n)] in s.mem ==>
          s.own[NodeOf(t, n)] in s'.mem && s'.mem[s.own[NodeOf(t, n)]] == s.mem[s.own[NodeOf(t, n)]])
  }

  lemma SameNodesKeeps(s: State, s': State)
    requires Inv(s) && SameNodes(s, s')
    requires forall t, n :: NodeOf(t, n) in s'.own ==> Sole(s'.own, NodeOf(t, n))
    ensures SameLeaves(s, s')
    ensures forall t, n :: NodeOf(t, n) in s'.own ==> NodeIn(s', t, n) && Linked(s', t, n)
  {
    hide Steady, LeafIn, Sole;
    forall t, n | NodeOf(t, n) in s'.own
      ensures NodeIn(s', t, n) && Linked(s', t, n)
    {
      assert NodeIn(s, t, n) && Linked(s, t, n);
      forall i | 0 <= i < PTES
        ensures EntryOk(s', t, n, i, Ptes(s'.mem, s'.own[NodeOf(t, n)])[i])
      {
        assert EntryOk(s, t, n, i, Ptes(s.mem, s.own[NodeOf(t, n)])[i]);
      }
    }
    assert forall t, n :: NodeOf(t, n) in s.own ==> NodeIn(s, t, n);
  }

  /** kalloc, with the new page held by the kernel under the name id. What the page contains is
      whatever was there. */
  ghost function Taken(s: State, id: nat, junk: seq<Byte>): State
    requires s.k.free != []
  {
    State(s.mem[s.k.free[0] := Data(junk)], Frames.Kalloc(s.k), s.own[Other(id) := s.k.free[0]])
  }

  lemma TakenKeeps(s: State, id: nat, junk: seq<Byte>)
    requires Inv(s) && s.k.free != [] && Other(id) !in s.own && |junk| == PGSIZE
    ensures var s' := Taken(s, id, junk);
      && Inv(s') && SameLeaves(s, s') && Sole(s'.own, Other(id))
      && (forall a :: a in s.own && s.own[a] in s.mem ==> s.own[a] in s'.mem && s'.mem[s.own[a]] == s.mem[s.own[a]])
  {
    hide Consistent, Linked, LeafIn, NodeIn, Leaf;
    var nowhere: map<Token, Pa> := map[];
    var s' := Taken(s, id, junk);
    KallocKeeps(s.k, s.own, nowhere, Other(id));
    SoleInsert(s.own, Other(id), s.k.free[0]);
    NodesSole(s);
    hide Sole, Steady, Frames.Kalloc;
    SameNodesKeeps(s, s');
    TakenLeaves(s, id, junk);
  }

  lemma NodesSole(s: State)
    requires Inv(s)
    ensures forall t, n :: NodeOf(t, n) in s.own ==> Sole(s.own, NodeOf(t, n))
  {
    hide Sole, Steady, LeafIn, Linked;
    forall t, n | NodeOf(t, n) in s.own
      ensures Sole(s.own, NodeOf(t, n))
    {
      assert NodeIn(s, t, n);
    }
  }

  lemma TakenLeaves(s: State, id: nat, junk: seq<Byte>)
    requires Inv(s) && s.k.free != [] && Other(id) !in s.own && SameLeaves(s, Taken(s, id, junk))
    requires forall a :: a in s.own ==> s.own[a] != s.k.free[0]
    requires forall a :: Sole(s.own, a) ==> Sole(Taken(s, id, junk).own, a)
    ensures var s' := Taken(s, id, junk);
      forall t, p :: LeafOf(t, p) in s'.own ==> LeafIn(s', t, p)
  {
    hide Sole, Steady, Leaf, Linked, NodeIn;
    var s' := Taken(s, id, junk);
    forall t, p | LeafOf(t, p) in s'.own
      ensures LeafIn(s', t, p)
    {
      assert LeafIn(s, t, p);
    }
  }

  /** The kernel's reference id becomes the reference from entry p of table t. */
  ghost function Adopted(s: State, id: nat, t: Pa, p: nat): State
    requires Other(id) in s.own
  {
    s.(own := (s.own - {Other(id)})[LeafOf(t, p) := s.own[Other(id)]])
  }

  lemma AdoptedKeeps(s: State, id: nat, t: Pa, p: nat)
    requires Inv(s) && Other(id) in s.own && Sole(s.own, Other(id)) && LeafOf(t, p) !in s.own && p < PAGES
    requires var pa, e := s.own[Other(id)], Leaf(s, t, p);
      pa in s.mem && s.mem[pa].Data? && |s.mem[pa].bytes| == PGSIZE && e.f.v && e.f.r && e.ppn == pa && !e.f.cow
    ensures var s' := Adopted(s, id, t, p);
      Inv(s') && SameLeaves(s, s') && Sole(s'.own, LeafOf(t, p))
  {
    hide Consistent, Linked, LeafIn, NodeIn, Leaf;
    var nowhere: map<Token, Pa> := map[];
    var s' := Adopted(s, id, t, p);
    RenameKeeps(s.k, s.own, nowhere, Other(id), LeafOf(t, p));
    NodesSole(s);
    assert forall a :: a in s.own && Sole(s.own, a) && a != Other(id) ==> Sole(s'.own, a);
    assert Sole(s'.own, LeafOf(t, p));
    hide Sole, Steady;
    SameNodesKeeps(s, s');
    forall u, q | LeafOf(u, q) in s'.own
      ensures LeafIn(s', u, q)
    {
      if u != t || q != p {
        LeafStays(s, s', u, q);
      } else {
        LeafBegins(s, s', t, p);
      }
    }
  }

  lemma LeafStays(s: State, s': State, t: Pa, p: nat)
    requires Inv(s) && SameLeaves(s, s') && s'.mem == s.mem && LeafOf(t, p) in s.own && LeafOf(t, p) in s'.own
    requires s'.own[LeafOf(t, p)] == s.own[LeafOf(t, p)]
    requires Leaf(s, t, p).f.w && Sole(s.own, LeafOf(t, p)) ==> Sole(s'.own, LeafOf(t, p))
    ensures LeafIn(s', t, p)
  {
    hide Steady, Linked, NodeIn, Leaf, Sole;
    assert LeafIn(s, t, p);
  }

  lemma LeafBegins(s: State, s': State, t: Pa, p: nat)
    requires SameLeaves(s, s') && s'.mem == s.mem && LeafOf(t, p) in s'.own && p < PAGES
    requires var pa, e := s'.own[LeafOf(t, p)], Leaf(s, t, p);
      && pa in s.mem && s.mem[pa].Data? && |s.mem[pa].bytes| == PGSIZE && e.f.v && e.f.r && e.ppn == pa
      && (e.f.w ==> !e.f.cow && Sole(s'.own, LeafOf(t, p)))
    ensures LeafIn(s', t, p)
  {
    hide Leaf, Sole;
  }

  /** incref: entry p of table t becomes a further reference to the page of entry q of table u. */
  ghost function Shared(s: State, u: Pa, q: nat, t: Pa, p: nat): State
    requires LeafOf(u, q) in s.own && s.own[LeafOf(u, q)] in s.k.refcnt
  {
    var pa := s.own[LeafOf(u, q)];
    s.(k := Incref(s.k, pa), own := s.own[LeafOf(t, p) := pa])
  }

  lemma Counted(s: State, a: Token)
    requires Inv(s) && a in s.own
    ensures s.own[a] in s.k.refcnt
  {
    Kalloc.OwnedUnlisted(s.k, s.own, s.own[a]);
  }

  lemma SharedKeeps(s: State, u: Pa, q: nat, t: Pa, p: nat)
    requires Inv(s) && LeafOf(u, q) in s.own && LeafOf(t, p) !in s.own && p < PAGES && s.own[LeafOf(u, q)] in s.k.refcnt
    requires !Leaf(s, u, q).f.w && Leaf(s, t, p).f.v && Leaf(s, t, p).f.r && !Leaf(s, t, p).f.w
    requires Leaf(s, t, p).ppn == s.own[LeafOf(u, q)]
    ensures var s' := Shared(s, u, q, t, p);
      Inv(s') && SameLeaves(s, s')
  {
    hide Consistent, Linked, LeafIn, NodeIn, Leaf;
    var nowhere: map<Token, Pa> := map[];
    var s' := Shared(s, u, q, t, p);
    var a := LeafOf(u, q);
    IncrefKeeps(s.k, s.own, nowhere, LeafOf(t, p), s.own[a]);
    NodesSole(s);
    assert forall b :: b in s.own && Sole(s.own, b) && b != a ==> Sole(s'.own, b);
    hide Sole, Steady;
    SameNodesKeeps(s, s');
    assert LeafIn(s, u, q) ==> s.own[a] in s.mem && s.mem[s.own[a]].Data? && |s.mem[s.own[a]].bytes| == PGSIZE by {
      LeafParts(s, u, q);
    }
    forall u', q' | LeafOf(u', q') in s'.own
      ensures LeafIn(s', u', q')
    {
      if u' != t || q' != p {
        LeafStays(s, s', u', q');
      } else {
        LeafBegins(s, s', t, p);
      }
    }
  }

  lemma LeafParts(s: State, t: Pa, p: nat)
    requires Inv(s) && LeafOf(t, p) in s.own
    ensures var pa, e := s.own[LeafOf(t, p)], Leaf(s, t, p);
      && p < PAGES && e.f.v && e.f.r && e.ppn == pa && pa in s.mem && s.mem[pa].Data? && |s.mem[pa].bytes| == PGSIZE
      && (e.f.w ==> !e.f.cow && Sole(s.own, LeafOf(t, p)))
  {
    hide Steady, Linked, NodeIn, Leaf, Sole;
    assert LeafIn(s, t, p);
  }

  /** kfree: one reference goes away. */
  ghost function Dropped(s: State, a: Token): State
    requires a in s.own && s.own[a] in s.k.refcnt
  {
    s.(k := Kalloc.Free(s.k, s.own[a]), own := s.own - {a})
  }

  lemma DroppedKeeps(s: State, a: Token)
    requires Inv(s) && a in s.own && !a.NodeOf? && s.own[a] in s.k.refcnt
    ensures Inv(Dropped(s, a)) && SameLeaves(s, Dropped(s, a))
  {
    hide Consistent, Linked, LeafIn, NodeIn, Leaf;
    var s' := Dropped(s, a);
    Kalloc.FreeKeeps(s.k, s.own, a);
    NodesSole(s);
    assert forall b :: b in s.own && Sole(s.own, b) && b != a ==> Sole(s'.own, b);
    hide Sole, Steady;
    SameNodesKeeps(s, s');
    forall u, q | LeafOf(u, q) in s'.own
      ensures LeafIn(s', u, q)
    {
      LeafStays(s, s', u, q);
    }
  }

  /** The reference from entry p of table t becomes the kernel's reference id. */
  ghost function Released(s: State, t: Pa, p: nat, id: nat): State
    requires LeafOf(t, p) in s.own
  {
    s.(own := (s.own - {LeafOf(t, p)})[Other(id) := s.own[LeafOf(t, p)]])
  }

  lemma ReleasedKeeps(s: State, t: Pa, p: nat, id: nat)
    requires Inv(s) && LeafOf(t, p) in s.own && Other(id) !in s.own
    ensures var s' := Released(s, t, p, id);
      Inv(s') && SameLeaves(s, s') && forall a :: a in s.own && a != LeafOf(t, p) && Sole(s.own, a) ==> Sole(s'.own, a)
  {
    hide Consistent, Linked, LeafIn, NodeIn, Leaf;
    var nowhere: map<Token, Pa> := map[];
    var s' := Released(s, t, p, id);
    RenameKeeps(s.k, s.own, nowhere, LeafOf(t, p), Other(id));
    NodesSole(s);
    assert forall a :: a in s.own && Sole(s.own, a) && a != LeafOf(t, p) ==> Sole(s'.own, a);
    hide Sole, Steady;
    SameNodesKeeps(s, s');
    forall u, q | LeafOf(u, q) in s'.own
      ensures LeafIn(s', u, q)
    {
      LeafStays(s, s', u, q);
    }
  }

  /** A store to the page that a alone refers to. */
  ghost function Stored(s: State, a: Token, bytes: seq<Byte>): State
    requires a in s.own
  {
    s.(mem := s.mem[s.own[a] := Data(bytes)])
  }

  lemma StoredKeeps(s: State, a: Token, bytes: seq<Byte>)
    requires Inv(s) && Sole(s.own, a) && !a.NodeOf? && |bytes| == PGSIZE
    ensures var s' := Stored(s, a, bytes);
      && Inv(s') && SameLeaves(s, s')
      && (forall b :: b in s.own && b != a && s.own[b] in s.mem ==>
            s.own[b] in s'.mem && s'.mem[s.own[b]] == s.mem[s.own[b]])
  {
    hide Steady, Linked, LeafIn, NodeIn, Leaf;
    var s' := Stored(s, a, bytes);
    NodesSole(s);
    assert SameNodes(s, s');
    assert forall b :: b in s.own && b != a ==> s.own[b] != s.own[a];
    hide Sole;
    SameNodesKeeps(s, s');
    StoredLeaves(s, a, bytes);
  }

  lemma StoredLeaves(s: State, a: Token, bytes: seq<Byte>)
    requires Inv(s) && a in s.own && |bytes| == PGSIZE && SameLeaves(s, Stored(s, a, bytes))
    requires forall b :: b in s.own && b != a ==> s.own[b] != s.own[a]
    ensures var s' := Stored(s, a, bytes);
      forall t, p :: LeafOf(t, p) in s'.own ==> LeafIn(s', t, p)
  {
    hide Sole, Steady, Leaf, Linked, NodeIn;
    var s' := Stored(s, a, bytes);
    forall t, p | LeafOf(t, p) in s'.own
      ensures LeafIn(s', t, p)
    {
      assert LeafIn(s, t, p);
    }
  }

  /** The counter of a user page is 1 exactly when one entry alone refers to it. */
  lemma CounterIsOne(s: State, a: Token)
    requires Inv(s) && a in s.own && s.own[a] in s.k.refcnt
    ensures s.k.refcnt[s.own[a]] == 1 <==> Sole(s.own, a)
  {
    hide NodeIn, Linked, LeafIn;
    var nowhere: map<Token, Pa> := map[];
    CountPositive(s.own, s.own[a]);
    assert PageConsistent(s.k, s.own, nowhere, s.own[a]);
    SoleIffCountOne(s.own, a);
  }
}
