/** The lemmas about freewalk: a table is freed from its leaves up, and while it is, the nodes on
    the way to the current one are `dead`: their entries may no longer agree with their
    children. */
module Teardown {
  import opened Frames
  import opened PageTable
  import Kalloc

  /** m is n or a node under it. */
  predicate Below(n: Node, m: Node) {
    n.Root? || n == m || (n.Mid? && m.Low? && m.i == n.i)
  }

  /** m is under one of the first i entries of n. */
  predicate Before(n: Node, i: nat, m: Node) {
    if n.Root? then !m.Root? && m.i < i else n.Mid? && m.Low? && m.i == n.i && m.j < i
  }

  function Parent(n: Node): Node
    requires !n.Root?
  {
    if n.Mid? then Root else Mid(n.i)
  }

  /** A low table without a valid entry. */
  ghost predicate Bare(s: State, t: Pa, m: Node)
    requires NodeOf(t, m) in s.own
  {
    forall k :: 0 <= k < PTES ==> !Ptes(s.mem, s.own[NodeOf(t, m)])[k].f.v
  }

  ghost predicate NoLeafBelow(s: State, t: Pa, n: Node) {
    forall m: Node :: m.Low? && Below(n, m) && NodeOf(t, m) in s.own ==> Bare(s, t, m)
  }

  ghost predicate NoLeafBefore(s: State, t: Pa, n: Node, i: nat) {
    forall m: Node :: m.Low? && Before(n, i, m) && NodeOf(t, m) in s.own ==> Bare(s, t, m)
  }

  /** The references of s' are those of s but for table t's nodes at and under n, and the pages
      that they refer to are as they were. */
  ghost predicate Pruned(s: State, s': State, t: Pa, n: Node) {
    && (forall a :: a in s'.own <==> a in s.own && !(a.NodeOf? && a.t == t && Below(n, a.n)))
    && Intact(s, s')
  }

  /** The same for the nodes under the first i entries of n; only the page of n may have changed. */
  ghost predicate PrunedTo(s: State, s': State, t: Pa, n: Node, i: nat) {
    && (forall a :: a in s'.own <==> a in s.own && !(a.NodeOf? && a.t == t && Before(n, i, a.n)))
    && (forall a :: a in s'.own ==> s'.own[a] == s.own[a])
    && (forall a :: a in s'.own && a != NodeOf(t, n) && s.own[a] in s.mem ==>
          s.own[a] in s'.mem && s'.mem[s.own[a]] == s.mem[s.own[a]])
  }

  ghost predicate Intact(s: State, s': State) {
    && (forall a :: a in s'.own ==> a in s.own && s'.own[a] == s.own[a])
    && (forall a :: a in s'.own && s.own[a] in s.mem ==> s.own[a] in s'.mem && s'.mem[s.own[a]] == s.mem[s.own[a]])
  }

  /** One entry of a node that is being torn down is cleared. */
  ghost function ClearedAt(s: State, t: Pa, n: Node, i: nat): State
    requires NodeOf(t, n) in s.own && i < PTES
  {
    var at := s.own[NodeOf(t, n)];
    s.(mem := s.mem[at := Table(Ptes(s.mem, at)[i := NONE])])
  }

  lemma ClearedKeeps(s: State, t: Pa, n: Node, i: nat, dead: set<Token>)
    requires InvBut(s, dead) && NodeOf(t, n) in dead && NodeOf(t, n) in s.own && i < PTES && !n.Low?
    ensures InvBut(ClearedAt(s, t, n, i), dead)
    ensures forall a :: a in s.own && a != NodeOf(t, n) && s.own[a] in s.mem ==>
      ClearedAt(s, t, n, i).mem[s.own[a]] == s.mem[s.own[a]]
  {
    var s' := ClearedAt(s, t, n, i);
    ClearedNodes(s, t, n, i, dead);
    hide Steady, Linked;
    assert NodeIn(s, t, n);
    assert SameLeaves(s, s');
    forall a | a in s.own && a != NodeOf(t, n)
      ensures s.own[a] != s.own[NodeOf(t, n)]
    {
    }
    hide Sole, Leaf, NodeIn;
    forall u, p | LeafOf(u, p) in s'.own
      ensures LeafIn(s', u, p)
    {
      assert LeafIn(s, u, p);
    }
  }

  lemma ClearedNodes(s: State, t: Pa, n: Node, i: nat, dead: set<Token>)
    requires InvBut(s, dead) && NodeOf(t, n) in dead && NodeOf(t, n) in s.own && i < PTES && !n.Low?
    ensures var s' := ClearedAt(s, t, n, i);
      forall u, m :: NodeOf(u, m) in s'.own ==> NodeIn(s', u, m) && (NodeOf(u, m) !in dead ==> Linked(s', u, m))
  {
    hide Steady, LeafIn, Leaf;
    var s' := ClearedAt(s, t, n, i);
    assert NodeIn(s, t, n);
    forall u, m | NodeOf(u, m) in s'.own
      ensures NodeIn(s', u, m) && (NodeOf(u, m) !in dead ==> Linked(s', u, m))
    {
      assert NodeIn(s, u, m);
      if NodeOf(u, m) !in dead {
        assert Linked(s, u, m);
        forall x | 0 <= x < PTES
          ensures EntryOk(s', u, m, x, Ptes(s'.mem, s'.own[NodeOf(u, m)])[x])
        {
          assert EntryOk(s, u, m, x, Ptes(s.mem, s.own[NodeOf(u, m)])[x]);
        }
      }
    }
  }

  /** kfree of a table page whose children are gone and which no entry of a live table names. */
  lemma NodeDropped(s: State, t: Pa, n: Node, dead: set<Token>)
    requires InvBut(s, dead + {NodeOf(t, n)}) && NodeOf(t, n) in s.own && s.own[NodeOf(t, n)] in s.k.refcnt
    requires n.Root? || NodeOf(t, Parent(n)) in dead
    requires forall m: Node :: NodeOf(t, m) in s.own && !m.Root? ==> Parent(m) != n
    requires n.Low? ==> Bare(s, t, n)
    ensures InvBut(Dropped(s, NodeOf(t, n)), dead)
  {
    var s' := Dropped(s, NodeOf(t, n));
    NodeDroppedNodes(s, t, n, dead);
    Kalloc.FreeKeeps(s.k, s.own, NodeOf(t, n));
    assert forall a :: a in s'.own && Sole(s.own, a) ==> Sole(s'.own, a);
    hide Steady, Sole, NodeIn, Linked;
    forall u, p | LeafOf(u, p) in s'.own
      ensures LeafIn(s', u, p)
    {
      assert LeafIn(s, u, p);
    }
  }

  lemma NodeDroppedNodes(s: State, t: Pa, n: Node, dead: set<Token>)
    requires InvBut(s, dead + {NodeOf(t, n)}) && NodeOf(t, n) in s.own && s.own[NodeOf(t, n)] in s.k.refcnt
    requires n.Root? || NodeOf(t, Parent(n)) in dead
    requires forall m: Node :: NodeOf(t, m) in s.own && !m.Root? ==> Parent(m) != n
    ensures var s' := Dropped(s, NodeOf(t, n));
      forall u, m :: NodeOf(u, m) in s'.own ==> NodeIn(s', u, m) && (NodeOf(u, m) !in dead ==> Linked(s', u, m))
  {
    hide Steady, LeafIn, Leaf, Kalloc.Free;
    var s' := Dropped(s, NodeOf(t, n));
    forall u, m | NodeOf(u, m) in s'.own
      ensures NodeIn(s', u, m) && (NodeOf(u, m) !in dead ==> Linked(s', u, m))
    {
      assert NodeIn(s, u, m);
      if NodeOf(u, m) !in dead {
        assert Linked(s, u, m);
        forall x | 0 <= x < PTES
          ensures EntryOk(s', u, m, x, Ptes(s'.mem, s'.own[NodeOf(u, m)])[x])
        {
          assert EntryOk(s, u, m, x, Ptes(s.mem, s.own[NodeOf(u, m)])[x]);
          assert m.Low? || Parent(Child(m, x)) == m;
        }
      }
    }
  }

  // ---------------------------------------------------------------- the steps of freewalk

  lemma Nested(n: Node, i: nat, m: Node)
    requires !n.Low?
    ensures Before(n, i + 1, m) <==> Before(n, i, m) || Below(Child(n, i), m)
    ensures Below(Child(n, i), m) ==> Below(n, m) && !Before(n, i, m) && m != n
  {
  }

  /** What an entry of a table says, before the table is torn down. */
  lemma EntryKind(s: State, t: Pa, n: Node, i: nat, dead: set<Token>)
    requires InvBut(s, dead) && NodeOf(t, n) in s.own && NodeOf(t, n) !in dead && i < PTES
    ensures var e := Ptes(s.mem, s.own[NodeOf(t, n)])[i];
      && (e.f.v ==> (Leafy(e) <==> n.Low?))
      && (!n.Low? ==> (e.f.v <==> NodeOf(t, Child(n, i)) in s.own))
      && (!n.Low? && e.f.v ==> e.ppn == s.own[NodeOf(t, Child(n, i))])
    ensures !n.Low? && NodeOf(t, Child(n, i)) !in s.own ==> forall m :: Below(Child(n, i), m) ==> NodeOf(t, m) !in s.own
  {
    hide Steady, LeafIn, Leaf, Sole, Ptes;
    assert Linked(s, t, n);
    assert EntryOk(s, t, n, i, Ptes(s.mem, s.own[NodeOf(t, n)])[i]);
  }

  lemma PrunedNone(s: State, t: Pa, n: Node)
    ensures PrunedTo(s, s, t, n, 0) && NoLeafBefore(s, t, n, 0)
  {
    hide Bare;
  }

  /** Nothing under an invalid entry. */
  lemma PrunedSkip(s: State, s1: State, t: Pa, n: Node, i: nat)
    requires PrunedTo(s, s1, t, n, i) && NoLeafBefore(s, t, n, i)
    requires !n.Low? ==> forall m :: Below(Child(n, i), m) ==> NodeOf(t, m) !in s.own
    ensures PrunedTo(s, s1, t, n, i + 1) && NoLeafBefore(s, t, n, i + 1)
  {
    hide Bare;
    if !n.Low? {
      forall m
        ensures Before(n, i + 1, m) <==> Before(n, i, m) || Below(Child(n, i), m)
      {
        Nested(n, i, m);
      }
    }
  }

  lemma PrunedChild(s: State, s1: State, s2: State, s3: State, t: Pa, n: Node, i: nat)
    requires PrunedTo(s, s1, t, n, i) && !n.Low? && Pruned(s1, s2, t, Child(n, i)) && s3.own == s2.own
    requires forall a :: a in s2.own && a != NodeOf(t, n) && s2.own[a] in s2.mem ==>
      s2.own[a] in s3.mem && s3.mem[s2.own[a]] == s2.mem[s2.own[a]]
    ensures PrunedTo(s, s3, t, n, i + 1)
  {
    forall m
      ensures Before(n, i + 1, m) <==> Before(n, i, m) || Below(Child(n, i), m)
    {
      Nested(n, i, m);
    }
    hide Before, Below;
  }

  lemma NoLeafChild(s: State, s1: State, t: Pa, n: Node, i: nat)
    requires PrunedTo(s, s1, t, n, i) && !n.Low? && NoLeafBefore(s, t, n, i)
    requires forall a :: a in s.own && a.NodeOf? ==> s.own[a] in s.mem
    ensures !NoLeafBelow(s1, t, Child(n, i)) ==> !NoLeafBelow(s, t, n)
    ensures NoLeafBelow(s1, t, Child(n, i)) ==> NoLeafBefore(s, t, n, i + 1)
  {
    forall m
      ensures Before(n, i + 1, m) <==> Before(n, i, m) || Below(Child(n, i), m)
      ensures Below(Child(n, i), m) ==> Below(n, m) && !Before(n, i, m) && m != n
    {
      Nested(n, i, m);
    }
    hide Before, Below;
    forall m: Node | Below(Child(n, i), m) && NodeOf(t, m) in s.own
      ensures NodeOf(t, m) in s1.own && (Bare(s1, t, m) <==> Bare(s, t, m))
    {
      assert Ptes(s1.mem, s1.own[NodeOf(t, m)]) == Ptes(s.mem, s.own[NodeOf(t, m)]);
    }
    hide Bare;
  }

  lemma PrunedAll(s: State, s1: State, s2: State, t: Pa, n: Node, dead: set<Token>)
    requires InvBut(s, dead) && PrunedTo(s, s1, t, n, PTES) && NodeOf(t, n) in s1.own
    requires s2.mem == s1.mem && s2.own == s1.own - {NodeOf(t, n)}
    requires NoLeafBefore(s, t, n, PTES) && (n.Low? ==> NodeOf(t, n) in s.own && Bare(s, t, n))
    ensures Pruned(s, s2, t, n) && NoLeafBelow(s, t, n)
  {
    hide Steady, LeafIn, Linked, Bare, Sole;
    forall m | NodeOf(t, m) in s.own
      ensures Below(n, m) <==> m == n || Before(n, PTES, m)
    {
      assert NodeIn(s, t, m);
    }
    hide NodeIn, Below, Before;
  }

  lemma ChildrenGone(s: State, s1: State, t: Pa, n: Node, dead: set<Token>)
    requires InvBut(s, dead) && PrunedTo(s, s1, t, n, PTES)
    ensures forall m: Node :: NodeOf(t, m) in s1.own && !m.Root? ==> Parent(m) != n
  {
    hide Steady, LeafIn, Linked, Sole;
    forall m: Node | NodeOf(t, m) in s1.own && !m.Root?
      ensures Parent(m) != n
    {
      assert NodeIn(s, t, m);
    }
  }

  lemma PageOf(i: nat, j: nat, x: nat)
    requires i < PTES && j < PTES && x < PTES
    ensures var p := i * 0x40000 + j * 512 + x;
      NodeAt(0, p) == Low(i, j) && p % 512 == x
  {
    var p := i * 0x40000 + j * 512 + x;
    assert p / 512 == i * 512 + j;
  }

  /** A table has no leaf in its low tables exactly when it maps no virtual page. */
  lemma NoLeafIff(s: State, t: Pa)
    requires Inv(s)
    ensures NoLeafBelow(s, t, Root) <==> forall p: nat :: !Leaf(s, t, p).f.v
  {
    hide Steady, LeafIn, Linked, Sole, Ptes;
    if forall p: nat :: !Leaf(s, t, p).f.v {
      forall m: Node | m.Low? && NodeOf(t, m) in s.own
        ensures Bare(s, t, m)
      {
        assert NodeIn(s, t, m);
        forall x | 0 <= x < PTES
          ensures !Ptes(s.mem, s.own[NodeOf(t, m)])[x].f.v
        {
          PageOf(m.i, m.j, x);
          assert !Leaf(s, t, m.i * 0x40000 + m.j * 512 + x).f.v;
        }
      }
    }
    if NoLeafBelow(s, t, Root) {
      forall p: nat
        ensures !Leaf(s, t, p).f.v
      {
        if NodeOf(t, NodeAt(0, p)) in s.own {
          assert Bare(s, t, NodeAt(0, p));
        }
      }
    }
  }
}
