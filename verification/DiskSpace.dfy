/** How many blocks a write needs, and that this is exactly what it takes from the free ones. */
module DiskSpace {
  import opened Params
  import opened Volume

  /** The positions of an inode that bmap looks at for the file blocks lo to hi. */
  predicate Spot(m: nat, lo: nat, hi: nat) {
    (lo <= m <= hi && m < MAXFILE) || (m == MAXFILE && hi >= NDIRECT)
  }

  /** From v to v', blocks may have come to be at such positions of inode i that had none. */
  ghost predicate Grown(v: Vol, v': Vol, i: nat, lo: nat, hi: nat) {
    && Shape(v) && Shape(v') && v'.l == v.l && v'.inodes.Keys == v.inodes.Keys && i in v.inodes
    && forall j, m :: j in v.inodes && 0 <= m <= MAXFILE ==>
      At(v', j, m) == At(v, j, m) || (At(v, j, m) == 0 && j == i && Spot(m, lo, hi))
  }

  lemma GrownRefl(v: Vol, i: nat, lo: nat, hi: nat)
    requires Shape(v) && i in v.inodes
    ensures Grown(v, v, i, lo, hi)
  {
    hide At;
  }

  lemma GrownTrans(v: Vol, v1: Vol, v': Vol, i: nat, lo: nat, hi: nat, lo': nat, hi': nat)
    requires Grown(v, v1, i, lo, hi) && Grown(v1, v', i, lo', hi') && lo <= lo' && hi <= hi'
    ensures Grown(v, v', i, lo, hi')
  {
    hide At, Shape;
  }

  lemma GrownSame(v: Vol, v1: Vol, v': Vol, i: nat, lo: nat, hi: nat, hi': nat)
    requires Grown(v, v1, i, lo, hi) && Shape(v1) && Shape(v') && v'.l == v1.l && SamePositions(v1, v') && hi <= hi'
    ensures Grown(v, v', i, lo, hi')
  {
    hide At, Shape;
  }

  // ---------------------------------------------------------------- counting

  ghost function Free(v: Vol): set<nat>
    requires Shape(v)
  {
    set b: nat | b < v.l.size && !Marked(v, b)
  }

  /** The positions without a block among those for the n bytes at offset off. */
  ghost function Lacking(v: Vol, i: nat, off: nat, n: nat): set<nat>
    requires Shape(v) && i in v.inodes && n > 0
  {
    set m: nat | m <= MAXFILE && Spot(m, off / BSIZE, (off + n - 1) / BSIZE) && At(v, i, m) == 0
  }

  /** There are blocks for all of them. */
  ghost predicate Fits(v: Vol, i: nat, off: nat, n: nat)
    requires Shape(v) && i in v.inodes && n > 0
  {
    |Lacking(v, i, off, n)| <= |Free(v)|
  }

  ghost function Filled(v: Vol, v': Vol, i: nat): set<nat>
    requires Shape(v) && Shape(v') && i in v.inodes && i in v'.inodes
  {
    set m: nat | m <= MAXFILE && At(v, i, m) == 0 && At(v', i, m) != 0
  }

  ghost function Blocks(v: Vol, i: nat, ms: set<nat>): set<nat>
    requires Shape(v) && i in v.inodes && forall m :: m in ms ==> m <= MAXFILE
  {
    set m | m in ms :: At(v, i, m)
  }

  lemma {:induction false} BlocksCount(v: Vol, i: nat, ms: set<nat>)
    requires Shape(v) && Placed(v) && i in v.inodes && forall m :: m in ms ==> m <= MAXFILE && At(v, i, m) != 0
    ensures |Blocks(v, i, ms)| == |ms|
    decreases |ms|
  {
    hide At, Shape;
    if ms == {} {
      assert Blocks(v, i, ms) == {};
    } else {
      var m :| m in ms;
      BlocksCount(v, i, ms - {m});
      assert Blocks(v, i, ms) == Blocks(v, i, ms - {m}) + {At(v, i, m)};
      assert At(v, i, m) !in Blocks(v, i, ms - {m});
    }
  }

  /** A block that an inode had, it still has. */
  lemma StillOwned(v: Vol, v': Vol, i: nat, lo: nat, hi: nat, b: nat)
    requires Grown(v, v', i, lo, hi) && b != 0 && Owned(v, b)
    ensures Owned(v', b)
  {
    hide At, Shape;
    var j, m :| j in v.inodes && 0 <= m <= MAXFILE && At(v, j, m) == b;
    assert At(v', j, m) == b;
  }

  lemma NewlyOwned(v: Vol, v': Vol, i: nat, lo: nat, hi: nat, b: nat)
    requires Grown(v, v', i, lo, hi) && Placed(v') && b != 0
    ensures b in Blocks(v', i, Filled(v, v', i)) <==> Owned(v', b) && !Owned(v, b)
  {
    hide At, Shape;
    var ms := Filled(v, v', i);
    if b in Blocks(v', i, ms) {
      var m :| m in ms && At(v', i, m) == b;
    }
  }

  /** Every block that has come to be somewhere was free. */
  lemma Taken(v: Vol, v': Vol, i: nat, lo: nat, hi: nat)
    requires Good(v) && Good(v') && Grown(v, v', i, lo, hi)
    ensures |Free(v)| == |Free(v')| + |Filled(v, v', i)|
  {
    var ms := Filled(v, v', i);
    var bs := Blocks(v', i, ms);
    BlocksCount(v', i, ms);
    forall b: nat
      ensures b in Free(v) <==> b in Free(v') || b in bs
      ensures !(b in Free(v') && b in bs)
    {
      FreeOrTaken(v, v', i, lo, hi, b);
    }
    assert Free(v) == Free(v') + bs;
  }

  lemma FreeOrTaken(v: Vol, v': Vol, i: nat, lo: nat, hi: nat, b: nat)
    requires Good(v) && Good(v') && Grown(v, v', i, lo, hi)
    ensures var bs := Blocks(v', i, Filled(v, v', i));
      (b in Free(v) <==> b in Free(v') || b in bs) && !(b in Free(v') && b in bs)
  {
    hide At, Marked, NoHoles;
    var bs := Blocks(v', i, Filled(v, v', i));
    if b in bs {
      assert v.l.dstart <= b < v.l.size;
    }
    if b != 0 {
      NewlyOwned(v, v', i, lo, hi, b);
      if Owned(v, b) {
        StillOwned(v, v', i, lo, hi, b);
      }
    }
  }

  /** If a file block of the write is missing and no block is free, they did not suffice at the start. */
  lemma DidNotFit(v: Vol, v': Vol, i: nat, off: nat, n: nat, o: nat)
    requires Good(v) && Good(v') && n > 0 && off <= o < off + n <= MAXFILE * BSIZE
    requires Grown(v, v', i, off / BSIZE, o / BSIZE) && Free(v') == {} && At(v', i, o / BSIZE) == 0
    ensures !Fits(v, i, off, n)
  {
    var lo, k, hi := off / BSIZE, o / BSIZE, (off + n - 1) / BSIZE;
    Taken(v, v', i, lo, k);
    hide At;
    var ms, need := Filled(v, v', i), Lacking(v, i, off, n);
    assert k <= hi < MAXFILE;
    assert ms <= need;
    assert k in need && k !in ms;
    Fewer(ms, need, k);
  }

  lemma Fewer(a: set<nat>, b: set<nat>, x: nat)
    requires a <= b && x in b && x !in a
    ensures |a| < |b|
  {
    assert b == b - a + a;
    assert x in b - a;
  }

  /** If all file blocks of the write are there in the end, they did. */
  lemma DidFit(v: Vol, v': Vol, i: nat, off: nat, n: nat, lo: nat, hi: nat)
    requires Good(v) && Good(v') && n > 0 && off + n <= MAXFILE * BSIZE
    requires Grown(v, v', i, lo, hi) && v'.inodes[i].size >= off + n
    ensures Fits(v, i, off, n)
  {
    Taken(v, v', i, lo, hi);
    var ms, need, last := Filled(v, v', i), Lacking(v, i, off, n), (off + n - 1) / BSIZE;
    assert last * BSIZE < off + n && last < MAXFILE;
    assert At(v', i, last) != 0;
    assert last >= NDIRECT ==> At(v', i, MAXFILE) != 0;
    hide At;
    forall m | m in need
      ensures m in ms
    {
      assert m < MAXFILE ==> m * BSIZE < off + n;
    }
    CardSub(need, ms);
  }

  lemma CardSub(a: set<nat>, b: set<nat>)
    requires a <= b
    ensures |a| <= |b|
  {
    assert b == b - a + a;
  }
}
