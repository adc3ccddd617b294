/** fs.c and the file part of file.c as they run: balloc, bfree, bmap, itrunc, readi, writei and
    filewrite on the blocks and the in-memory inodes.

    `blocks` is what bread returns for each block. `logged` is the set of blocks that have been
    passed to log_write since the current operation began. `stray` are the blocks that have been
    stored into without log_write, and what they fall back to when their buffers are recycled. */
module FileSys {
  import opened Bytes
  import opened Params
  import opened Volume
  import opened Fallback
  import opened DiskSpace

  /** The bits below n are all set. */
  ghost predicate FullBelow(v: Vol, n: nat)
    requires Shape(v)
  {
    forall x :: 0 <= x < n && x < v.l.size ==> Marked(v, x)
  }

  /** A write of file i at offset off stopped after r bytes, all of them in complete chunks, because
      the next file block is missing and the disk is full. */
  ghost predicate Starved(v: Vol, i: nat, off: nat, r: nat) {
    && Shape(v) && i in v.inodes && FullBelow(v, v.l.size) && (r == 0 || (off + r) % BSIZE == 0)
    && (off + r) / BSIZE < MAXFILE && At(v, i, (off + r) / BSIZE) == 0
  }

  /** Bit bi of the bitmap block that starts at block b. */
  lemma ScanIndex(l: Layout, b: nat, bi: nat)
    requires b % BPB == 0 && bi < BPB
    ensures BitmapBlock(l, b + bi) == BitmapBlock(l, b) && (b + bi) % BPB / 8 == bi / 8 && (b + bi) % 8 == bi % 8
  {
    var q := b / BPB;
    assert b + bi == BPB * q + bi;
    assert (b + bi) / BPB == q && (b + bi) % BPB == bi;
    BitOffset(b + bi);
  }

  // ---------------------------------------------------------------- what bmap may do

  ghost function Balloced(v: Vol, b: nat): Vol
    requires Shape(v) && b < v.l.size
  {
    Put(Remark(v, b, true), b, Zeros(BSIZE))
  }

  /** From v to v', file block bn of inode i, or its indirect block, may have come into being;
      no file has changed. */
  ghost predicate Extended(v: Vol, v': Vol, i: nat, bn: nat) {
    && Good(v) && Good(v') && v'.l == v.l && v'.inodes.Keys == v.inodes.Keys && i in v.inodes
    && (forall j :: j in v.inodes ==> v'.inodes[j].size == v.inodes[j].size)
    && (forall j, m :: j in v.inodes && 0 <= m <= MAXFILE ==>
          At(v', j, m) == At(v, j, m) || (At(v, j, m) == 0 && j == i && (m == bn || (m == MAXFILE && bn >= NDIRECT))))
    && (forall j, m :: j in v.inodes && 0 <= m < MAXFILE && At(v, j, m) != 0 ==> SameBlock(v, v', At(v, j, m)))
  }

  ghost predicate SameBlock(v: Vol, v': Vol, b: nat) {
    b in v.blocks && b in v'.blocks && v'.blocks[b] == v.blocks[b]
  }

  lemma ExtendedRefl(v: Vol, i: nat, bn: nat)
    requires Good(v) && i in v.inodes
    ensures Extended(v, v, i, bn)
  {
    hide At, NoHoles, BitmapExact;
  }

  lemma ExtendedTrans(v: Vol, v': Vol, v'': Vol, i: nat, bn: nat)
    requires Extended(v, v', i, bn) && Extended(v', v'', i, bn)
    ensures Extended(v, v'', i, bn)
  {
    hide At, Good;
    assert Shape(v) && Shape(v') && Shape(v'') by {
      GoodShape(v);
      GoodShape(v');
      GoodShape(v'');
    }
  }

  lemma GoodShape(v: Vol)
    requires Good(v)
    ensures Shape(v)
  {
  }

  lemma ExtendedContents(v: Vol, v': Vol, i: nat, bn: nat, j: nat)
    requires Extended(v, v', i, bn) && j in v.inodes
    ensures Contents(v', j) == Contents(v, j)
  {
    hide At, BitmapExact;
    forall m | 0 <= m < MAXFILE && m * BSIZE < v.inodes[j].size
      ensures At(v', j, m) == At(v, j, m) && SameBlock(v, v', At(v, j, m))
    {
      assert At(v, j, m) != 0;
    }
    SameContents(v, v', j);
  }

  /** balloc touches no data block of a file. */
  lemma BallocedBlocks(v: Vol, b: nat)
    requires Good(v) && b < v.l.size && !Marked(v, b)
    ensures Pending(Balloced(v, b), b) && SamePositions(v, Balloced(v, b))
    ensures Balloced(v, b).inodes == v.inodes && Balloced(v, b).l == v.l
    ensures forall j, m :: j in v.inodes && 0 <= m <= MAXFILE && At(v, j, m) != 0 ==>
      SameBlock(v, Balloced(v, b), At(v, j, m))
  {
    BallocPends(v, b);
    FreeBlock(v, b);
    BitmapFits(v.l, b);
    hide At, Owned, Marked, BitmapExact, NoHoles;
  }

  /** A new position with the allocated block gives an extension. */
  lemma AttachExtends(v: Vol, v1: Vol, v': Vol, i: nat, bn: nat, k: nat, b: nat)
    requires Good(v) && Good(v') && b < v.l.size && !Marked(v, b) && v1 == Balloced(v, b) && i in v.inodes
    requires bn < MAXFILE && (k == bn || (k == MAXFILE && bn >= NDIRECT)) && At(v, i, k) == 0
    requires v'.l == v.l && v'.inodes.Keys == v.inodes.Keys && forall j :: j in v.inodes ==>
      v'.inodes[j].size == v.inodes[j].size
    requires forall j, m :: j in v.inodes && 0 <= m <= MAXFILE ==>
      At(v', j, m) == if j == i && m == k then b else At(v, j, m)
    requires forall j, m :: j in v.inodes && 0 <= m < MAXFILE && At(v, j, m) != 0 ==> SameBlock(v1, v', At(v, j, m))
    ensures Extended(v, v', i, bn)
  {
    BallocedBlocks(v, b);
    hide At, Owned, Marked, Placed, Balloced;
  }

  lemma DirectExtends(v: Vol, i: nat, k: nat, b: nat)
    requires Good(v) && b < v.l.size && !Marked(v, b) && i in v.inodes && k < NDIRECT && At(v, i, k) == 0
    ensures var v' := SetAddr(Balloced(v, b), i, k, b); Extended(v, v', i, k) && At(v', i, k) == b
  {
    BallocedBlocks(v, b);
    var v1 := Balloced(v, b);
    hide Good, Marked, Owned, Balloced;
    AttachDirect(v1, i, k, b);
    GoodShape(v);
    AttachExtends(v, v1, SetAddr(v1, i, k, b), i, k, k, b);
  }

  lemma TableExtends(v: Vol, i: nat, bn: nat, b: nat)
    requires Good(v) && b < v.l.size && !Marked(v, b) && i in v.inodes && NDIRECT <= bn < MAXFILE && At(v, i, MAXFILE) == 0
    ensures var v' := SetAddr(Balloced(v, b), i, NDIRECT, b);
      Extended(v, v', i, bn) && At(v', i, MAXFILE) == b && At(v', i, bn) == At(v, i, bn)
  {
    BallocedBlocks(v, b);
    var v1 := Balloced(v, b);
    hide Good, Marked, Owned, Balloced;
    AttachTable(v1, i, b);
    GoodShape(v);
    AttachExtends(v, v1, SetAddr(v1, i, NDIRECT, b), i, bn, MAXFILE, b);
  }

  lemma EntryExtends(v: Vol, i: nat, k: nat, b: nat)
    requires Good(v) && b < v.l.size && !Marked(v, b) && i in v.inodes && NDIRECT <= k < MAXFILE
    requires At(v, i, k) == 0 && At(v, i, MAXFILE) != 0
    ensures Balloced(v, b).inodes == v.inodes && Shape(Balloced(v, b))
    ensures var v' := WithEntry(Balloced(v, b), i, k, b); Extended(v, v', i, k) && At(v', i, k) == b
  {
    BallocedBlocks(v, b);
    var v1, t := Balloced(v, b), At(v, i, MAXFILE);
    assert t == v1.inodes[i].addrs[NDIRECT];
    AttachEntry(v1, i, k, b);
    var v' := WithEntry(v1, i, k, b);
    assert forall j, m :: j in v.inodes && 0 <= m < MAXFILE && At(v, j, m) != 0 ==> At(v, j, m) != t;
    hide Good, Marked, Owned, Balloced, At, WithEntry, PutWord;
    GoodShape(v);
    forall j, m | j in v.inodes && 0 <= m < MAXFILE && At(v, j, m) != 0
      ensures SameBlock(v1, v', At(v, j, m))
    {
      assert At(v, j, m) < v.l.size by {
        PlacedAt(v, j, m);
      }
      EntryBlocks(v1, i, k, b, At(v, j, m));
    }
    EntryBlocks(v1, i, k, b, 0);
    AttachExtends(v, v1, v', i, k, k, b);
  }

  lemma PlacedAt(v: Vol, j: nat, m: nat)
    requires Good(v) && j in v.inodes && m <= MAXFILE && At(v, j, m) != 0
    ensures v.l.dstart <= At(v, j, m) < v.l.size
  {
    hide BitmapExact, NoHoles, At;
  }

  // ---------------------------------------------------------------- what itrunc does

  /** Data blocks hold what they held, and every inode has its size. */
  ghost predicate SameData(v: Vol, v': Vol) {
    && v'.l == v.l && v'.inodes.Keys == v.inodes.Keys
    && (forall j :: j in v.inodes ==> v'.inodes[j].size == v.inodes[j].size)
    && (forall b :: v.l.dstart <= b < v.l.size ==> SameBlock(v, v', b))
  }

  /** The first k direct blocks of i are gone. */
  ghost predicate TruncDirect(v: Vol, v': Vol, i: nat, k: nat) {
    && Good(v) && i in v.inodes && k <= NDIRECT && SameData(v, v') && Releasing(v', i, {})
    && forall j, m :: j in v.inodes && 0 <= m <= MAXFILE ==> At(v', j, m) == if j == i && m < k then 0 else At(v, j, m)
  }

  lemma TruncStart(v: Vol, i: nat)
    requires Good(v) && i in v.inodes
    ensures TruncDirect(v, v, i, 0)
  {
    GoodReleases(v, i);
    hide At, NoHoles, BitmapExact, Placed, Releasing;
  }

  lemma DirectSkip(v: Vol, v': Vol, i: nat, k: nat)
    requires TruncDirect(v, v', i, k) && k < NDIRECT && At(v', i, k) == 0
    ensures TruncDirect(v, v', i, k + 1)
  {
    hide Good, Releasing, SameData;
    GoodShape(v);
    ReleasingShape(v', i);
    assert At(v', i, k) == At(v, i, k);
    hide At;
  }

  lemma ReleasingShape(v: Vol, i: nat)
    requires exists freed :: Releasing(v, i, freed)
    ensures Shape(v) && Placed(v) && i in v.inodes
  {
  }

  lemma RemarkData(v: Vol, b: nat)
    requires Shape(v) && b < v.l.size
    ensures SameData(v, Remark(v, b, false))
  {
    BitmapFits(v.l, b);
    hide BitmapWith, LayoutOk;
  }

  lemma SameDataTrans(v: Vol, v': Vol, v'': Vol)
    requires SameData(v, v') && SameData(v', v'')
    ensures SameData(v, v'')
  {
    hide SameBlock;
    forall b | v.l.dstart <= b < v.l.size
      ensures SameBlock(v, v'', b)
    {
      assert SameBlock(v, v', b) && SameBlock(v', v'', b);
      SameBlockTrans(v, v', v'', b);
    }
  }

  lemma SameBlockTrans(v: Vol, v': Vol, v'': Vol, b: nat)
    requires SameBlock(v, v', b) && SameBlock(v', v'', b)
    ensures SameBlock(v, v'', b)
  {
  }

  lemma SameDataKeys(v: Vol, v': Vol)
    requires SameData(v, v')
    ensures v'.inodes.Keys == v.inodes.Keys && v'.l == v.l
  {
  }

  lemma AddrData(v: Vol, i: nat, j: nat, b: nat)
    requires Shape(v) && i in v.inodes && j <= NDIRECT
    ensures SameData(v, SetAddr(v, i, j, b))
  {
  }

  /** One turn of itrunc's first loop. */
  lemma DirectTurn(v: Vol, v': Vol, i: nat, k: nat)
    requires TruncDirect(v, v', i, k) && k < NDIRECT && At(v', i, k) != 0
    ensures At(v', i, k) < v'.l.size && Marked(v', At(v', i, k))
    ensures var v1 := Remark(v', At(v', i, k), false);
      i in v1.inodes && k < |v1.inodes[i].addrs| && TruncDirect(v, SetAddr(v1, i, k, 0), i, k + 1)
  {
    hide Good, Releasing, SameData, Marked;
    GoodShape(v);
    ReleasingShape(v', i);
    var b := At(v', i, k);
    ReleaseMark(v', i, {}, k);
    var v1 := Remark(v', b, false);
    ReleasingShape(v1, i);
    assert {} + {b} == {b} && At(v1, i, k) == b;
    DropDirect(v1, i, k);
    RemarkData(v', b);
    AddrData(v1, i, k, 0);
    SameDataTrans(v, v', v1);
    SameDataTrans(v, v1, SetAddr(v1, i, k, 0));
    var v2 := SetAddr(v1, i, k, 0);
    ReleasingShape(v2, i);
    hide At, Remark, SetAddr, Placed;
    SameDataKeys(v, v');
    SameDataKeys(v, v1);
    SameDataKeys(v, v2);
    forall j, m | j in v.inodes && 0 <= m <= MAXFILE
      ensures At(v2, j, m) == if j == i && m < k + 1 then 0 else At(v, j, m)
    {
      assert At(v1, j, m) == At(v', j, m);
    }
  }

  /** The bits of the blocks in the indirect block are clear, up to file block n. */
  ghost predicate TruncTable(v: Vol, v': Vol, i: nat, n: nat) {
    && Shape(v) && i in v.inodes && NDIRECT <= n <= MAXFILE + 1 && SameData(v, v')
    && Releasing(v', i, TableBlocks(v, i, n)) && SamePositions(v, v')
  }

  lemma TableStart(v: Vol, i: nat)
    requires Releasing(v, i, {})
    ensures TruncTable(v, v, i, NDIRECT)
  {
    hide Releasing;
    ReleasingShape(v, i);
    assert TableBlocks(v, i, NDIRECT) == {};
    hide At, Shape;
  }

  lemma TableSkip(v: Vol, v': Vol, i: nat, n: nat)
    requires TruncTable(v, v', i, n) && n <= MAXFILE && At(v', i, n) == 0
    ensures TruncTable(v, v', i, n + 1)
  {
    hide Releasing, SameData;
    assert At(v, i, n) == 0;
    hide At;
    assert TableBlocks(v, i, n + 1) == TableBlocks(v, i, n);
  }

  /** One turn of itrunc's second loop; and, with n == MAXFILE, the indirect block itself. */
  lemma TableTurn(v: Vol, v': Vol, i: nat, n: nat)
    requires TruncTable(v, v', i, n) && n <= MAXFILE && At(v', i, n) != 0
    ensures At(v', i, n) < v'.l.size && Marked(v', At(v', i, n))
    ensures TruncTable(v, Remark(v', At(v', i, n), false), i, n + 1)
  {
    hide SameData, Marked, At;
    ReleasingShape(v', i);
    hide Releasing;
    var b, freed := At(v', i, n), TableBlocks(v, i, n);
    assert At(v, i, n) == b;
    assert forall m :: NDIRECT <= m < n ==> At(v, i, m) != b;
    ReleaseMark(v', i, freed, n);
    RemarkData(v', b);
    SameDataTrans(v, v', Remark(v', b, false));
    assert TableBlocks(v, i, n + 1) == freed + {b};
    ReleasingShape(Remark(v', b, false), i);
    hide Remark, Placed;
  }

  /** No position of i is left; the others are as they were. */
  ghost predicate Cleared(v: Vol, v': Vol, i: nat) {
    && Shape(v) && Shape(v') && v'.inodes.Keys == v.inodes.Keys
    && forall j, m :: j in v.inodes && 0 <= m <= MAXFILE ==> At(v', j, m) == if j == i then 0 else At(v, j, m)
  }

  ghost predicate Truncated(v: Vol, v': Vol, i: nat) {
    && Good(v) && Good(v') && i in v.inodes && v'.inodes.Keys == v.inodes.Keys && v'.l == v.l
    && v'.inodes[i].size == 0 && (forall m :: 0 <= m <= MAXFILE ==> At(v', i, m) == 0)
    && (forall j :: j in v.inodes && j != i ==>
          v'.inodes[j].size == v.inodes[j].size && Contents(v', j) == Contents(v, j))
  }

  /** The end of itrunc: no block, size 0, and the other files as they were. */
  lemma TruncEnd(v: Vol, v': Vol, i: nat)
    requires Good(v) && i in v.inodes && SameData(v, v') && Releasing(v', i, {}) && Cleared(v, v', i)
    ensures Truncated(v, SetSize(v', i, 0), i)
  {
    hide Releasing, Good, At, SameBlock, Contents;
    GoodShape(v);
    ReleasingShape(v', i);
    var w := SetSize(v', i, 0);
    TruncatedGood(v', i);
    GoodShape(w);
    forall j | j in v.inodes && j != i
      ensures Contents(w, j) == Contents(v, j)
    {
      TruncOther(v, v', w, j);
    }
  }

  lemma TruncOther(v: Vol, v': Vol, w: Vol, j: nat)
    requires Good(v) && Shape(w) && j in v.inodes && SameData(v, v') && w.blocks == v'.blocks && w.l == v'.l
    requires j in w.inodes && w.inodes[j].size == v.inodes[j].size && forall m :: 0 <= m <= MAXFILE ==>
      At(w, j, m) == At(v, j, m)
    ensures Contents(w, j) == Contents(v, j)
  {
    hide BitmapExact, At;
    forall m | 0 <= m < MAXFILE && m * BSIZE < v.inodes[j].size
      ensures SameBlock(v, w, At(v, j, m))
    {
      assert At(v, j, m) != 0;
      assert SameBlock(v, v', At(v, j, m));
    }
    SameContents(v, w, j);
  }

  // ---------------------------------------------------------------- what readi and writei do

  function Min(a: nat, b: nat): nat {
    if a <= b then a else b
  }

  function Max(a: nat, b: nat): nat {
    if a <= b then b else a
  }

  /** The bytes of part of one block are the file's bytes at that offset. */
  lemma BlockSlice(v: Vol, i: nat, o: nat, m: nat)
    requires Good(v) && i in v.inodes && o + m <= v.inodes[i].size && 0 < m <= BSIZE - o % BSIZE
    ensures o / BSIZE < MAXFILE && At(v, i, o / BSIZE) != 0 && At(v, i, o / BSIZE) < v.l.size
    ensures v.blocks[At(v, i, o / BSIZE)][o % BSIZE..o % BSIZE + m] == Contents(v, i)[o..o + m]
  {
    hide At, BitmapExact;
    var k := o / BSIZE;
    assert k * BSIZE <= o && k < MAXFILE;
    assert At(v, i, k) != 0;
    var d, c := v.blocks[At(v, i, k)], Contents(v, i);
    forall y | o <= y < o + m
      ensures c[y] == d[y - o + o % BSIZE]
    {
      OffsetIn(o, y - o);
    }
    hide Contents;
    assert d[o % BSIZE..o % BSIZE + m] == c[o..o + m];
  }

  lemma OffsetIn(o: nat, x: nat)
    requires o % BSIZE + x < BSIZE
    ensures (o + x) / BSIZE == o / BSIZE && (o + x) % BSIZE == o % BSIZE + x
  {
    assert o + x == BSIZE * (o / BSIZE) + (o % BSIZE + x);
  }

  function Spliced(d: Block, x: nat, w: seq<Byte>): (r: Block)
    requires x + |w| <= |d|
    ensures |r| == |d| && forall j :: 0 <= j < |d| ==> r[j] == if x <= j < x + |w| then w[j - x] else d[j]
  {
    d[..x] + w + d[x + |w|..]
  }

  /** In the middle of a writei at offset `off`: bytes up to w are in place, and there is a block
      for every byte below o. */
  ghost predicate Writing(v0: Vol, v: Vol, i: nat, off: nat, o: nat, w: nat, src: seq<Byte>) {
    && Good(v0) && Good(v) && v.l == v0.l && v.inodes.Keys == v0.inodes.Keys && i in v0.inodes
    && off <= o <= w <= off + |src| && w <= MAXFILE * BSIZE && off <= v0.inodes[i].size
    && (forall j :: j in v0.inodes ==> v.inodes[j].size == v0.inodes[j].size)
    && (forall j :: j in v0.inodes && j != i ==> Contents(v, j) == Contents(v0, j))
    && (forall x :: 0 <= x < Max(v0.inodes[i].size, w) ==>
          ByteAt(v, i, x) == if off <= x < w then src[x - off] else ByteAt(v0, i, x))
    && (forall k :: 0 <= k < MAXFILE && k * BSIZE < o ==> At(v, i, k) != 0)
    && Grown(v0, v, i, off / BSIZE, o / BSIZE)
  }

  lemma WritingStart(v: Vol, i: nat, off: nat, src: seq<Byte>)
    requires Good(v) && i in v.inodes && off <= v.inodes[i].size
    ensures Writing(v, v, i, off, off, off, src)
  {
    hide At, BitmapExact, Placed, Grown;
    GrownRefl(v, i, off / BSIZE, off / BSIZE);
  }

  lemma ExtendedBytes(v: Vol, v': Vol, i: nat, bn: nat, x: nat)
    requires Extended(v, v', i, bn) && x < v.inodes[i].size
    ensures Shape(v) && Shape(v') && x < MAXFILE * BSIZE && ByteAt(v', i, x) == ByteAt(v, i, x)
  {
    hide At, Good;
    ExtendedFacts(v, v', i, bn);
    ExtendedContents(v, v', i, bn, i);
    assert Contents(v', i)[x] == Contents(v, i)[x];
  }

  /** Bytes of blocks that exist are the same after bmap, also those past the size. */
  lemma ExtendedBytesPast(v: Vol, v': Vol, i: nat, bn: nat, x: nat)
    requires Extended(v, v', i, bn) && x < MAXFILE * BSIZE && Shape(v) && At(v, i, x / BSIZE) != 0
    ensures Shape(v') && ByteAt(v', i, x) == ByteAt(v, i, x)
  {
    hide At, Good;
    ExtendedFacts(v, v', i, bn);
    assert x / BSIZE < MAXFILE;
    assert SameBlock(v, v', At(v, i, x / BSIZE));
  }

  lemma ExtendedGrows(v: Vol, v': Vol, i: nat, bn: nat)
    requires Extended(v, v', i, bn) && bn < MAXFILE
    ensures Grown(v, v', i, bn, bn)
  {
    hide At, Placed, NoHoles, BitmapExact;
  }

  /** bmap in the middle of a writei. */
  lemma WritingMapped(v0: Vol, v: Vol, v1: Vol, i: nat, off: nat, o: nat, src: seq<Byte>, bn: nat)
    requires Writing(v0, v, i, off, o, o, src) && Extended(v, v1, i, bn) && bn == o / BSIZE < MAXFILE
    ensures Writing(v0, v1, i, off, o, o, src)
  {
    hide At, Good, ByteAt, Contents, Grown;
    ExtendedFacts(v, v1, i, bn);
    ExtendedGrows(v, v1, i, bn);
    GrownTrans(v0, v, v1, i, off / BSIZE, bn, bn, bn);
    GoodShape(v0);
    forall j | j in v0.inodes && j != i
      ensures Contents(v1, j) == Contents(v0, j)
    {
      ExtendedContents(v, v1, i, bn, j);
    }
    forall x | 0 <= x < Max(v0.inodes[i].size, o)
      ensures ByteAt(v1, i, x) == ByteAt(v, i, x)
    {
      if x < v0.inodes[i].size {
        ExtendedBytes(v, v1, i, bn, x);
      } else {
        var k := x / BSIZE;
        assert k * BSIZE < o && k < MAXFILE;
        ExtendedBytesPast(v, v1, i, bn, x);
      }
    }
  }

  /** A byte of file i after p bytes of src have been copied into block k at offset o. */
  lemma PutByte(v: Vol, i: nat, o: nat, w: seq<Byte>, x: nat)
    requires Good(v) && i in v.inodes && o % BSIZE + |w| <= BSIZE && o / BSIZE < MAXFILE && x < MAXFILE * BSIZE
    requires At(v, i, o / BSIZE) != 0 && At(v, i, o / BSIZE) < v.l.size
    ensures var b := At(v, i, o / BSIZE);
      var v' := Put(v, b, Spliced(v.blocks[b], o % BSIZE, w));
      Shape(v') && ByteAt(v', i, x) == if o <= x < o + |w| then w[x - o] else ByteAt(v, i, x)
  {
    var k := o / BSIZE;
    var b := At(v, i, k);
    var d := Spliced(v.blocks[b], o % BSIZE, w);
    PutDataBytes(v, i, k, d, x);
    hide At, ByteAt, Good, Put;
    if x / BSIZE == k {
      InBlock(x, o, k);
      ByteAtIs(v, i, x, b);
    } else {
      OutOfBlock(x, o, |w|);
    }
  }

  lemma OutOfBlock(x: nat, o: nat, n: nat)
    requires x / BSIZE != o / BSIZE && o % BSIZE + n <= BSIZE
    ensures !(o <= x < o + n)
  {
  }

  /** The copy into the block: p bytes at offset o. They count if the copy was complete. */
  lemma WritingPut(v0: Vol, v: Vol, i: nat, off: nat, o: nat, o': nat, src: seq<Byte>, p: nat)
    requires Writing(v0, v, i, off, o, o, src) && o - off + p <= |src| && o % BSIZE + p <= BSIZE && o / BSIZE < MAXFILE
    requires Shape(v) && At(v, i, o / BSIZE) != 0 && (o' == o || o' == o + p)
    ensures At(v, i, o / BSIZE) < v.l.size
    ensures var b := At(v, i, o / BSIZE);
      Writing(v0, Put(v, b, Spliced(v.blocks[b], o % BSIZE, src[o - off..o - off + p])), i, off, o', o + p, src)
  {
    hide At, ByteAt, Contents, Good, Grown;
    var k := o / BSIZE;
    var b := At(v, i, k);
    PlacedAt(v, i, k);
    var w := src[o - off..o - off + p];
    var d := Spliced(v.blocks[b], o % BSIZE, w);
    var v' := Put(v, b, d);
    PutDataKeeps(v, i, k, d);
    GoodShape(v0);
    GoodShape(v');
    GrownSame(v0, v, v', i, off / BSIZE, k, o' / BSIZE);
    forall j | j in v0.inodes && j != i
      ensures Contents(v', j) == Contents(v0, j)
    {
      PutDataOthers(v, i, k, d, j);
    }
    assert o + p <= (k + 1) * BSIZE <= MAXFILE * BSIZE;
    hide Spliced;
    forall x | 0 <= x < Max(v0.inodes[i].size, o + p)
      ensures ByteAt(v', i, x) == if off <= x < o + p then src[x - off] else ByteAt(v0, i, x)
    {
      PutByte(v, i, o, w, x);
    }
    forall m | 0 <= m < MAXFILE && m * BSIZE < o'
      ensures At(v', i, m) != 0
    {
      assert m <= k;
      assert m < k ==> m * BSIZE < o;
    }
  }

  lemma InBlock(x: nat, o: nat, k: nat)
    requires x / BSIZE == k == o / BSIZE
    ensures x - o == x % BSIZE - o % BSIZE
  {
  }

  lemma ByteAtIs(v: Vol, i: nat, x: nat, b: nat)
    requires Shape(v) && i in v.inodes && x < MAXFILE * BSIZE && At(v, i, x / BSIZE) == b < v.l.size
    ensures ByteAt(v, i, x) == v.blocks[b][x % BSIZE]
  {
  }

  /** s with w written at offset off, which may make it longer. */
  function Overlay(s: seq<Byte>, off: nat, w: seq<Byte>): (r: seq<Byte>)
    requires off <= |s|
    ensures |r| == Max(|s|, off + |w|)
    ensures forall x :: 0 <= x < |r| ==> r[x] == if off <= x < off + |w| then w[x - off] else s[x]
  {
    s[..off] + w + if off + |w| < |s| then s[off + |w|..] else []
  }

  /** The outcome of a writei that returned r, having put w >= r bytes of src into blocks: the
      file is its old contents with those bytes over it, cut at the new size. The w - r bytes that
      are not counted are in a buffer that was released without log_write: they last only while it
      stays in the cache (module CacheLoss). */
  ghost predicate Written(v0: Vol, v: Vol, i: nat, off: nat, r: nat, w: nat, src: seq<Byte>) {
    && Good(v0) && Good(v) && i in v0.inodes && off <= v0.inodes[i].size && OthersSame(v0, v, i)
    && r <= w <= |src| && v.inodes[i].size == Max(v0.inodes[i].size, off + r)
    && Contents(v, i) == Overlay(Contents(v0, i), off, src[..w])[..v.inodes[i].size]
  }

  lemma SizePositions(v: Vol, i: nat, size: nat)
    requires Good(v) && i in v.inodes && size <= MAXFILE * BSIZE
    requires forall k :: 0 <= k < MAXFILE && k * BSIZE < size ==> At(v, i, k) != 0
    ensures var v' := SetSize(v, i, size); Good(v') && SamePositions(v, v')
  {
    var v' := SetSize(v, i, size);
    assert forall j, m :: j in v.inodes && 0 <= m <= MAXFILE ==> At(v', j, m) == At(v, j, m);
    hide At;
    assert SamePositions(v, v');
    SamePositionsPlaced(v, v');
    forall x | 0 <= x < v.l.size
      ensures (Marked(v', x) <==> Marked(v, x)) && (Owned(v', x) <==> Owned(v, x))
    {
      SameMarks(v, v', x);
      SamePositionsOwned(v, v', x);
    }
    hide Marked, Owned;
  }

  /** The end of writei: the size grows to cover the complete chunks. */
  lemma WritingDone(v0: Vol, v: Vol, i: nat, off: nat, o: nat, w: nat, src: seq<Byte>)
    requires Writing(v0, v, i, off, o, w, src)
    ensures Written(v0, SetSize(v, i, Max(v0.inodes[i].size, o)), i, off, o - off, w - off, src)
  {
    hide At, Good, ByteAt, Contents;
    var size := Max(v0.inodes[i].size, o);
    var v' := SetSize(v, i, size);
    GoodShape(v0);
    GoodShape(v);
    SizeCovered(v0, v, i, off, o, w, src);
    SizePositions(v, i, size);
    GoodShape(v');
    forall j | j in v0.inodes && j != i
      ensures Contents(v', j) == Contents(v0, j)
    {
      SizeOther(v, i, size, j);
    }
    WritingBytes(v0, v, i, off, o, w, src);
  }

  lemma SizeCovered(v0: Vol, v: Vol, i: nat, off: nat, o: nat, w: nat, src: seq<Byte>)
    requires Writing(v0, v, i, off, o, w, src)
    ensures forall k :: 0 <= k < MAXFILE && k * BSIZE < Max(v0.inodes[i].size, o) ==> At(v, i, k) != 0
  {
    hide At, Placed, BitmapExact;
  }

  lemma SizeOther(v: Vol, i: nat, size: nat, j: nat)
    requires Shape(v) && i in v.inodes && j in v.inodes && j != i && Shape(SetSize(v, i, size))
    ensures Contents(SetSize(v, i, size), j) == Contents(v, j)
  {
    forall x | 0 <= x < v.inodes[j].size
      ensures ByteAt(SetSize(v, i, size), j, x) == ByteAt(v, j, x)
    {
    }
  }

  lemma WritingBytes(v0: Vol, v: Vol, i: nat, off: nat, o: nat, w: nat, src: seq<Byte>)
    requires Writing(v0, v, i, off, o, w, src) && Shape(v0) && Shape(v)
    requires Shape(SetSize(v, i, Max(v0.inodes[i].size, o)))
    ensures var size := Max(v0.inodes[i].size, o);
      Contents(SetSize(v, i, size), i) == Overlay(Contents(v0, i), off, src[..w - off])[..size]
  {
    hide Good, ByteAt, SetSize, Overlay, At, Shape, Contents;
    var size := Max(v0.inodes[i].size, o);
    var v' := SetSize(v, i, size);
    SizeBytes(v, i, size);
    ContentsAt(v', i);
    ContentsAt(v0, i);
    OverlayIs(Contents(v', i), Contents(v0, i), off, src[..w - off]);
  }

  lemma SizeBytes(v: Vol, i: nat, size: nat)
    requires Shape(v) && i in v.inodes && Shape(SetSize(v, i, size))
    ensures var v' := SetSize(v, i, size); i in v'.inodes && v'.inodes[i].size == size
    ensures forall x :: 0 <= x < MAXFILE * BSIZE ==> ByteAt(SetSize(v, i, size), i, x) == ByteAt(v, i, x)
  {
    forall x | 0 <= x < MAXFILE * BSIZE
      ensures ByteAt(SetSize(v, i, size), i, x) == ByteAt(v, i, x)
    {
      hide Shape;
    }
  }

  lemma ContentsAt(v: Vol, i: nat)
    requires Shape(v) && i in v.inodes
    ensures |Contents(v, i)| == v.inodes[i].size <= MAXFILE * BSIZE
    ensures forall x :: 0 <= x < v.inodes[i].size ==> Contents(v, i)[x] == ByteAt(v, i, x)
  {
  }

  lemma OverlayIs(s: seq<Byte>, s0: seq<Byte>, off: nat, w: seq<Byte>)
    requires off <= |s0| && |s| <= Max(|s0|, off + |w|)
    requires forall x :: 0 <= x < |s| ==> s[x] == if off <= x < off + |w| then w[x - off] else s0[x]
    ensures s == Overlay(s0, off, w)[..|s|]
  {
  }

  // ---------------------------------------------------------------- how much writei logs

  /** The number of file blocks that the bytes from off to o lie in. */
  function Chunks(off: nat, o: nat): nat
    requires off <= o
  {
    if o == off then 0 else (o - 1) / BSIZE - off / BSIZE + 1
  }

  lemma ChunkStep(off: nat, o: nat, m: nat)
    requires off <= o && (o == off || o % BSIZE == 0) && 0 < m <= BSIZE - o % BSIZE
    ensures Chunks(off, o + m) == Chunks(off, o) + 1
  {
    OffsetIn(o, m - 1);
    if o > off {
      assert (o - 1) / BSIZE == o / BSIZE - 1;
    }
  }

  lemma ChunksMonotone(off: nat, o: nat, o': nat)
    requires off <= o <= o'
    ensures Chunks(off, o) <= Chunks(off, o')
  {
    if off < o {
      assert (o - 1) / BSIZE <= (o' - 1) / BSIZE;
      assert off / BSIZE <= (o - 1) / BSIZE;
    }
  }

  /** How many of these blocks can be new: not the first one, if off is inside a block. */
  function NewChunks(off: nat, o: nat): nat
    requires off <= o
  {
    if o > off && off % BSIZE != 0 && Chunks(off, o) > 0 then Chunks(off, o) - 1 else Chunks(off, o)
  }

  /** The indirect block and its bitmap block. */
  ghost function TableLog(v: Vol, i: nat): set<nat>
    requires Shape(v) && i in v.inodes
  {
    if At(v, i, MAXFILE) == 0 then {} else {At(v, i, MAXFILE), BitmapBlock(v.l, At(v, i, MAXFILE))}
  }

  /** Everything logged since `base` is a data block in d, a bitmap block in b, or about the
      indirect block. */
  ghost predicate Accounted(v: Vol, i: nat, base: set<nat>, logged: set<nat>, d: set<nat>, b: set<nat>)
    requires Shape(v) && i in v.inodes
  {
    && logged <= base + d + b + TableLog(v, i)
    && (forall x :: x in b ==> v.l.bmapstart <= x <= v.l.bmapstart + (v.l.size - 1) / BPB)
  }

  lemma HasTable(v: Vol, i: nat, bn: nat)
    requires Shape(v) && i in v.inodes && NDIRECT <= bn < MAXFILE
    ensures At(v, i, bn) != 0 ==> At(v, i, MAXFILE) != 0
  {
  }

  /** One chunk adds at most one data block, and one bitmap block if the block is new. */
  lemma AccountedStep(v: Vol, v1: Vol, i: nat, bn: nat, base: set<nat>, logged: set<nat>,
                      logged': set<nat>, d: set<nat>, b: set<nat>)
    requires Extended(v, v1, i, bn) && Shape(v) && Shape(v1) && bn < MAXFILE && Accounted(v, i, base, logged, d, b)
    requires logged' <= logged + BmapLog(v, v1, i, bn) + {At(v1, i, bn)}
    requires At(v1, i, bn) == 0 ==> logged' <= logged + BmapLog(v, v1, i, bn)
    ensures var d' := if At(v1, i, bn) == 0 then d else d + {At(v1, i, bn)};
      var b' := if At(v1, i, bn) == At(v, i, bn) then b else b + {BitmapBlock(v.l, At(v1, i, bn))};
      Accounted(v1, i, base, logged', d', b')
  {
    hide At, Good;
    ExtendedFacts(v, v1, i, bn);
    if bn >= NDIRECT {
      HasTable(v1, i, bn);
    }
    if At(v1, i, bn) != At(v, i, bn) {
      PlacedAt(v1, i, bn);
      assert At(v1, i, bn) / BPB <= (v.l.size - 1) / BPB;
    }
  }

  lemma DirectSafe(v: Vol, i: nat, k: nat, b: nat, st: Strays)
    requires Good(v) && b < v.l.size && !Marked(v, b) && i in v.inodes && k < NDIRECT && At(v, i, k) == 0
    ensures TableSafe(v, SetAddr(Balloced(v, b), i, k, b), st, i)
  {
    DirectExtends(v, i, k, b);
    ExtendedFacts(v, SetAddr(Balloced(v, b), i, k, b), i, k);
    hide Good, Extended, Balloced;
    assert Balloced(v, b).inodes == v.inodes by { BallocedInodes(v, b); }
  }

  lemma BallocedInodes(v: Vol, b: nat)
    requires Shape(v) && b < v.l.size
    ensures Balloced(v, b).inodes == v.inodes
  {
  }

  /** A new indirect block is not stray. */
  ghost predicate TableSafe(v: Vol, v': Vol, st: Strays, i: nat) {
    && Shape(v) && Shape(v') && i in v.inodes && i in v'.inodes
    && (At(v', i, MAXFILE) != At(v, i, MAXFILE) ==> At(v', i, MAXFILE) !in st)
  }

  /** What a block falls back to once it is stored into without log_write. */
  ghost function Strayed(v: Vol, st: Strays, b: nat): Strays
    requires b in v.blocks
  {
    if b in st then st else st[b := v.blocks[b]]
  }

  /** In the middle of a writei at offset off: files fall back as before, except that the blocks up to
      o are safe. */
  ghost predicate Tracked(v0: Vol, st0: Strays, v: Vol, st: Strays, i: nat, off: nat, o: nat) {
    && Falls(v0, st0, v, st) && Backed(v, st) && i in v.inodes
    && forall k :: off / BSIZE <= k < MAXFILE && k * BSIZE < o && off < o ==> At(v, i, k) !in st
  }

  /** From v to v', data has been stored at offset o of file i, in one block, without log_write. */
  ghost predicate Faulted(v: Vol, st: Strays, v': Vol, st': Strays, i: nat, o: nat, data: seq<Byte>) {
    if data == [] then v' == v && st' == st else
      && Shape(v) && i in v.inodes && o / BSIZE < MAXFILE && o % BSIZE + |data| <= BSIZE
      && var b := At(v, i, o / BSIZE);
      && 0 != b < v.l.size && v' == Put(v, b, Spliced(v.blocks[b], o % BSIZE, data)) && st' == Strayed(v, st, b)
  }

  lemma FaultedAt(v: Vol, v': Vol, i: nat, k: nat, b: nat)
    requires Good(v) && Shape(v) && Shape(v') && i in v.inodes && k < MAXFILE && b == At(v, i, k)
    requires if b == 0 then v' == v else b in v'.blocks && v' == Put(v, b, v'.blocks[b])
    ensures i in v'.inodes && At(v', i, k) == b
  {
    hide At, BitmapExact;
    if b != 0 {
      PlacedAt(v, i, k);
      PutDataKeeps(v, i, k, v'.blocks[b]);
    }
  }

  lemma FaultedNone(v: Vol, st: Strays, i: nat, o: nat)
    ensures Faulted(v, st, v, st, i, o, [])
  {
  }

  lemma FaultedIs(v: Vol, st: Strays, v': Vol, st': Strays, i: nat, o: nat, data: seq<Byte>)
    requires Shape(v) && i in v.inodes && o / BSIZE < MAXFILE && o % BSIZE + |data| <= BSIZE
    requires var b := At(v, i, o / BSIZE);
      if b == 0 then data == [] && v' == v && st' == st
      else b < v.l.size && v' == Put(v, b, Spliced(v.blocks[b], o % BSIZE, data))
           && st' == if data == [] then st else Strayed(v, st, b)
    ensures Faulted(v, st, v', st', i, o, data)
  {
    hide At;
    var b := At(v, i, o / BSIZE);
    if b != 0 && data == [] {
      assert Spliced(v.blocks[b], o % BSIZE, []) == v.blocks[b];
      assert v'.blocks == v.blocks;
    }
  }

  lemma ExtendedFalls(v: Vol, st: Strays, v': Vol, st': Strays, i: nat, bn: nat)
    requires Extended(v, v', i, bn) && Sub(st, st') && TableSafe(v, v', st', i) && Backed(v, st)
    ensures Falls(v, st, v', st') && Backed(v', st')
  {
    hide BitmapExact, Placed;
    forall j | j in v.inodes
      ensures v'.inodes[j].addrs[NDIRECT] == At(v', j, MAXFILE) && v.inodes[j].addrs[NDIRECT] == At(v, j, MAXFILE)
    {
    }
    hide At;
    forall j, k | j in v.inodes && 0 <= k < MAXFILE
      ensures FallsAt(v, st, v', st', j, k)
    {
    }
  }

  lemma TrackedStart(v: Vol, st: Strays, i: nat, off: nat)
    requires Shape(v) && Backed(v, st) && i in v.inodes
    ensures Tracked(v, st, v, st, i, off, off)
  {
    FallsRefl(v, st);
  }

  lemma TrackedMapped(v0: Vol, st0: Strays, v: Vol, st: Strays, v1: Vol, st1: Strays, i: nat, off: nat, o: nat,
                      src: seq<Byte>)
    requires Tracked(v0, st0, v, st, i, off, o) && Writing(v0, v, i, off, o, o, src) && o / BSIZE < MAXFILE
    requires Extended(v, v1, i, o / BSIZE) && Sub(st, st1) && TableSafe(v, v1, st1, i)
    ensures Tracked(v0, st0, v1, st1, i, off, o)
  {
    hide Good, Falls, Backed, ByteAt, Contents, At, TableSafe;
    ExtendedFacts(v, v1, i, o / BSIZE);
    ExtendedFalls(v, st, v1, st1, i, o / BSIZE);
    FallsTrans(v0, st0, v, st, v1, st1);
  }

  lemma TrackedPut(v0: Vol, st0: Strays, v: Vol, st: Strays, v': Vol, st': Strays, i: nat, off: nat, o: nat, m: nat,
                   src: seq<Byte>, w: seq<Byte>)
    requires Writing(v0, v, i, off, o, o, src)
    requires Tracked(v0, st0, v, st, i, off, o) && Good(v) && Shape(v) && i in v.inodes && off <= o
    requires o / BSIZE < MAXFILE && 0 < m <= BSIZE - o % BSIZE && |w| == m && At(v, i, o / BSIZE) != 0
    requires At(v, i, o / BSIZE) < v.l.size && st' == st - {At(v, i, o / BSIZE)}
    requires v' == Put(v, At(v, i, o / BSIZE), Spliced(v.blocks[At(v, i, o / BSIZE)], o % BSIZE, w))
    ensures Tracked(v0, st0, v', st', i, off, o + m)
  {
    var k := o / BSIZE;
    var d := Spliced(v.blocks[At(v, i, k)], o % BSIZE, w);
    hide Good, Falls, At, Spliced, ByteAt, Contents, Backed, SamePositions;
    PutDataKeeps(v, i, k, d);
    GoodShape(v');
    SameFalls(v, st, v', st');
    FallsTrans(v0, st0, v, st, v', st');
    assert Backed(v', st') by { SubBacked(v, st, v', st'); }
    assert forall q :: 0 <= q < MAXFILE ==> At(v', i, q) == At(v, i, q) by { SamePlaces(v, v', i); }
    ChunksSafe(v, st, v', i, off, o, m);
  }

  /** The chunk that ends at o + m is safe, with those before it. */
  lemma ChunksSafe(v: Vol, st: Strays, v': Vol, i: nat, off: nat, o: nat, m: nat)
    requires Shape(v) && Shape(v') && i in v.inodes && i in v'.inodes && off <= o && o / BSIZE < MAXFILE
    requires 0 < m <= BSIZE - o % BSIZE
    requires forall q :: 0 <= q < MAXFILE ==> At(v', i, q) == At(v, i, q)
    requires forall q :: off / BSIZE <= q < MAXFILE && q * BSIZE < o && off < o ==> At(v, i, q) !in st
    ensures forall q :: off / BSIZE <= q < MAXFILE && q * BSIZE < o + m ==> At(v', i, q) !in st - {At(v, i, o / BSIZE)}
  {
    hide At;
    forall q | off / BSIZE <= q < MAXFILE && q * BSIZE < o + m
      ensures At(v', i, q) !in st - {At(v, i, o / BSIZE)}
    {
      ChunkEnd(o, m, q);
      if q != o / BSIZE {
        ChunkStart(off, o, q);
      }
    }
  }

  lemma SubBacked(v: Vol, st: Strays, v': Vol, st': Strays)
    requires Shape(v) && Shape(v') && Backed(v, st) && Sub(st, st') && v'.inodes == v.inodes && v'.l == v.l
    ensures Backed(v', st')
  {
  }

  lemma SamePlaces(v: Vol, v': Vol, i: nat)
    requires Shape(v) && Shape(v') && SamePositions(v, v') && i in v.inodes
    ensures i in v'.inodes && forall q :: 0 <= q < MAXFILE ==> At(v', i, q) == At(v, i, q)
  {
    hide At;
  }

  lemma ChunkEnd(o: nat, m: nat, q: nat)
    requires 0 < m <= BSIZE - o % BSIZE && q * BSIZE < o + m
    ensures q * BSIZE < o || q == o / BSIZE
  {
  }

  lemma ChunkStart(off: nat, o: nat, q: nat)
    requires off <= o && off / BSIZE <= q && q * BSIZE < o
    ensures off < o || q == o / BSIZE
  {
  }

  /** An unlogged store makes its block stray; the size set afterwards changes no place. */
  lemma FaultedSized(v0: Vol, st0: Strays, mid: Vol, safe: Strays, v: Vol, st: Strays, i: nat, off: nat, o: nat,
                     src: seq<Byte>, data: seq<Byte>, size: nat)
    requires Writing(v0, mid, i, off, o, o, src) && Tracked(v0, st0, mid, safe, i, off, o)
    requires Faulted(mid, safe, v, st, i, o, data) && size == Max(v0.inodes[i].size, o) && i in v.inodes
    ensures Tracked(v0, st0, SetSize(mid, i, size), safe, i, off, o)
    ensures Faulted(SetSize(mid, i, size), safe, SetSize(v, i, size), st, i, o, data)
    ensures Shape(SetSize(v, i, size)) && Backed(SetSize(v, i, size), st)
  {
    hide ByteAt, Contents, Good, Spliced, At, Backed, Falls;
    GoodShape(mid);
    SizedTracked(v0, st0, mid, safe, i, off, o, size);
    assert Backed(mid, safe);
    hide Tracked;
    FaultedBacked(mid, safe, v, st, i, o, data);
    SizedBacked(v, st, i, size);
    if data != [] {
      SizedAt(mid, i, size, i, o / BSIZE);
    }
  }

  lemma FaultedBacked(v: Vol, st: Strays, v': Vol, st': Strays, i: nat, o: nat, data: seq<Byte>)
    requires Good(v) && Shape(v) && Backed(v, st) && Faulted(v, st, v', st', i, o, data)
    ensures Good(v') && Shape(v') && Backed(v', st') && v'.inodes == v.inodes && v'.l == v.l
  {
    if data != [] {
      var k := o / BSIZE;
      var b := At(v, i, k);
      var d := Spliced(v.blocks[b], o % BSIZE, data);
      PutDataKeeps(v, i, k, d);
      DataPlace(v, i, k);
      assert forall j :: j in v.inodes ==> v.inodes[j].addrs[NDIRECT] == At(v, j, MAXFILE);
      hide Good, Spliced, At;
      GoodShape(v');
    }
  }

  lemma SizedAt(v: Vol, i: nat, size: nat, j: nat, k: nat)
    requires Shape(v) && i in v.inodes && size <= MAXFILE * BSIZE && j in v.inodes && k <= MAXFILE
    ensures Shape(SetSize(v, i, size)) && At(SetSize(v, i, size), j, k) == At(v, j, k)
  {
    assert Shape(SetSize(v, i, size));
  }

  lemma SizedBacked(v: Vol, st: Strays, i: nat, size: nat)
    requires Shape(v) && i in v.inodes && size <= MAXFILE * BSIZE && Backed(v, st)
    ensures Shape(SetSize(v, i, size)) && Backed(SetSize(v, i, size), st)
  {
    hide At;
  }

  lemma SizedTracked(v0: Vol, st0: Strays, v: Vol, st: Strays, i: nat, off: nat, o: nat, size: nat)
    requires Tracked(v0, st0, v, st, i, off, o) && size <= MAXFILE * BSIZE && Shape(v)
    ensures Tracked(v0, st0, SetSize(v, i, size), st, i, off, o)
  {
    var v' := SetSize(v, i, size);
    assert forall j, k :: j in v.inodes && 0 <= k <= MAXFILE ==> At(v', j, k) == At(v, j, k) by {
      forall j, k | j in v.inodes && 0 <= k <= MAXFILE
        ensures At(v', j, k) == At(v, j, k)
      {
        SizedAt(v, i, size, j, k);
      }
    }
    SizedBacked(v, st, i, size);
    hide At, Backed;
    forall j, k | j in v0.inodes && 0 <= k < MAXFILE
      ensures FallsAt(v0, st0, v', st, j, k)
    {
      assert FallsAt(v0, st0, v, st, j, k);
    }
  }

  /** The buffer of block b is recycled. A file with that block shows what it falls back to; what any
      file falls back to stays. */
  ghost predicate Reverted(v: Vol, st: Strays, v': Vol, st': Strays, b: nat) {
    && Good(v) && Good(v') && Shape(v) && Shape(v') && v'.l == v.l && v'.inodes == v.inodes && b !in st'
    && (forall j, x :: j in v.inodes && 0 <= x < v.inodes[j].size ==>
          ByteAt(v', j, x) == if At(v, j, x / BSIZE) == b then Under(v, st, j, x) else ByteAt(v, j, x))
    && (forall j, x :: j in v.inodes && 0 <= x < v.inodes[j].size ==> Under(v', st', j, x) == Under(v, st, j, x))
    && (forall j, k :: j in v.inodes && 0 <= k < MAXFILE && At(v', j, k) in st' ==> At(v, j, k) in st)
  }

  /** One byte, through a recycled buffer. */
  lemma RecycleByte(v: Vol, st: Strays, v': Vol, b: nat, j: nat, x: nat)
    requires Shape(v) && Shape(v') && SamePositions(v, v') && b in st && |st[b]| == BSIZE && b < v.l.size
    requires v' == Put(v, b, st[b]) && j in v.inodes && x < MAXFILE * BSIZE
    requires At(v, j, x / BSIZE) < v.l.size
    ensures ByteAt(v', j, x) == if At(v, j, x / BSIZE) == b then Under(v, st, j, x) else ByteAt(v, j, x)
    ensures Under(v', st - {b}, j, x) == Under(v, st, j, x)
  {
    hide At;
    assert At(v', j, x / BSIZE) == At(v, j, x / BSIZE);
  }

  lemma RecycleReverts(v: Vol, st: Strays, b: nat)
    requires Good(v) && Shape(v) && Backed(v, st) && b in st
    ensures var v', st' := Put(v, b, st[b]), st - {b};
      Good(v') && Shape(v') && Backed(v', st') && Reverted(v, st, v', st', b)
  {
    var v', st' := Put(v, b, st[b]), st - {b};
    assert forall j :: j in v.inodes ==> v.inodes[j].addrs[NDIRECT] == At(v, j, MAXFILE);
    hide Good, At, ByteAt, Under, SamePositions, Shape;
    PutBlockKeeps(v, b, st[b]);
    GoodShape(v');
    SubBacked(v, st, v', st');
    forall j, x | j in v.inodes && 0 <= x < v.inodes[j].size
      ensures x < MAXFILE * BSIZE
      ensures ByteAt(v', j, x) == if At(v, j, x / BSIZE) == b then Under(v, st, j, x) else ByteAt(v, j, x)
      ensures Under(v', st', j, x) == Under(v, st, j, x)
    {
      InFile(v, j, x);
      RecycleByte(v, st, v', b, j, x);
    }
    forall j | j in v.inodes
      ensures forall q :: 0 <= q < MAXFILE ==> At(v', j, q) == At(v, j, q)
    {
      SamePlaces(v, v', j);
    }
  }

  lemma InFile(v: Vol, j: nat, x: nat)
    requires Good(v) && j in v.inodes && x < v.inodes[j].size
    ensures x < MAXFILE * BSIZE && At(v, j, x / BSIZE) < v.l.size
  {
    hide At, BitmapExact;
    assert x / BSIZE * BSIZE <= x;
    assert At(v, j, x / BSIZE) != 0;
  }

  lemma TruncFalls(v: Vol, st: Strays, v': Vol, st': Strays, i: nat)
    requires Shape(v) && Backed(v, st) && Cleared(v, v', i) && Sub(st, st') && i in v.inodes && v'.l == v.l
    ensures Falls(v, st, SetSize(v', i, 0), st') && Shape(SetSize(v', i, 0)) && Backed(SetSize(v', i, 0), st')
  {
    var w := SetSize(v', i, 0);
    forall j, m | j in v.inodes && 0 <= m <= MAXFILE
      ensures Shape(w) && At(w, j, m) == if j == i then 0 else At(v, j, m)
    {
      SizedAt(v', i, 0, j, m);
    }
    assert forall j :: j in v.inodes ==> w.inodes[j].addrs[NDIRECT] == At(w, j, MAXFILE);
    assert forall j :: j in v.inodes ==> v.inodes[j].addrs[NDIRECT] == At(v, j, MAXFILE);
    hide At, Shape, Cleared;
    ClearedFalls(v, st, w, st', i);
  }

  lemma ClearedFalls(v: Vol, st: Strays, w: Vol, st': Strays, i: nat)
    requires Shape(v) && Shape(w) && Backed(v, st) && Sub(st, st') && i in v.inodes && w.l == v.l
    requires w.inodes.Keys == v.inodes.Keys
    requires forall j, m :: j in v.inodes && 0 <= m <= MAXFILE ==> At(w, j, m) == if j == i then 0 else At(v, j, m)
    requires forall j :: j in v.inodes ==> w.inodes[j].addrs[NDIRECT] == At(w, j, MAXFILE)
    requires forall j :: j in v.inodes ==> v.inodes[j].addrs[NDIRECT] == At(v, j, MAXFILE)
    ensures Falls(v, st, w, st') && Backed(w, st')
  {
    hide At;
    assert 0 !in st;
  }

  class Fs {
    const l: Layout
    var blocks: map<nat, Block>
    var inodes: map<nat, Inode>
    var dinodes: map<nat, Inode>
    ghost var logged: set<nat>
    var stray: Strays

    ghost function V(): Vol
      reads this
    {
      Vol(l, blocks, inodes)
    }

    method LogWrite(b: nat)
      modifies this`logged, this`stray
      ensures logged == old(logged) + {b} && stray == old(stray) - {b}
    {
      logged := logged + {b};
      stray := stray - {b};
    }

    method Bzero(b: nat)
      modifies this`blocks, this`logged, this`stray
      ensures blocks == old(blocks)[b := Zeros(BSIZE)] && logged == old(logged) + {b} && stray == old(stray) - {b}
    {
      blocks := blocks[b := Zeros(BSIZE)];
      LogWrite(b);
    }

    /** balloc's inner loop: the first clear bit of the bitmap block that starts at block b. */
    method ScanBlock(b: nat) returns (found: bool, bi: nat)
      requires Shape(V()) && b % BPB == 0 && b < l.size && FullBelow(V(), b)
      ensures found ==> bi < BPB && b + bi < l.size && !Marked(V(), b + bi) && FullBelow(V(), b + bi)
      ensures !found ==> FullBelow(V(), b + BPB)
    {
      BitmapFits(l, b);
      var bp := blocks[BitmapBlock(l, b)];
      bi := 0;
      while bi < BPB && b + bi < l.size
        invariant 0 <= bi <= BPB && FullBelow(V(), b + bi)
      {
        ScanIndex(l, b, bi);
        if !Bit(bp[bi / 8], bi % 8) {
          return true, bi;
        }
        bi := bi + 1;
      }
      return false, bi;
    }

    /** Allocate the first block whose bit is clear, mark it and zero it; 0 if there is none. */
    method Balloc() returns (r: nat)
      requires Good(V())
      modifies this`blocks, this`logged, this`stray
      ensures Shape(old(V()))
      ensures r == 0 ==> blocks == old(blocks) && logged == old(logged) && FullBelow(V(), l.size)
      ensures r != 0 ==> r < l.size && !Marked(old(V()), r) && FullBelow(old(V()), r)
      ensures r != 0 ==> V() == Put(Remark(old(V()), r, true), r, Zeros(BSIZE))
      ensures r != 0 ==> logged == old(logged) + {BitmapBlock(l, r), r}
      ensures stray == if r == 0 then old(stray) else old(stray) - {BitmapBlock(l, r)} - {r}
    {
      hide Placed, NoHoles, BitmapExact, At, Marked, BitmapWith;
      var b := 0;
      while b < l.size
        invariant b % BPB == 0 && blocks == old(blocks) && logged == old(logged) && FullBelow(V(), b)
        invariant stray == old(stray)
      {
        var found, bi := ScanBlock(b);
        if found {
          MarkBlock(b, bi);
          Bzero(b + bi);
          FirstIsMarked(old(V()));
          return b + bi;
        }
        b := b + BPB;
      }
      return 0;
    }

    method MarkBlock(b: nat, bi: nat)
      requires Shape(V()) && b % BPB == 0 && bi < BPB && b + bi < l.size
      modifies this`blocks, this`logged, this`stray
      ensures V() == Remark(old(V()), b + bi, true) && logged == old(logged) + {BitmapBlock(l, b + bi)}
      ensures stray == old(stray) - {BitmapBlock(l, b + bi)}
    {
      ScanIndex(l, b, bi);
      BitmapFits(l, b + bi);
      var bp: Block := blocks[BitmapBlock(l, b)];
      ByteFits(bp[bi / 8], bi % 8);
      bp := bp[bi / 8 := WithBit(bp[bi / 8], bi % 8)];
      blocks := blocks[BitmapBlock(l, b) := bp];
      LogWrite(BitmapBlock(l, b));
    }

    /** Free block b; panics if its bit is clear. */
    method Bfree(b: nat) returns (panic: bool)
      requires Shape(V()) && b < l.size
      modifies this`blocks, this`logged, this`stray
      ensures Shape(old(V())) && (panic <==> !Marked(old(V()), b))
      ensures panic ==> blocks == old(blocks)
      ensures !panic ==> V() == Remark(old(V()), b, false) && logged == old(logged) + {BitmapBlock(l, b)}
      ensures Sub(old(stray), stray)
    {
      BitmapFits(l, b);
      BitOffset(b);
      var bp := blocks[BitmapBlock(l, b)];
      var bi := b % BPB;
      panic := !Bit(bp[bi / 8], bi % 8);
      if !panic {
        ByteFits(bp[bi / 8], bi % 8);
        blocks := blocks[BitmapBlock(l, b) := bp[bi / 8 := WithoutBit(bp[bi / 8], bi % 8)]];
        LogWrite(BitmapBlock(l, b));
      }
    }

    /** The disk block of file block bn of inode i, allocated if there is none; 0 if out of
        space. A block that was there is returned without any change. */
    method Bmap(i: nat, bn: nat) returns (panic: bool, addr: nat)
      requires Good(V()) && i in inodes
      modifies this`blocks, this`inodes, this`logged, this`stray
      ensures panic <==> bn >= MAXFILE
      ensures panic ==> V() == old(V()) && logged == old(logged)
      ensures !panic ==> Extended(old(V()), V(), i, bn) && addr == At(V(), i, bn)
      ensures !panic && At(old(V()), i, bn) != 0 ==> V() == old(V()) && logged == old(logged) && stray == old(stray)
      ensures Sub(old(stray), stray) && (!panic ==> TableSafe(old(V()), V(), stray, i))
      ensures !panic ==> logged <= old(logged) + BmapLog(old(V()), V(), i, bn)
      ensures !panic && addr == 0 ==> FullBelow(V(), l.size)
    {
      hide Good, Extended, Marked, Balloced, SetAddr, FullBelow;
      if bn >= NDIRECT + NINDIRECT {
        return true, 0;
      }
      panic := false;
      GoodShape(V());
      ExtendedRefl(V(), i, bn);
      ghost var v := V();
      if bn < NDIRECT {
        addr := inodes[i].addrs[bn];
        if addr == 0 {
          addr := Balloc();
          if addr == 0 {
            return;
          }
          SetInodeAddr(i, bn, addr);
          assert V() == SetAddr(Balloced(v, addr), i, bn, addr) by {
            BallocedIs(v, addr);
          }
          DirectExtends(v, i, bn, addr);
          DirectSafe(v, i, bn, addr, stray);
        } else {
          assert TableSafe(v, V(), stray, i);
        }
        return;
      }
      addr := BmapIndirect(i, bn);
    }

    method SetInodeAddr(i: nat, j: nat, b: nat)
      requires i in inodes && j < |inodes[i].addrs|
      modifies this`inodes
      ensures V() == SetAddr(old(V()), i, j, b)
    {
      inodes := inodes[i := inodes[i].(addrs := inodes[i].addrs[j := b])];
    }

    /** Load the indirect block, allocating it if necessary. */
    method BmapTable(i: nat, bn: nat) returns (table: nat)
      requires Good(V()) && i in inodes && NDIRECT <= bn < MAXFILE
      modifies this`blocks, this`inodes, this`logged, this`stray
      ensures Extended(old(V()), V(), i, bn) && table == At(V(), i, MAXFILE)
      ensures At(V(), i, bn) == At(old(V()), i, bn)
      ensures At(old(V()), i, MAXFILE) != 0 ==> V() == old(V()) && logged == old(logged)
      ensures table == 0 ==> V() == old(V()) && logged == old(logged) && FullBelow(V(), l.size) && At(V(), i, bn) == 0
      ensures At(old(V()), i, MAXFILE) == 0 && table != 0 ==> logged == old(logged) + {table, BitmapBlock(l, table)}
      ensures At(old(V()), i, MAXFILE) != 0 || table == 0 ==> stray == old(stray)
      ensures Sub(old(stray), stray) && TableSafe(old(V()), V(), stray, i)
    {
      hide Good, Extended, Marked, Balloced, SetAddr, FullBelow;
      GoodShape(V());
      ExtendedRefl(V(), i, bn);
      ghost var v := V();
      table := inodes[i].addrs[NDIRECT];
      if table == 0 {
        table := Balloc();
        if table == 0 {
          return;
        }
        SetInodeAddr(i, NDIRECT, table);
        assert V() == SetAddr(Balloced(v, table), i, NDIRECT, table) by {
          BallocedIs(v, table);
        }
        TableExtends(v, i, bn, table);
        ExtendedFacts(v, V(), i, bn);
      }
    }

    /** The entry of the indirect block for file block bn, allocated if there is none. */
    method BmapEntry(i: nat, bn: nat, table: nat) returns (addr: nat)
      requires Good(V()) && i in inodes && NDIRECT <= bn < MAXFILE && table == At(V(), i, MAXFILE) != 0
      modifies this`blocks, this`logged, this`stray
      ensures Extended(old(V()), V(), i, bn) && addr == At(V(), i, bn) && At(V(), i, MAXFILE) == table
      ensures At(old(V()), i, bn) != 0 ==> V() == old(V()) && logged == old(logged)
      ensures At(old(V()), i, bn) == 0 && addr != 0 ==> logged == old(logged) + {addr, BitmapBlock(l, addr), table}
      ensures addr == 0 ==> V() == old(V()) && logged == old(logged) && FullBelow(V(), l.size)
      ensures Sub(old(stray), stray) && (At(old(V()), i, bn) != 0 ==> stray == old(stray))
    {
      hide Good, Extended, Marked, Balloced, FullBelow, Word, PutWord;
      GoodShape(V());
      ExtendedRefl(V(), i, bn);
      ghost var v := V();
      addr := Word(blocks[table], bn - NDIRECT);
      if addr == 0 {
        addr := Balloc();
        if addr == 0 {
          return;
        }
        BallocedIs(v, addr);
        EntryExtends(v, i, bn, addr);
        var a: Block := PutWord(blocks[table], bn - NDIRECT, addr);
        blocks := blocks[table := a];
        LogWrite(table);
        EntryKeepsTable(v, V(), i, bn);
      }
    }

    /** bmap past the direct blocks. */
    method BmapIndirect(i: nat, bn: nat) returns (addr: nat)
      requires Good(V()) && i in inodes && NDIRECT <= bn < MAXFILE
      modifies this`blocks, this`inodes, this`logged, this`stray
      ensures Extended(old(V()), V(), i, bn) && addr == At(V(), i, bn)
      ensures At(old(V()), i, bn) != 0 ==> V() == old(V()) && logged == old(logged) && stray == old(stray)
      ensures logged <= old(logged) + BmapLog(old(V()), V(), i, bn)
      ensures addr == 0 ==> FullBelow(V(), l.size)
      ensures Sub(old(stray), stray) && TableSafe(old(V()), V(), stray, i)
    {
      hide Good, Extended, Marked, Balloced, SetAddr, FullBelow, At;
      ghost var v := V();
      var table := BmapTable(i, bn);
      ghost var v1 := V();
      ExtendedFacts(v, v1, i, bn);
      if table == 0 {
        return 0;
      }
      addr := BmapEntry(i, bn, table);
      ExtendedFacts(v1, V(), i, bn);
      ExtendedTrans(v, v1, V(), i, bn);
      TableFirst(v, v1, V(), i, bn);
    }

    /** Copy the in-memory inode to disk. Inodes are not in `blocks`, and their blocks are never stray. */
    method Iupdate(i: nat)
      requires i in inodes
      modifies this`dinodes, this`logged
      ensures dinodes == old(dinodes)[i := inodes[i]] && logged == old(logged) + {i / IPB + l.inodestart}
    {
      dinodes := dinodes[i := inodes[i]];
      logged := logged + {i / IPB + l.inodestart};
    }

    /** Discard the contents of inode i. No bfree panics, and the other files stay. */
    method Itrunc(i: nat) returns (panic: bool)
      requires Good(V()) && i in inodes && Shape(V()) && Backed(V(), stray)
      modifies this
      ensures !panic && Truncated(old(V()), V(), i) && dinodes == old(dinodes)[i := inodes[i]]
      ensures Falls(old(V()), old(stray), V(), stray) && Shape(V()) && Backed(V(), stray)
    {
      hide Good, Releasing, SameData, Marked, Remark, SetAddr, TruncTable, Truncated, Cleared, Falls, Backed;
      ghost var v := V();
      panic := false;
      TruncStart(v, i);
      var k := 0;
      while k < NDIRECT
        invariant 0 <= k <= NDIRECT && !panic && dinodes == old(dinodes) && Sub(old(stray), stray)
        invariant TruncDirect(v, V(), i, k)
      {
        TruncFacts(v, V(), i, k);
        var b := inodes[i].addrs[k];
        if b != 0 {
          DirectTurn(v, V(), i, k);
          panic := Bfree(b);
          SetInodeAddr(i, k, 0);
        } else {
          DirectSkip(v, V(), i, k);
        }
        k := k + 1;
      }
      TruncFacts(v, V(), i, k);
      if inodes[i].addrs[NDIRECT] != 0 {
        panic := FreeTable(i, v);
      } else {
        NoTable(v, V(), i);
      }
      TruncFalls(v, old(stray), V(), stray, i);
      TruncEnd(v, V(), i);
      TruncSame(V(), i);
      inodes := inodes[i := inodes[i].(size := 0)];
      Iupdate(i);
    }

    /** The second half of itrunc, for an inode with an indirect block. */
    method FreeTable(i: nat, ghost v0: Vol) returns (panic: bool)
      requires TruncDirect(v0, V(), i, NDIRECT) && i in inodes && |inodes[i].addrs| == NDIRECT + 1
      requires inodes[i].addrs[NDIRECT] != 0
      modifies this`blocks, this`inodes, this`logged, this`stray
      ensures !panic && SameData(v0, V()) && Releasing(V(), i, {}) && Cleared(v0, V(), i) && Sub(old(stray), stray)
    {
      hide Good, Releasing, SameData, Marked, Remark, SetAddr, TruncTable, Word, At, Cleared;
      ghost var v := V();
      TableRoot(v0, v, i);
      TableStart(v, i);
      TableFacts(v, V(), i, NDIRECT);
      var table := inodes[i].addrs[NDIRECT];
      panic := false;
      var j := 0;
      while j < NINDIRECT
        invariant 0 <= j <= NINDIRECT && !panic && inodes == v.inodes && Sub(old(stray), stray)
        invariant TruncTable(v, V(), i, NDIRECT + j)
      {
        TableFacts(v, V(), i, NDIRECT + j);
        var a := Word(blocks[table], j);
        if a != 0 {
          TableTurn(v, V(), i, NDIRECT + j);
          panic := Bfree(a);
        } else {
          TableSkip(v, V(), i, NDIRECT + j);
        }
        j := j + 1;
      }
      TableFacts(v, V(), i, MAXFILE);
      TableTurn(v, V(), i, MAXFILE);
      panic := Bfree(table);
      ghost var v1 := V();
      TableDone(v0, v, v1, i);
      SetInodeAddr(i, NDIRECT, 0);
    }

    /** Read n bytes at offset off, into a destination of which the first `room` bytes can be
        written. The result is the file's bytes from off on, n of them or all that there are;
        nothing changes, and nothing is allocated or logged, although bmap is called. */
    method Readi(i: nat, off: nat, n: nat, room: nat) returns (r: int, data: seq<Byte>)
      requires Good(V()) && i in inodes && off < WORD_LIMIT && n < WORD_LIMIT
      modifies this`blocks, this`inodes, this`logged, this`stray
      ensures V() == old(V()) && logged == old(logged) && stray == old(stray)
      ensures off > inodes[i].size || off + n >= WORD_LIMIT ==> r == 0 && data == []
      ensures r == -1 <==> off + n < WORD_LIMIT && off + room < inodes[i].size && room < n
      ensures r != -1 ==> r == |data| <= n && (r > 0 ==> off + r <= inodes[i].size && data == Contents(V(), i)[off..off + r])
      ensures 0 <= r < n && off <= inodes[i].size && off + n < WORD_LIMIT ==> off + r == inodes[i].size
    {
      hide Good, Extended, BmapLog, Contents, At, FullBelow;
      GoodShape(V());
      data := [];
      ghost var c := Contents(V(), i);
      if off > inodes[i].size || off + n >= WORD_LIMIT {
        return 0, [];
      }
      var want := if off + n > inodes[i].size then inodes[i].size - off else n;
      var tot, o := 0, off;
      while tot < want
        invariant 0 <= tot <= want && o == off + tot && V() == old(V()) && logged == old(logged) && stray == old(stray)
        invariant data == c[off..off + tot] && tot <= room
      {
        var m := Min(want - tot, BSIZE - o % BSIZE);
        BlockSlice(V(), i, o, m);
        var _, addr := Bmap(i, o / BSIZE);
        if tot + m > room {
          return -1, data;
        }
        data := data + blocks[addr][o % BSIZE..o % BSIZE + m];
        assert c[off..off + tot] + c[o..o + m] == c[off..off + tot + m];
        tot, o := tot + m, o + m;
      }
      return tot, data;
    }

    /** One turn of writei's loop: the m bytes at offset o, of which only `w` can be read from the
        source. Bytes read before a fault stay in the buffer, which is released without log_write.
        v1 and st1 are the state after bmap. */
    method WriteChunk(i: nat, o: nat, m: nat, w: seq<Byte>)
      returns (addr: nat, ok: bool, ghost v1: Vol, ghost st1: Strays)
      requires Good(V()) && i in inodes && o / BSIZE < MAXFILE && 0 < m <= BSIZE - o % BSIZE && |w| <= m
      modifies this`blocks, this`inodes, this`logged, this`stray
      ensures Extended(old(V()), v1, i, o / BSIZE) && Shape(v1) && addr == At(v1, i, o / BSIZE)
      ensures Sub(old(stray), st1) && TableSafe(old(V()), v1, st1, i)
      ensures ok <==> addr != 0 && |w| == m
      ensures addr == 0 ==> V() == v1 && FullBelow(V(), l.size) && stray == st1
      ensures addr != 0 ==> addr < l.size && V() == Put(v1, addr, Spliced(v1.blocks[addr], o % BSIZE, w))
      ensures addr != 0 ==>
        stray == if ok then st1 - {addr} else if |w| == 0 then st1 else Strayed(v1, st1, addr)
      ensures logged <= old(logged) + BmapLog(old(V()), v1, i, o / BSIZE) + if ok then {addr} else {}
    {
      hide Good, Extended, BmapLog, FullBelow, At, Sub, TableSafe;
      ghost var v := V();
      var panic;
      panic, addr := Bmap(i, o / BSIZE);
      v1, st1 := V(), stray;
      ExtendedFacts(v, v1, i, o / BSIZE);
      ok := false;
      if addr == 0 {
        return;
      }
      PlacedAt(v1, i, o / BSIZE);
      var was := blocks[addr];
      blocks := blocks[addr := Spliced(was, o % BSIZE, w)];
      ok := |w| == m;
      if ok {
        LogWrite(addr);
      } else if |w| > 0 && addr !in stray {
        stray := stray[addr := was];
      }
    }

    /** One turn of writei's loop, with what it does to the file and to the log. When it ends the loop,
        v1 and st1 are the state before the store that faulted. */
    method WriteTurn(i: nat, off: nat, o: nat, m: nat, src: seq<Byte>, ghost v0: Vol, ghost st0: Strays,
                     ghost base: set<nat>, ghost d: set<nat>, ghost b: set<nat>)
      returns (addr: nat, ok: bool, ghost v1: Vol, ghost st1: Strays, ghost d': set<nat>, ghost b': set<nat>)
      requires Writing(v0, V(), i, off, o, o, src) && i in inodes && Shape(V()) && Good(V())
      requires Tracked(v0, st0, V(), stray, i, off, o)
      requires o / BSIZE < MAXFILE && 0 < m <= BSIZE - o % BSIZE && Accounted(V(), i, base, logged, d, b)
      requires off <= o <= off + |src|
      modifies this`blocks, this`inodes, this`logged, this`stray
      ensures i in inodes && Shape(V()) && Good(V()) && Accounted(V(), i, base, logged, d', b')
      ensures ok ==> o + m <= off + |src| && Writing(v0, V(), i, off, o + m, o + m, src)
      ensures ok ==> Tracked(v0, st0, V(), stray, i, off, o + m)
      ensures !ok ==> At(V(), i, o / BSIZE) == addr
      ensures !ok && addr == 0 ==> Writing(v0, V(), i, off, o, o, src) && FullBelow(V(), l.size)
      ensures !ok && addr != 0 ==> off + |src| < o + m && Writing(v0, V(), i, off, o, off + |src|, src)
      ensures !ok ==> Writing(v0, v1, i, off, o, o, src) && Tracked(v0, st0, v1, st1, i, off, o)
      ensures !ok ==> Faulted(v1, st1, V(), stray, i, o, if addr == 0 then [] else src[o - off..])
      ensures |d'| <= |d| + 1 && |b'| <= |b| + if At(old(V()), i, o / BSIZE) == 0 then 1 else 0
    {
      hide Good, Extended, Writing, Accounted, FullBelow, At, BmapLog, TableLog, Spliced, Tracked, Sub, TableSafe, Strayed;
      ghost var v, st, logged0 := V(), stray, logged;
      var tot := o - off;
      var have := src[tot..Min(|src|, tot + m)];
      addr, ok, v1, st1 := WriteChunk(i, o, m, have);
      ExtendedFacts(v, v1, i, o / BSIZE);
      WritingMapped(v0, v, v1, i, off, o, src, o / BSIZE);
      TrackedMapped(v0, st0, v, st, v1, st1, i, off, o, src);
      AccountedStep(v, v1, i, o / BSIZE, base, logged0, logged, d, b);
      d' := if addr == 0 then d else d + {addr};
      b' := if addr == At(v, i, o / BSIZE) then b else b + {BitmapBlock(l, addr)};
      NewOnlyIfNone(v, v1, i, o / BSIZE);
      if addr != 0 {
        WritingPut(v0, v1, i, off, o, if ok then o + m else o, src, |have|);
        assert src[o - off..o - off + |have|] == have;
        AccountedPut(v1, i, o / BSIZE, Spliced(v1.blocks[addr], o % BSIZE, have), base, logged, d', b');
      }
      if ok {
        TrackedPut(v0, st0, v1, st1, V(), stray, i, off, o, m, src, have);
      } else {
        assert addr != 0 ==> have == src[o - off..];
        FaultedAt(v1, V(), i, o / BSIZE, addr);
        FaultedIs(v1, st1, V(), stray, i, o, if addr == 0 then [] else have);
      }
    }

    /** writei's loop. It stops early when the disk is full or the source faults; mid and safe are the
        state before the store that faulted. */
    method WriteLoop(i: nat, off: nat, n: nat, src: seq<Byte>)
      returns (tot: nat, ghost at: nat, ghost mid: Vol, ghost safe: Strays, ghost d: set<nat>, ghost b: set<nat>)
      requires Good(V()) && i in inodes && off <= inodes[i].size && off + n <= MAXFILE * BSIZE && |src| <= n
      requires Shape(V()) && Backed(V(), stray)
      modifies this`blocks, this`inodes, this`logged, this`stray
      ensures tot <= n && Writing(old(V()), V(), i, off, off + tot, at, src) && i in inodes && Shape(V()) && Good(V())
      ensures tot == n || Starved(V(), i, off, tot) || (|src| < n && at == off + |src| && tot == Complete(off, |src|))
      ensures |src| == n || tot == n || Starved(V(), i, off, tot) ==> at == off + tot
      ensures Writing(old(V()), mid, i, off, off + tot, off + tot, src) && tot <= |src|
      ensures Tracked(old(V()), old(stray), mid, safe, i, off, off + tot)
      ensures off + tot <= at <= off + |src| && Faulted(mid, safe, V(), stray, i, off + tot, src[tot..at - off])
      ensures Accounted(V(), i, old(logged), logged, d, b) && LogBounded(off, off + n, d, b)
    {
      hide Good, Writing, Accounted, FullBelow, At, LogBounded, Tracked, Faulted, Backed;
      ghost var v0, st0, base := V(), stray, logged;
      d, b, at := {}, {}, off;
      ghost var seen := off;
      WritingStart(v0, i, off, src);
      TrackedStart(v0, st0, i, off);
      AccountedStart(v0, i, off, base);
      var o := off;
      tot := 0;
      while tot < n
        invariant 0 <= tot <= n && o == off + tot && i in inodes && Shape(V()) && Good(V())
        invariant off <= o <= off + |src| && at == seen == o && Writing(v0, V(), i, off, o, at, src)
        invariant Tracked(v0, st0, V(), stray, i, off, o)
        invariant o == off || o % BSIZE == 0 || tot == n
        invariant Accounted(V(), i, base, logged, d, b) && LogBounded(off, seen, d, b)
      {
        var m := Min(n - tot, BSIZE - o % BSIZE);
        ChunkInFile(off, o, n, m);
        ghost var none := At(V(), i, o / BSIZE) == 0;
        InsideFirst(v0, V(), i, off, o, src);
        var addr, ok;
        ghost var d0, b0 := d, b;
        addr, ok, mid, safe, d, b := WriteTurn(i, off, o, m, src, v0, st0, base, d, b);
        LogBoundedStep(off, o, m, d0, b0, d, b, none);
        seen := o + m;
        if !ok {
          at := if addr == 0 then o else off + |src|;
          CompleteIs(off, o, m, |src|);
          LogBoundedEnd(off, seen, off + n, d, b);
          assert src[tot..at - off] == if addr == 0 then [] else src[o - off..];
          return;
        }
        tot, o, at := tot + m, o + m, o + m;
      }
      mid, safe := V(), stray;
      FaultedNone(mid, safe, i, o);
      assert src[tot..at - off] == [];
      LogBoundedEnd(off, seen, off + n, d, b);
    }

    /** Write n bytes at offset off, of which only `src` can be read from the source. Returns -1,
        or the number r of bytes in complete chunks; w counts also the bytes that a chunk cut
        short by a fault left in its buffer. The write is a whole one of r bytes, after which the
        state is mid and safe, followed by a store of the others without log_write. */
    method Writei(i: nat, off: nat, n: nat, src: seq<Byte>)
      returns (r: int, ghost w: nat, ghost mid: Vol, ghost safe: Strays)
      requires Good(V()) && i in inodes && off < WORD_LIMIT && n < WORD_LIMIT && |src| <= n
      requires Shape(V()) && Backed(V(), stray)
      modifies this
      ensures r == -1 <==> off > old(inodes[i].size) || off + n > MAXFILE * BSIZE
      ensures r == -1 ==> V() == old(V()) && logged == old(logged) && dinodes == old(dinodes) && stray == old(stray)
      ensures r != -1 ==> 0 <= r && Written(old(V()), V(), i, off, r, w, src)
      ensures r != -1 ==> i in inodes && dinodes == old(dinodes)[i := inodes[i]]
      ensures r != -1 ==>
        r == n || Starved(V(), i, off, r) || (|src| < n && w == |src| && r == Complete(off, |src|))
      ensures r != -1 && (|src| == n || r == n || Starved(V(), i, off, r)) ==> w == r
      ensures r != -1 ==> Written(old(V()), mid, i, off, r, r, src) && r <= w <= |src|
      ensures r != -1 ==> Tracked(old(V()), old(stray), mid, safe, i, off, off + r)
      ensures r != -1 ==> Faulted(mid, safe, V(), stray, i, off + r, src[r..w])
      ensures r != -1 ==> Grown(old(V()), V(), i, off / BSIZE, (off + r) / BSIZE)
      ensures Shape(V()) && Backed(V(), stray)
      ensures |logged - old(logged)| <= Chunks(off, off + n) + NewChunks(off, off + n) + 3
      ensures l.size <= BPB ==> |logged - old(logged)| <= Chunks(off, off + n) + 3
    {
      hide Good, Writing, Written, Accounted, Starved, NewChunks, Chunks, LogBounded, Shape, Tracked, Faulted, Backed, Grown;
      ghost var v0, base := V(), logged;
      w, mid, safe := 0, v0, stray;
      if off > inodes[i].size || off + n >= WORD_LIMIT || off + n > MAXFILE * BSIZE {
        assert logged - base == {};
        return -1, 0, v0, stray;
      }
      var tot;
      ghost var at, d, b;
      tot, at, mid, safe, d, b := WriteLoop(i, off, n, src);
      CountLogged(V(), i, base, logged, d, b, i / IPB + l.inodestart);
      LogBoundedIs(off, off + n, d, b);
      WritingDone(v0, V(), i, off, off + tot, at, src);
      WritingDone(v0, mid, i, off, off + tot, off + tot, src);
      WritingSize(v0, V(), i, off, off + tot, at, src);
      WritingSize(v0, mid, i, off, off + tot, off + tot, src);
      ghost var v, size := V(), Max(v0.inodes[i].size, off + tot);
      StarvedSized(v, i, off, tot, size);
      WritingGrows(v0, v, i, off, off + tot, at, src);
      FaultedSized(v0, old(stray), mid, safe, v, stray, i, off, off + tot, src, src[tot..at - off], size);
      mid := SetSize(mid, i, size);
      if off + tot > inodes[i].size {
        inodes := inodes[i := inodes[i].(size := off + tot)];
      }
      assert V() == SetSize(v, i, size);
      Iupdate(i);
      r, w := tot, at - off;
    }

    /** A commit for which block b is in the log header saves its buffer as it is, so that there is
        nothing to fall back to. */
    method Save(b: nat)
      requires Shape(V()) && Backed(V(), stray)
      modifies this`stray
      ensures stray == old(stray) - {b} && Backed(V(), stray) && Falls(V(), old(stray), V(), stray)
    {
      hide At;
      stray := stray - {b};
    }

    /** bget recycles the buffer of block b, which is not in the log header, so that bread goes to the
        disk again. */
    method Recycle(b: nat)
      requires Good(V()) && Shape(V()) && Backed(V(), stray)
      modifies this`blocks, this`stray
      ensures b in old(stray) ==> Reverted(old(V()), old(stray), V(), stray, b)
      ensures b !in old(stray) ==> V() == old(V()) && stray == old(stray)
      ensures Good(V()) && Shape(V()) && Backed(V(), stray) && logged == old(logged)
    {
      if b in stray {
        RecycleReverts(V(), stray, b);
        blocks := blocks[b := stray[b]];
        stray := stray - {b};
      }
    }

    /** fileread on an inode, which runs outside any transaction: the bytes at the offset, which moves
        past them. Nothing is allocated and nothing logged. */
    method Fileread(i: nat, f: OpenFile, n: nat, room: nat) returns (r: int, data: seq<Byte>)
      requires Good(V()) && i in inodes && f.off < WORD_LIMIT && n < WORD_LIMIT
      modifies this`blocks, this`inodes, this`logged, this`stray, f
      ensures V() == old(V()) && logged == old(logged) && stray == old(stray)
      ensures r == -1 <==> old(f.off) + n < WORD_LIMIT && old(f.off) + room < inodes[i].size && room < n
      ensures f.off == old(f.off) + if r == -1 then 0 else r
      ensures r != -1 ==>
        r == |data| <= n && (r > 0 ==> f.off <= inodes[i].size && data == Contents(V(), i)[old(f.off)..f.off])
      ensures 0 <= r < n && old(f.off) <= inodes[i].size && old(f.off) + n < WORD_LIMIT ==> f.off == inodes[i].size
    {
      hide Good, Contents;
      r, data := Readi(i, f.off, n, room);
      if r > 0 {
        f.off := f.off + r;
      }
    }

    /** Reading on in pieces, of any sizes: the pieces together are the file from the offset on. At the
        end of the file, and only there, a piece is empty; it is reached when there are more pieces
        than bytes. */
    method ReadPieces(i: nat, f: OpenFile, sizes: seq<nat>, room: nat) returns (data: seq<Byte>, ended: bool)
      requires Good(V()) && i in inodes && f.off <= inodes[i].size
      requires forall k :: 0 <= k < |sizes| ==> 0 < sizes[k] <= room && inodes[i].size + sizes[k] < WORD_LIMIT
      modifies this`blocks, this`inodes, this`logged, this`stray, f
      ensures V() == old(V()) && logged == old(logged) && stray == old(stray)
      ensures old(f.off) <= f.off <= inodes[i].size && data == Contents(V(), i)[old(f.off)..f.off]
      ensures ended ==> data == Contents(V(), i)[old(f.off)..]
      ensures |sizes| > inodes[i].size - old(f.off) ==> ended
    {
      hide Good, Contents, Shape;
      GoodShape(V());
      data := [];
      for k := 0 to |sizes|
        invariant V() == old(V()) && logged == old(logged) && stray == old(stray)
        invariant old(f.off) + k <= f.off <= inodes[i].size && data == Contents(V(), i)[old(f.off)..f.off]
      {
        var r, piece := Fileread(i, f, sizes[k], room);
        if r == 0 {
          return data, true;
        }
        data := data + piece;
      }
      return data, false;
    }

    /** One turn of filewrite's loop: after k of the n bytes, the next chunk, in its own transaction.
        v0 and off0 are the state and the offset at the start. If the chunk is not written whole, the
        write was not possible as a whole from the start. */
    method WritePart(i: nat, f: OpenFile, k: nat, n: nat, src: seq<Byte>, ghost v0: Vol, ghost off0: nat)
      returns (r: int, n1: nat, ghost w: nat)
      requires Good(V()) && i in inodes && k < n < 0x8000_0000 && off0 < 0x8000_0000 && f.off == off0 + k && k <= |src|
      requires Shape(V()) && Backed(V(), stray) && Partly(v0, V(), i, off0, k, k, src)
      modifies this, f
      ensures Shape(V()) && Backed(V(), stray) && n1 <= n - k && i in inodes && Good(V())
      ensures f.off == off0 + k + if r > 0 then r else 0
      ensures r <= n1 && (r == n1 ==> w == k + n1 <= |src|) && (|src| >= n ==> w == f.off - off0)
      ensures Partly(v0, V(), i, off0, f.off - off0, w, src) && n1 > 0
      ensures r != n1 ==> !Possible(v0, i, off0, n, |src|)
      ensures |logged| <= ChunkLimit(l)
    {
      hide Good, Written, Starved, Shape, Backed, Tracked, Faulted, Complete, Grown, Partly, Possible, Chunks, NewChunks;
      var limit := ((MAXOPBLOCKS - 1 - 1 - 2) / 2) * BSIZE;
      n1 := Min(n - k, limit);
      var part := src[k..Min(|src|, k + n1)];
      ghost var v := V();
      logged := {};
      ghost var w1, mid, safe;
      PartlyIs(v0, v, i, off0, k, k, src);
      r, w1, mid, safe := Writei(i, f.off, n1, part);
      ChunkLogBound(f.off, n1);
      assert logged - {} == logged;
      w := k;
      if r != -1 {
        w := k + w1;
        PartlyStep(v0, v, V(), i, off0, k, r, w1, src, part);
      }
      if r != n1 {
        PartlyStuck(v0, v, V(), i, off0, k, n, n1, r, w, src, part);
      }
      if r > 0 {
        f.off := f.off + r;
      }
    }

    /** filewrite on an inode: chunks of at most three blocks, each in its own transaction, so that
        no transaction logs more than MAXOPBLOCKS blocks (`peak` is the most that one logged).
        The chunks together are one write at the old offset, of which the offset has moved past
        the bytes in complete chunks; it returns n exactly when that is all of them, and that is so if
        and only if the offset is in the file, the file does not get too long, the source can be
        read, and as many blocks are free as the write lacks. Only a source that faults can leave more
        bytes in blocks than the offset moves past. */
    method Filewrite(i: nat, f: OpenFile, n: int, src: seq<Byte>) returns (ret: int, ghost w: nat, ghost peak: nat)
      requires Good(V()) && i in inodes && n < 0x8000_0000 && f.off < 0x8000_0000
      requires Shape(V()) && Backed(V(), stray)
      modifies this, f
      ensures Shape(V()) && Backed(V(), stray)
      ensures old(f.off) <= f.off && ret == if f.off == old(f.off) + n then n else -1
      ensures n > 0 ==> (ret == n <==> Possible(old(V()), i, old(f.off), n, |src|))
      ensures old(f.off) > old(inodes[i].size) ==> V() == old(V()) && f.off == old(f.off)
      ensures old(f.off) <= old(inodes[i].size) ==>
        Written(old(V()), V(), i, old(f.off), f.off - old(f.off), w, src)
      ensures |src| >= n ==> w == f.off - old(f.off)
      ensures peak <= ChunkLimit(l)
    {
      hide Good, Written, Shape, Backed, Partly, Possible;
      ghost var v0, off0 := V(), f.off;
      w, peak := 0, 0;
      PartlyNone(v0, i, off0, src);
      var k := 0;
      ghost var stuck := false;
      while k < n
        invariant 0 <= k && (k == 0 || k <= n) && f.off == off0 + k && Good(V()) && i in inodes && k == w <= |src|
        invariant Partly(v0, V(), i, off0, k, w, src) && !stuck
        invariant peak <= ChunkLimit(l) && Shape(V()) && Backed(V(), stray)
      {
        var r, n1;
        r, n1, w := WritePart(i, f, k, n, src, v0, off0);
        peak := Max(peak, |logged|);
        if r != n1 {
          stuck := true;
          break;
        }
        k := k + r;
      }
      PartlyIs(v0, V(), i, off0, f.off - off0, w, src);
      if !stuck && n > 0 {
        PartlyDone(v0, V(), i, off0, n, src);
      }
      ret := if k == n then n else -1;
    }
  }

  /** A struct file: the offset that read and write share. */
  class OpenFile {
    var off: nat
    constructor () { off := 0; }
  }

  /** What a write of n bytes at offset off takes, of which `have` can be read from the source. */
  ghost predicate Possible(v: Vol, i: nat, off: nat, n: nat, have: nat)
    requires Shape(v) && i in v.inodes && n > 0
  {
    off <= v.inodes[i].size && off + n <= MAXFILE * BSIZE && n <= have && Fits(v, i, off, n)
  }

  /** In the middle of a filewrite, after k bytes in complete chunks. */
  ghost predicate Partly(v0: Vol, v: Vol, i: nat, off: nat, k: nat, w: nat, src: seq<Byte>) {
    && Good(v0) && i in v0.inodes
    && (off <= v0.inodes[i].size ==> Written(v0, v, i, off, k, w, src))
    && (off > v0.inodes[i].size ==> v == v0 && k == 0)
    && Grown(v0, v, i, off / BSIZE, (off + k) / BSIZE)
  }

  lemma PartlyNone(v: Vol, i: nat, off: nat, src: seq<Byte>)
    requires Good(v) && i in v.inodes
    ensures Partly(v, v, i, off, 0, 0, src)
  {
    hide Good, Written, Grown;
    GoodShape(v);
    if off <= v.inodes[i].size {
      WrittenNone(v, i, off, src);
    }
    GrownRefl(v, i, off / BSIZE, off / BSIZE);
  }

  lemma PartlyIs(v0: Vol, v: Vol, i: nat, off: nat, k: nat, w: nat, src: seq<Byte>)
    requires Partly(v0, v, i, off, k, w, src)
    ensures Good(v0) && Shape(v0) && i in v0.inodes
    ensures off <= v0.inodes[i].size ==> Written(v0, v, i, off, k, w, src)
    ensures off > v0.inodes[i].size ==> v == v0 && k == 0
  {
  }

  lemma PartlyStep(v0: Vol, v: Vol, v': Vol, i: nat, off: nat, k: nat, r: nat, w: nat, src: seq<Byte>, part: seq<Byte>)
    requires Partly(v0, v, i, off, k, k, src) && k <= |src| && part <= src[k..]
    requires Written(v, v', i, off + k, r, w, part) && Grown(v, v', i, (off + k) / BSIZE, (off + k + r) / BSIZE)
    ensures Partly(v0, v', i, off, k + r, k + w, src) && r <= w <= |part| && Good(v') && off <= v0.inodes[i].size
  {
    hide Good, Written, Grown, Contents;
    WrittenStep(v0, v, v', i, off, k, r, w, src, part);
    WrittenSize(v, v', i, off + k, r, w, part);
    WrittenSize(v0, v', i, off, k + r, k + w, src);
    WrittenInside(v0, v', i, off, k + r, k + w, src);
    GrownTrans(v0, v, v', i, off / BSIZE, (off + k) / BSIZE, (off + k) / BSIZE, (off + k + r) / BSIZE);
  }

  lemma WrittenInside(v0: Vol, v: Vol, i: nat, off: nat, r: nat, w: nat, src: seq<Byte>)
    requires Written(v0, v, i, off, r, w, src)
    ensures off <= v0.inodes[i].size && i in v.inodes && v.inodes[i].size == Max(v0.inodes[i].size, off + r)
    ensures v.inodes[i].size <= MAXFILE * BSIZE
  {
  }

  /** A chunk that is refused, starved or cut short shows that the whole was not possible. */
  lemma PartlyStuck(v0: Vol, v: Vol, v': Vol, i: nat, off: nat, k: nat, n: nat, n1: nat, r: int, w: nat,
                    src: seq<Byte>, part: seq<Byte>)
    requires Partly(v0, v, i, off, k, k, src) && k < n && 0 < n1 <= n - k && k <= |src| && r != n1
    requires part == src[k..Min(|src|, k + n1)] && i in v.inodes
    requires r == -1 ==> off + k > v.inodes[i].size || off + k + n1 > MAXFILE * BSIZE
    requires r != -1 ==> 0 <= r <= |part| && Partly(v0, v', i, off, k + r, w, src) && Good(v')
    requires r != -1 ==> Starved(v', i, off + k, r) || |part| < n1
    ensures Shape(v0) && i in v0.inodes && !Possible(v0, i, off, n, |src|)
  {
    hide Good, Written, Grown, Fits, FullBelow;
    GoodShape(v0);
    if off <= v0.inodes[i].size {
      WrittenInside(v0, v, i, off, k, k, src);
    }
    if r != -1 && |part| == n1 && off + n <= MAXFILE * BSIZE {
      NoneFree(v');
      GrownFacts(v0, v', i, off / BSIZE, (off + k + r) / BSIZE);
      DidNotFit(v0, v', i, off, n, off + k + r);
    }
  }

  lemma NoneFree(v: Vol)
    requires Shape(v) && FullBelow(v, v.l.size)
    ensures Free(v) == {}
  {
    hide Marked, Shape;
  }

  lemma GrownFacts(v: Vol, v': Vol, i: nat, lo: nat, hi: nat)
    requires Grown(v, v', i, lo, hi)
    ensures Shape(v) && Shape(v') && i in v.inodes && i in v'.inodes
  {
  }

  lemma PartlyDone(v0: Vol, v: Vol, i: nat, off: nat, n: nat, src: seq<Byte>)
    requires Partly(v0, v, i, off, n, n, src) && Good(v) && n > 0 && n <= |src|
    ensures Shape(v0) && i in v0.inodes && Possible(v0, i, off, n, |src|)
  {
    hide Good, Written, Grown, Fits;
    WrittenInside(v0, v, i, off, n, n, src);
    GoodShape(v0);
    GrownFacts(v0, v, i, off / BSIZE, (off + n) / BSIZE);
    DidFit(v0, v, i, off, n, off / BSIZE, (off + n) / BSIZE);
  }

  /** The most blocks that a chunk of filewrite logs: seven when the bitmap is one block. */
  function ChunkLimit(l: Layout): nat {
    if l.size <= BPB then 7 else MAXOPBLOCKS
  }

  /** A chunk of at most three blocks logs at most MAXOPBLOCKS blocks, and seven when the bitmap
      is one block. */
  lemma ChunkLogBound(off: nat, n: nat)
    requires n <= 3 * BSIZE
    ensures Chunks(off, off + n) + NewChunks(off, off + n) + 3 <= MAXOPBLOCKS && Chunks(off, off + n) + 3 <= 7
  {
    if n > 0 {
      var q, x := off / BSIZE, off % BSIZE;
      assert off + n - 1 == BSIZE * q + (x + n - 1);
      assert (off + n - 1) / BSIZE == q + (x + n - 1) / BSIZE;
    }
  }

  lemma WrittenNone(v: Vol, i: nat, off: nat, src: seq<Byte>)
    requires Good(v) && i in v.inodes && off <= v.inodes[i].size
    ensures Written(v, v, i, off, 0, 0, src)
  {
    hide Good, Shape, ByteAt;
    GoodShape(v);
    ContentsAt(v, i);
  }

  /** Two adjacent writes, the first of them complete, are one write. */
  lemma WrittenStep(v0: Vol, v: Vol, v': Vol, i: nat, off: nat, k: nat, r: nat, w: nat, src: seq<Byte>, part: seq<Byte>)
    requires i in v0.inodes && k <= |src| && part <= src[k..]
    requires off <= v0.inodes[i].size ==> Written(v0, v, i, off, k, k, src)
    requires off > v0.inodes[i].size ==> v == v0 && k == 0
    requires Written(v, v', i, off + k, r, w, part)
    ensures Written(v0, v', i, off, k + r, k + w, src)
  {
    hide Good, Shape, ByteAt, Contents, Overlay;
    WrittenSize(v0, v, i, off, k, k, src);
    WrittenSize(v, v', i, off + k, r, w, part);
    OverlayTwice(Contents(v0, i), off, src[..k], part[..w]);
    assert src[..k] + part[..w] == src[..k + w];
    assert Contents(v, i) == Overlay(Contents(v0, i), off, src[..k]);
  }

  lemma WrittenSize(v0: Vol, v: Vol, i: nat, off: nat, r: nat, w: nat, src: seq<Byte>)
    requires Written(v0, v, i, off, r, w, src)
    ensures Shape(v0) && Shape(v) && i in v.inodes
    ensures |Contents(v0, i)| == v0.inodes[i].size && |Contents(v, i)| == v.inodes[i].size
    ensures Good(v) && r <= w <= |src|
  {
    hide ByteAt;
  }

  lemma OverlayTwice(s: seq<Byte>, off: nat, a: seq<Byte>, b: seq<Byte>)
    requires off <= |s|
    ensures off + |a| <= |Overlay(s, off, a)| && Overlay(Overlay(s, off, a), off + |a|, b) == Overlay(s, off, a + b)
  {
    assert Overlay(Overlay(s, off, a), off + |a|, b) == Overlay(s, off, a + b);
  }

  lemma AccountedStart(v: Vol, i: nat, off: nat, base: set<nat>)
    requires Shape(v) && i in v.inodes
    ensures Accounted(v, i, base, base, {}, {}) && LogBounded(off, off, {}, {})
  {
  }

  lemma ChunkInFile(off: nat, o: nat, n: nat, m: nat)
    requires off <= o < off + n <= MAXFILE * BSIZE && m == Min(off + n - o, BSIZE - o % BSIZE)
    ensures o / BSIZE < MAXFILE && 0 < m <= BSIZE - o % BSIZE && o + m <= off + n
    ensures (o + m) % BSIZE == 0 || o + m == off + n
  {
    if m == BSIZE - o % BSIZE {
      assert o + m == BSIZE * (o / BSIZE + 1);
    }
  }

  /** A chunk that starts inside a block finds the block there. */
  lemma InsideFirst(v0: Vol, v: Vol, i: nat, off: nat, o: nat, src: seq<Byte>)
    requires Writing(v0, v, i, off, o, o, src) && o / BSIZE < MAXFILE
    ensures Shape(v) && i in v.inodes && (o % BSIZE != 0 ==> At(v, i, o / BSIZE) != 0)
  {
    hide At, ByteAt, Contents;
    assert o / BSIZE * BSIZE + o % BSIZE == o;
  }

  lemma LogBoundedStep(off: nat, o: nat, m: nat, d0: set<nat>, b0: set<nat>, d: set<nat>, b: set<nat>, none: bool)
    requires LogBounded(off, o, d0, b0) && (o == off || o % BSIZE == 0) && 0 < m <= BSIZE - o % BSIZE
    requires |d| <= |d0| + 1 && |b| <= |b0| + (if none then 1 else 0) && (o % BSIZE != 0 ==> !none)
    ensures LogBounded(off, o + m, d, b)
  {
    hide Chunks;
    ChunkStep(off, o, m);
    if o == off {
      assert Chunks(off, off) == 0 by {
        NoChunks(off);
      }
    } else {
      ChunkCount(off, o);
    }
  }

  lemma NoChunks(off: nat)
    ensures Chunks(off, off) == 0
  {
  }

  lemma ChunkCount(off: nat, o: nat)
    requires off < o
    ensures Chunks(off, o) > 0
  {
    assert off / BSIZE <= (o - 1) / BSIZE;
  }

  lemma LogBoundedEnd(off: nat, o: nat, o': nat, d: set<nat>, b: set<nat>)
    requires LogBounded(off, o, d, b) && o <= o'
    ensures LogBounded(off, o', d, b)
  {
    hide Chunks;
    ChunksMonotone(off, o, o');
    if off < o {
      ChunkCount(off, o);
    } else {
      NoChunks(off);
    }
  }

  lemma LogBoundedIs(off: nat, o: nat, d: set<nat>, b: set<nat>)
    requires LogBounded(off, o, d, b)
    ensures off <= o && |d| <= Chunks(off, o) && |b| <= NewChunks(off, o)
  {
  }

  lemma CardUnion(x: set<nat>, y: set<nat>)
    ensures |x + y| <= |x| + |y|
  {
    assert |x + y| == |x| + |y| - |x * y|;
  }

  lemma CountLogged(v: Vol, i: nat, base: set<nat>, logged: set<nat>, d: set<nat>, b: set<nat>, x: nat)
    requires Shape(v) && i in v.inodes && Accounted(v, i, base, logged, d, b)
    ensures |logged + {x} - base| <= |d| + |b| + 3
    ensures v.l.size <= BPB ==> |logged + {x} - base| <= |d| + 3
  {
    hide At;
    var t := At(v, i, MAXFILE);
    var table := {t, BitmapBlock(v.l, t)};
    CardSub(logged + {x} - base, d + (b + (table + {x})));
    CardUnion(d, b + (table + {x}));
    CardUnion(b, table + {x});
    CardUnion(table, {x});
    if v.l.size <= BPB {
      var maps := {v.l.bmapstart};
      assert b <= maps;
      TableMap(v, i);
      CardSub(logged + {x} - base, d + (maps + {t, x}));
      CardUnion(d, maps + {t, x});
      CardUnion(maps, {t, x});
    }
  }

  lemma TableMap(v: Vol, i: nat)
    requires Shape(v) && i in v.inodes && v.l.size <= BPB
    ensures BitmapBlock(v.l, At(v, i, MAXFILE)) == v.l.bmapstart
  {
  }

  lemma WritingSize(v0: Vol, v: Vol, i: nat, off: nat, o: nat, w: nat, src: seq<Byte>)
    requires Writing(v0, v, i, off, o, w, src)
    ensures i in v0.inodes && i in v.inodes && v.inodes[i].size == v0.inodes[i].size && off <= o <= w <= off + |src|
    ensures Max(v0.inodes[i].size, o) <= MAXFILE * BSIZE
  {
  }

  lemma WritingGrows(v0: Vol, v: Vol, i: nat, off: nat, o: nat, w: nat, src: seq<Byte>)
    requires Writing(v0, v, i, off, o, w, src)
    ensures i in v0.inodes && i in v.inodes
    ensures Grown(v0, SetSize(v, i, Max(v0.inodes[i].size, o)), i, off / BSIZE, o / BSIZE)
  {
    hide At, Good, ByteAt, Contents, Grown;
    GoodShape(v0);
    var size := Max(v0.inodes[i].size, o);
    SizeCovered(v0, v, i, off, o, w, src);
    SizePositions(v, i, size);
    GoodShape(v);
    GoodShape(SetSize(v, i, size));
    GrownFacts(v0, v, i, off / BSIZE, o / BSIZE);
    GrownSame(v0, v, SetSize(v, i, size), i, off / BSIZE, o / BSIZE, o / BSIZE);
  }

  lemma StarvedSized(v: Vol, i: nat, off: nat, r: nat, size: nat)
    requires Shape(v) && i in v.inodes && size <= MAXFILE * BSIZE
    ensures Starved(v, i, off, r) <==> Starved(SetSize(v, i, size), i, off, r)
  {
    var v' := SetSize(v, i, size);
    assert Shape(v');
    hide Word;
    forall x | 0 <= x < v.l.size
      ensures Marked(v', x) <==> Marked(v, x)
    {
      BitmapFits(v.l, x);
      SameMarks(v, v', x);
    }
  }

  /** The bytes of the complete chunks, when only n bytes of the source at offset off can be
      read. */
  function Complete(off: nat, n: nat): nat {
    if off / BSIZE == (off + n) / BSIZE then 0 else (off + n) / BSIZE * BSIZE - off
  }

  lemma CompleteIs(off: nat, o: nat, m: nat, n: nat)
    requires off <= o <= off + n && (o == off || o % BSIZE == 0) && 0 < m <= BSIZE - o % BSIZE
    ensures off + n < o + m ==> Complete(off, n) == o - off
  {
    if off + n < o + m {
      OffsetIn(o, off + n - o);
      if o > off {
        assert off / BSIZE < o / BSIZE by {
          assert o == o / BSIZE * BSIZE;
        }
      }
    }
  }

  ghost predicate LogBounded(off: nat, o: nat, d: set<nat>, b: set<nat>) {
    off <= o && |d| <= Chunks(off, o) && |b| <= NewChunks(off, o)
  }

  lemma NewOnlyIfNone(v: Vol, v1: Vol, i: nat, bn: nat)
    requires Extended(v, v1, i, bn) && bn < MAXFILE
    ensures Shape(v) && Shape(v1) && (At(v, i, bn) != 0 ==> At(v1, i, bn) == At(v, i, bn))
  {
    hide At;
  }

  /** Writing a data block moves nothing. */
  lemma AccountedPut(v: Vol, i: nat, k: nat, x: Block, base: set<nat>, logged: set<nat>, d: set<nat>, b: set<nat>)
    requires Good(v) && Shape(v) && i in v.inodes && k < MAXFILE && At(v, i, k) != 0 && |x| == BSIZE
    requires Accounted(v, i, base, logged, d, b)
    ensures var v' := Put(v, At(v, i, k), x); Good(v') && Shape(v') && Accounted(v', i, base, logged, d, b)
  {
    PutDataKeeps(v, i, k, x);
    hide At, BitmapExact, NoHoles, Placed;
  }

  /** The blocks that bmap logs when it goes from v to v'. */
  ghost function BmapLog(v: Vol, v': Vol, i: nat, bn: nat): set<nat>
    requires Shape(v) && Shape(v') && i in v.inodes && i in v'.inodes && bn < MAXFILE
  {
    var newData, newTable := At(v', i, bn) != At(v, i, bn), At(v', i, MAXFILE) != At(v, i, MAXFILE);
    (if newData then {At(v', i, bn), BitmapBlock(v.l, At(v', i, bn))} else {})
    + (if newTable || (newData && bn >= NDIRECT) then {At(v', i, MAXFILE)} else {})
    + (if newTable then {BitmapBlock(v.l, At(v', i, MAXFILE))} else {})
  }

  lemma TruncFacts(v: Vol, v': Vol, i: nat, k: nat)
    requires TruncDirect(v, v', i, k)
    ensures Shape(v) && Shape(v') && i in v'.inodes && |v'.inodes[i].addrs| == NDIRECT + 1
    ensures v'.inodes.Keys == v.inodes.Keys && v'.l == v.l
    ensures k < NDIRECT ==> v'.inodes[i].addrs[k] == At(v', i, k)
  {
    ReleasingShape(v', i);
  }

  lemma TruncSame(v: Vol, i: nat)
    requires Releasing(v, i, {})
    ensures i in v.inodes && Shape(v)
  {
    ReleasingShape(v, i);
  }

  /** Without an indirect block, nothing is left after the direct blocks. */
  lemma NoTable(v: Vol, v': Vol, i: nat)
    requires TruncDirect(v, v', i, NDIRECT) && Shape(v') && i in v'.inodes && v'.inodes[i].addrs[NDIRECT] == 0
    ensures SameData(v, v') && Releasing(v', i, {}) && Cleared(v, v', i)
  {
    hide Releasing, Good;
    GoodShape(v);
    assert forall m :: NDIRECT <= m <= MAXFILE ==> At(v', i, m) == 0;
    hide At;
  }

  lemma TableFacts(v: Vol, v': Vol, i: nat, n: nat)
    requires TruncTable(v, v', i, n)
    ensures Shape(v) && Shape(v') && i in v.inodes && i in v'.inodes && SamePositions(v, v') && v'.l == v.l
    ensures v.inodes[i].addrs[NDIRECT] == At(v, i, MAXFILE) == At(v', i, MAXFILE) == v'.inodes[i].addrs[NDIRECT]
    ensures NDIRECT <= n < MAXFILE && v'.inodes[i].addrs[NDIRECT] != 0 ==>
      At(v', i, n) == Word(v'.blocks[v'.inodes[i].addrs[NDIRECT]], n - NDIRECT)
  {
    hide Word;
    ReleasingShape(v', i);
  }

  lemma TableRoot(v0: Vol, v: Vol, i: nat)
    requires TruncDirect(v0, v, i, NDIRECT)
    ensures Releasing(v, i, {})
  {
  }

  lemma TableDone(v0: Vol, v: Vol, v1: Vol, i: nat)
    requires TruncDirect(v0, v, i, NDIRECT) && TruncTable(v, v1, i, MAXFILE + 1)
    ensures i in v1.inodes && |v1.inodes[i].addrs| == NDIRECT + 1
    ensures var v2 := SetAddr(v1, i, NDIRECT, 0);
      SameData(v0, v2) && Releasing(v2, i, {}) && Cleared(v0, v2, i)
  {
    hide Good, SameData, At;
    TruncFacts(v0, v, i, NDIRECT);
    TableFacts(v, v1, i, MAXFILE + 1);
    SameTable(v, v1, i);
    hide Releasing;
    DropTable(v1, i);
    var v2 := SetAddr(v1, i, NDIRECT, 0);
    AddrData(v1, i, NDIRECT, 0);
    SameDataTrans(v0, v, v1);
    SameDataTrans(v0, v1, v2);
    ReleasingShape(v2, i);
    SameDataKeys(v0, v2);
    SameDataKeys(v0, v1);
    hide SetAddr;
    forall j, m | j in v0.inodes && 0 <= m <= MAXFILE
      ensures At(v2, j, m) == if j == i then 0 else At(v0, j, m)
    {
      assert At(v1, j, m) == At(v, j, m);
    }
  }

  lemma SameTable(v: Vol, v1: Vol, i: nat)
    requires Shape(v) && Shape(v1) && i in v.inodes && i in v1.inodes && SamePositions(v, v1)
    ensures TableBlocks(v1, i, MAXFILE + 1) == TableBlocks(v, i, MAXFILE + 1)
  {
    hide At;
    forall m | NDIRECT <= m < MAXFILE + 1
      ensures At(v1, i, m) == At(v, i, m)
    {
    }
  }

  lemma ExtendedFacts(v: Vol, v': Vol, i: nat, bn: nat)
    requires Extended(v, v', i, bn)
    ensures Good(v) && Good(v') && Shape(v) && Shape(v') && v'.inodes.Keys == v.inodes.Keys && v'.l == v.l
    ensures i in v.inodes
  {
    hide At;
  }

  lemma TableFirst(v: Vol, v1: Vol, v2: Vol, i: nat, bn: nat)
    requires Extended(v, v1, i, bn) && Extended(v1, v2, i, bn) && bn < MAXFILE && At(v1, i, MAXFILE) != 0
    ensures At(v2, i, MAXFILE) == At(v1, i, MAXFILE)
    ensures At(v, i, MAXFILE) == 0 && bn >= NDIRECT ==> At(v, i, bn) == 0
  {
    EntryKeepsTable(v1, v2, i, bn);
  }

  lemma EntryKeepsTable(v: Vol, v': Vol, i: nat, bn: nat)
    requires Extended(v, v', i, bn) && At(v, i, MAXFILE) != 0
    ensures At(v', i, MAXFILE) == At(v, i, MAXFILE)
  {
    hide At, Good;
    GoodShape(v);
    GoodShape(v');
  }

  lemma BallocedIs(v: Vol, b: nat)
    requires Shape(v) && b < v.l.size
    ensures Balloced(v, b) == Put(Remark(v, b, true), b, Zeros(BSIZE))
    ensures Balloced(v, b).inodes == v.inodes && Balloced(v, b).l == v.l
  {
  }

  /** Block 0 is in use. */
  lemma FirstIsMarked(v: Vol)
    requires Good(v)
    ensures 0 < v.l.size && Marked(v, 0)
  {
    hide Placed, NoHoles, At;
  }
}
