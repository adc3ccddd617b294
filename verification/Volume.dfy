/** Inodes, the blocks they own, and the free bitmap (fs.c), as values.

    A volume has the logical contents of the blocks, as bread returns them, and the inodes. A
    position (i, k) is one place in inode i that holds a block number: the direct and indirect
    entries for file block k, and, as position MAXFILE, the indirect block itself. */
module Volume {
  import opened Bytes
  import opened Params

  const NDIRECT: nat := 12
  const NINDIRECT: nat := 256
  const MAXFILE: nat := 268
  const BPB: nat := 8192
  const IPB: nat := 16

  type Block = seq<Byte>

  /** sb.size, sb.bmapstart, sb.inodestart, and the first block after the bitmap. */
  datatype Layout = Layout(size: nat, bmapstart: nat, inodestart: nat, dstart: nat)

  datatype Inode = Inode(size: nat, addrs: seq<nat>)

  datatype Vol = Vol(l: Layout, blocks: map<nat, Block>, inodes: map<nat, Inode>)

  /** The bitmap covers every block and lies in front of the data blocks. */
  predicate LayoutOk(l: Layout) {
    && 0 < l.bmapstart && 0 < l.dstart <= l.size < WORD_LIMIT
    && l.bmapstart + (l.size - 1) / BPB < l.dstart
  }

  ghost predicate Shape(v: Vol) {
    && LayoutOk(v.l)
    && (forall b :: 0 <= b < v.l.size ==> b in v.blocks && |v.blocks[b]| == BSIZE)
    && (forall i :: i in v.inodes ==> |v.inodes[i].addrs| == NDIRECT + 1 && v.inodes[i].size <= MAXFILE * BSIZE)
    && (forall i, j :: i in v.inodes && 0 <= j <= NDIRECT ==> v.inodes[i].addrs[j] < v.l.size)
  }

  function BitmapBlock(l: Layout, b: nat): nat {
    b / BPB + l.bmapstart
  }

  /** The bitmap's bit for block b. */
  predicate InUse(v: Vol, b: nat)
    requires BitmapBlock(v.l, b) in v.blocks && |v.blocks[BitmapBlock(v.l, b)]| == BSIZE
  {
    Bit(v.blocks[BitmapBlock(v.l, b)][b % BPB / 8], b % 8)
  }

  /** The block number at position (i, k); 0 means none. */
  ghost function At(v: Vol, i: nat, k: nat): nat
    requires Shape(v) && i in v.inodes && k <= MAXFILE
  {
    var addrs := v.inodes[i].addrs;
    if k < NDIRECT then addrs[k]
    else if k == MAXFILE then addrs[NDIRECT]
    else if addrs[NDIRECT] == 0 then 0
    else Word(v.blocks[addrs[NDIRECT]], k - NDIRECT)
  }

  ghost predicate Owned(v: Vol, b: nat)
    requires Shape(v)
  {
    exists i, k :: i in v.inodes && 0 <= k <= MAXFILE && At(v, i, k) == b
  }

  /** Blocks in inodes are data blocks, and no block is at two positions. */
  ghost predicate Placed(v: Vol)
    requires Shape(v)
  {
    && (forall i, k :: i in v.inodes && 0 <= k <= MAXFILE && At(v, i, k) != 0 ==> v.l.dstart <= At(v, i, k) < v.l.size)
    && (forall i, k, j, m ::
          (i in v.inodes && j in v.inodes && 0 <= k <= MAXFILE && 0 <= m <= MAXFILE && At(v, i, k) == At(v, j, m) != 0)
          ==> i == j && k == m)
  }

  /** A bit is set exactly for the blocks in front of the data blocks and the owned blocks. */
  ghost predicate BitmapExact(v: Vol)
    requires Shape(v)
  {
    forall b :: 0 <= b < v.l.size ==> (Marked(v, b) <==> b < v.l.dstart || Owned(v, b))
  }

  ghost predicate Marked(v: Vol, b: nat)
    requires Shape(v) && b < v.l.size
  {
    BitmapFits(v.l, b);
    InUse(v, b)
  }

  ghost predicate NoHoles(v: Vol)
    requires Shape(v)
  {
    forall i, k :: i in v.inodes && 0 <= k < MAXFILE && k * BSIZE < v.inodes[i].size ==> At(v, i, k) != 0
  }

  ghost predicate Good(v: Vol) {
    Shape(v) && Placed(v) && BitmapExact(v) && NoHoles(v)
  }

  lemma BitmapFits(l: Layout, b: nat)
    requires LayoutOk(l) && b < l.size
    ensures BitmapBlock(l, b) < l.dstart <= l.size && b % BPB / 8 < BSIZE
  {
    assert b / BPB <= (l.size - 1) / BPB;
  }

  /** Byte `off` of file i. */
  ghost function ByteAt(v: Vol, i: nat, off: nat): Byte
    requires Shape(v) && i in v.inodes && off < MAXFILE * BSIZE
  {
    var b := At(v, i, off / BSIZE);
    if b < v.l.size then v.blocks[b][off % BSIZE] else 0
  }

  /** The contents of file i, as one sequence of bytes. */
  ghost function Contents(v: Vol, i: nat): (s: seq<Byte>)
    requires Shape(v) && i in v.inodes
    ensures |s| == v.inodes[i].size
  {
    seq(v.inodes[i].size, off requires 0 <= off < v.inodes[i].size => ByteAt(v, i, off))
  }

  /** The other files are as they were. */
  ghost predicate OthersSame(v: Vol, v': Vol, i: nat)
    requires Shape(v) && Shape(v')
  {
    && v'.inodes.Keys == v.inodes.Keys
    && forall j :: j in v.inodes && j != i ==>
      v'.inodes[j].size == v.inodes[j].size && Contents(v', j) == Contents(v, j)
  }

  // ---------------------------------------------------------------- single changes

  function Put(v: Vol, b: nat, d: Block): Vol {
    v.(blocks := v.blocks[b := d])
  }

  function SetAddr(v: Vol, i: nat, j: nat, b: nat): Vol
    requires i in v.inodes && j < |v.inodes[i].addrs|
  {
    v.(inodes := v.inodes[i := v.inodes[i].(addrs := v.inodes[i].addrs[j := b])])
  }

  function SetSize(v: Vol, i: nat, size: nat): Vol
    requires i in v.inodes
  {
    v.(inodes := v.inodes[i := v.inodes[i].(size := size)])
  }

  /** The bitmap block of b, with the bit of b set or cleared. */
  function BitmapWith(v: Vol, b: nat, used: bool): (d: Block)
    requires BitmapBlock(v.l, b) in v.blocks && |v.blocks[BitmapBlock(v.l, b)]| == BSIZE
    ensures |d| == BSIZE
  {
    var d, x := v.blocks[BitmapBlock(v.l, b)], b % BPB / 8;
    ByteFits(d[x], b % 8);
    d[x := if used then WithBit(d[x], b % 8) else WithoutBit(d[x], b % 8)]
  }

  ghost function Remark(v: Vol, b: nat, used: bool): Vol
    requires Shape(v) && b < v.l.size
  {
    BitmapFits(v.l, b);
    Put(v, BitmapBlock(v.l, b), BitmapWith(v, b, used))
  }

  lemma RemarkMarks(v: Vol, b: nat, used: bool, x: nat)
    requires Shape(v) && b < v.l.size && x < v.l.size
    ensures Shape(Remark(v, b, used))
    ensures Marked(Remark(v, b, used), x) <==> if x == b then used else Marked(v, x)
  {
    BitmapFits(v.l, b);
    BitmapFits(v.l, x);
    var y := v.blocks[BitmapBlock(v.l, b)][b % BPB / 8];
    if BitmapBlock(v.l, x) == BitmapBlock(v.l, b) && x % BPB / 8 == b % BPB / 8 {
      WithBitBits(y, b % 8, x % 8);
      WithoutBitBits(y, b % 8, x % 8);
      BitIndex(x, b);
    }
  }

  lemma BitIndex(x: nat, b: nat)
    requires x / BPB == b / BPB && x % BPB / 8 == b % BPB / 8
    ensures x % 8 == b % 8 <==> x == b
  {
    BitOffset(x);
    BitOffset(b);
  }

  lemma BitOffset(x: nat)
    ensures x % 8 == x % BPB % 8 && x == BPB * (x / BPB) + 8 * (x % BPB / 8) + x % 8
  {
    var n, t := 1024 * (x / BPB) + x % BPB / 8, x % BPB % 8;
    assert x == 8 * n + t;
    assert x / 8 == n;
  }

  ghost predicate SamePositions(v: Vol, v': Vol)
    requires Shape(v) && Shape(v')
  {
    && v'.inodes.Keys == v.inodes.Keys
    && forall i, k :: i in v.inodes && 0 <= k <= MAXFILE ==> At(v', i, k) == At(v, i, k)
  }

  /** Changing a block that is no indirect block moves nothing. */
  lemma PutPositions(v: Vol, b: nat, d: Block)
    requires Shape(v) && b < v.l.size && |d| == BSIZE
    requires b == 0 || forall i :: i in v.inodes ==> At(v, i, MAXFILE) != b
    ensures Shape(Put(v, b, d)) && SamePositions(v, Put(v, b, d))
  {
    var v' := Put(v, b, d);
    forall i, k | i in v.inodes && 0 <= k <= MAXFILE
      ensures At(v', i, k) == At(v, i, k)
    {
      assert At(v, i, MAXFILE) == v.inodes[i].addrs[NDIRECT];
    }
  }

  lemma SamePositionsOwned(v: Vol, v': Vol, b: nat)
    requires Shape(v) && Shape(v') && SamePositions(v, v')
    ensures Owned(v', b) <==> Owned(v, b)
  {
    hide At;
    if Owned(v, b) {
      var i, k :| i in v.inodes && 0 <= k <= MAXFILE && At(v, i, k) == b;
      assert At(v', i, k) == b;
    }
    if Owned(v', b) {
      var i, k :| i in v'.inodes && 0 <= k <= MAXFILE && At(v', i, k) == b;
      assert At(v, i, k) == b;
    }
  }

  lemma SamePositionsPlaced(v: Vol, v': Vol)
    requires Shape(v) && Shape(v') && SamePositions(v, v') && Placed(v) && v'.l == v.l
    ensures Placed(v')
    ensures NoHoles(v) && (forall i :: i in v.inodes ==> v'.inodes[i].size == v.inodes[i].size) ==> NoHoles(v')
  {
    hide At;
  }

  // ---------------------------------------------------------------- allocation

  /** Block b has been marked and zeroed by balloc, and is not in any inode yet. */
  ghost predicate Pending(v: Vol, b: nat) {
    && Shape(v) && Placed(v) && NoHoles(v)
    && v.l.dstart <= b < v.l.size && !Owned(v, b) && v.blocks[b] == Zeros(BSIZE)
    && forall x :: 0 <= x < v.l.size ==> (Marked(v, x) <==> x < v.l.dstart || Owned(v, x) || x == b)
  }

  /** A block whose bit is clear is a data block that no inode has. */
  lemma FreeBlock(v: Vol, b: nat)
    requires Good(v) && b < v.l.size && !Marked(v, b)
    ensures v.l.dstart <= b && !Owned(v, b)
    ensures forall i, k :: i in v.inodes && 0 <= k <= MAXFILE ==> At(v, i, k) != b
  {
    hide At, Placed, NoHoles;
  }

  lemma BallocPends(v: Vol, b: nat)
    requires Good(v) && b < v.l.size && !Marked(v, b)
    ensures Shape(Remark(v, b, true))
    ensures var v' := Put(Remark(v, b, true), b, Zeros(BSIZE)); Pending(v', b) && SamePositions(v, v')
  {
    var v1 := Remark(v, b, true);
    BitmapFits(v.l, b);
    FreeBlock(v, b);
    RemarkMarks(v, b, true, b);
    BitmapNotIndirect(v, b);
    PutPositions(v, BitmapBlock(v.l, b), BitmapWith(v, b, true));
    hide At, NoHoles, BitmapExact, Placed, BitmapWith;
    assert forall i :: i in v1.inodes ==> At(v1, i, MAXFILE) == At(v, i, MAXFILE);
    PutPositions(v1, b, Zeros(BSIZE));
    var v' := Put(v1, b, Zeros(BSIZE));
    assert SamePositions(v, v');
    SamePositionsPlaced(v, v');
    forall x | 0 <= x < v.l.size
      ensures (Marked(v', x) <==> Marked(v, x) || x == b) && (Owned(v', x) <==> Owned(v, x))
    {
      RemarkMarks(v, b, true, x);
      SameMarks(v1, v', x);
      SamePositionsOwned(v, v', x);
    }
    assert BitmapExact(v);
    MarksOf(v, v', b);
  }

  lemma BitmapNotIndirect(v: Vol, b: nat)
    requires Good(v) && b < v.l.size
    ensures forall i :: i in v.inodes ==> At(v, i, MAXFILE) != BitmapBlock(v.l, b)
  {
    BitmapFits(v.l, b);
    hide At, BitmapExact, NoHoles;
  }

  lemma SameMarks(v: Vol, v': Vol, x: nat)
    requires Shape(v) && Shape(v') && v'.l == v.l && x < v.l.size
    requires v'.blocks[BitmapBlock(v.l, x)] == v.blocks[BitmapBlock(v.l, x)]
    ensures Marked(v', x) <==> Marked(v, x)
  {
  }

  lemma MarksOf(v: Vol, v': Vol, b: nat)
    requires Shape(v) && Shape(v') && v'.l == v.l && BitmapExact(v)
    requires forall x :: 0 <= x < v.l.size ==>
      (Marked(v', x) <==> Marked(v, x) || x == b) && (Owned(v', x) <==> Owned(v, x))
    ensures forall x :: 0 <= x < v.l.size ==> (Marked(v', x) <==> x < v.l.dstart || Owned(v', x) || x == b)
  {
    hide Marked, Owned;
  }

  /** Once the pending block is at position (i, k), and nothing else has moved, all is well. */
  lemma AttachGood(v: Vol, v': Vol, i: nat, k: nat, b: nat)
    requires Pending(v, b) && Shape(v') && v'.l == v.l && i in v.inodes && k <= MAXFILE && At(v, i, k) == 0
    requires v'.inodes.Keys == v.inodes.Keys && forall j :: j in v.inodes ==> v'.inodes[j].size == v.inodes[j].size
    requires forall j, m :: j in v.inodes && 0 <= m <= MAXFILE ==>
      At(v', j, m) == if j == i && m == k then b else At(v, j, m)
    requires forall x :: 0 <= x < v.l.size ==> (Marked(v', x) <==> Marked(v, x))
    ensures Good(v')
  {
    hide At, Marked;
    forall j, m | j in v'.inodes && 0 <= m <= MAXFILE && At(v', j, m) != 0
      ensures v.l.dstart <= At(v', j, m) < v.l.size
    {
      assert At(v', j, m) == if j == i && m == k then b else At(v, j, m);
    }
    forall x | 0 <= x < v.l.size
      ensures Owned(v', x) <==> (Owned(v, x) && x != 0) || x == b || (x == 0 && Owned(v', 0))
    {
      AttachOwned(v, v', i, k, b, x);
    }
  }

  lemma AttachOwned(v: Vol, v': Vol, i: nat, k: nat, b: nat, x: nat)
    requires Shape(v) && Shape(v') && i in v.inodes && k <= MAXFILE && At(v, i, k) == 0
    requires v'.inodes.Keys == v.inodes.Keys
    requires forall j, m :: j in v.inodes && 0 <= m <= MAXFILE ==>
      At(v', j, m) == if j == i && m == k then b else At(v, j, m)
    ensures x != 0 ==> (Owned(v', x) <==> Owned(v, x) || x == b)
  {
    hide At;
    if x != 0 && (Owned(v, x) || x == b) {
      if x == b {
        assert At(v', i, k) == x;
      } else {
        var j, m :| j in v.inodes && 0 <= m <= MAXFILE && At(v, j, m) == x;
        assert At(v', j, m) == x;
      }
    }
    if x != 0 && Owned(v', x) {
      var j, m :| j in v'.inodes && 0 <= m <= MAXFILE && At(v', j, m) == x;
    }
  }

  lemma AttachDirect(v: Vol, i: nat, k: nat, b: nat)
    requires Pending(v, b) && i in v.inodes && k < NDIRECT && At(v, i, k) == 0
    ensures Good(SetAddr(v, i, k, b))
    ensures forall j, m :: j in v.inodes && 0 <= m <= MAXFILE ==>
      At(SetAddr(v, i, k, b), j, m) == if j == i && m == k then b else At(v, j, m)
  {
    hide Owned, Placed, NoHoles;
    AttachGood(v, SetAddr(v, i, k, b), i, k, b);
  }

  lemma ZeroWords(d: Block, k: nat)
    requires d == Zeros(BSIZE) && k < NINDIRECT
    ensures Word(d, k) == 0
  {
  }

  lemma AttachTable(v: Vol, i: nat, b: nat)
    requires Pending(v, b) && i in v.inodes && At(v, i, MAXFILE) == 0
    ensures Good(SetAddr(v, i, NDIRECT, b))
    ensures forall j, m :: j in v.inodes && 0 <= m <= MAXFILE ==>
      At(SetAddr(v, i, NDIRECT, b), j, m) == if j == i && m == MAXFILE then b else At(v, j, m)
  {
    hide Owned, Placed, NoHoles, Word;
    var v' := SetAddr(v, i, NDIRECT, b);
    forall j, m | j in v.inodes && 0 <= m <= MAXFILE
      ensures At(v', j, m) == if j == i && m == MAXFILE then b else At(v, j, m)
    {
      if j == i && NDIRECT <= m < MAXFILE {
        ZeroWords(v.blocks[b], m - NDIRECT);
      }
    }
    AttachGood(v, v', i, MAXFILE, b);
  }

  /** The indirect block t of inode i, with entry k set to b. */
  function WithEntry(v: Vol, i: nat, k: nat, b: nat): Vol
    requires i in v.inodes && |v.inodes[i].addrs| == NDIRECT + 1 && NDIRECT <= k < MAXFILE && b < WORD_LIMIT
    requires v.inodes[i].addrs[NDIRECT] in v.blocks && |v.blocks[v.inodes[i].addrs[NDIRECT]]| == BSIZE
  {
    var t := v.inodes[i].addrs[NDIRECT];
    Put(v, t, PutWord(v.blocks[t], k - NDIRECT, b))
  }

  lemma EntryPositions(v: Vol, i: nat, k: nat, b: nat)
    requires Shape(v) && Placed(v) && i in v.inodes && NDIRECT <= k < MAXFILE && b < WORD_LIMIT
    requires At(v, i, MAXFILE) != 0
    ensures var v' := WithEntry(v, i, k, b);
      && Shape(v')
      && forall j, m :: j in v.inodes && 0 <= m <= MAXFILE ==>
        At(v', j, m) == if j == i && m == k then b else At(v, j, m)
  {
    hide Word, PutWord;
    var v', t := WithEntry(v, i, k, b), At(v, i, MAXFILE);
    forall j, m | j in v.inodes && 0 <= m <= MAXFILE
      ensures At(v', j, m) == if j == i && m == k then b else At(v, j, m)
    {
      if j == i && NDIRECT <= m < MAXFILE {
        PutWordWords(v.blocks[t], k - NDIRECT, b, m - NDIRECT);
      } else if j != i {
        assert At(v, j, MAXFILE) != t;
      }
    }
  }

  lemma AttachEntry(v: Vol, i: nat, k: nat, b: nat)
    requires Pending(v, b) && i in v.inodes && NDIRECT <= k < MAXFILE && At(v, i, k) == 0 && At(v, i, MAXFILE) != 0
    ensures Good(WithEntry(v, i, k, b))
    ensures forall j, m :: j in v.inodes && 0 <= m <= MAXFILE ==>
      At(WithEntry(v, i, k, b), j, m) == if j == i && m == k then b else At(v, j, m)
  {
    EntryPositions(v, i, k, b);
    var t, v' := At(v, i, MAXFILE), WithEntry(v, i, k, b);
    assert t == v.inodes[i].addrs[NDIRECT];
    assert v.l.dstart <= t;
    hide At, Owned, NoHoles, Placed, WithEntry, PutWord;
    forall x | 0 <= x < v.l.size
      ensures Marked(v', x) <==> Marked(v, x)
    {
      BitmapFits(v.l, x);
      EntryBlocks(v, i, k, b, BitmapBlock(v.l, x));
      SameMarks(v, v', x);
    }
    AttachGood(v, v', i, k, b);
  }

  lemma EntryBlocks(v: Vol, i: nat, k: nat, b: nat, x: nat)
    requires Shape(v) && i in v.inodes && NDIRECT <= k < MAXFILE && b < WORD_LIMIT
    requires x != v.inodes[i].addrs[NDIRECT] && x < v.l.size
    ensures WithEntry(v, i, k, b).blocks[x] == v.blocks[x]
    ensures WithEntry(v, i, k, b).inodes == v.inodes && WithEntry(v, i, k, b).l == v.l
  {
  }

  // ---------------------------------------------------------------- contents

  /** File j is the same in v' when its blocks are where they were and hold what they held. */
  lemma SameContents(v: Vol, v': Vol, j: nat)
    requires Shape(v) && Shape(v') && j in v.inodes && j in v'.inodes && v'.l == v.l
    requires v'.inodes[j].size == v.inodes[j].size
    requires forall m :: 0 <= m < MAXFILE && m * BSIZE < v.inodes[j].size ==>
      At(v', j, m) == At(v, j, m) && (At(v, j, m) < v.l.size ==> v'.blocks[At(v, j, m)] == v.blocks[At(v, j, m)])
    ensures Contents(v', j) == Contents(v, j)
  {
    hide At;
    forall off | 0 <= off < v.inodes[j].size
      ensures ByteAt(v', j, off) == ByteAt(v, j, off)
    {
      var m := off / BSIZE;
      assert m < MAXFILE && m * BSIZE <= off;
    }
  }

  /** A data block, or a free one, may hold anything. */
  lemma PutBlockKeeps(v: Vol, b: nat, d: Block)
    requires Good(v) && v.l.dstart <= b < v.l.size && |d| == BSIZE
    requires forall j :: j in v.inodes ==> At(v, j, MAXFILE) != b
    ensures Good(Put(v, b, d)) && SamePositions(v, Put(v, b, d))
  {
    var v' := Put(v, b, d);
    PutPositions(v, b, d);
    hide At, NoHoles;
    SamePositionsPlaced(v, v');
    hide Placed;
    forall x | 0 <= x < v.l.size
      ensures (Marked(v', x) <==> Marked(v, x)) && (Owned(v', x) <==> Owned(v, x))
    {
      BitmapFits(v.l, x);
      SameMarks(v, v', x);
      SamePositionsOwned(v, v', x);
    }
    hide Marked, Owned;
  }

  /** Block k of file i is given new bytes. */
  lemma PutDataKeeps(v: Vol, i: nat, k: nat, d: Block)
    requires Good(v) && i in v.inodes && k < MAXFILE && At(v, i, k) != 0 && |d| == BSIZE
    ensures var v' := Put(v, At(v, i, k), d); Good(v') && SamePositions(v, v')
  {
    DataPlace(v, i, k);
    hide Good, SamePositions, At;
    PutBlockKeeps(v, At(v, i, k), d);
  }

  lemma DataPlace(v: Vol, i: nat, k: nat)
    requires Good(v) && i in v.inodes && k < MAXFILE && At(v, i, k) != 0
    ensures Shape(v) && v.l.dstart <= At(v, i, k) < v.l.size && forall j :: j in v.inodes ==> At(v, j, MAXFILE) != At(v, i, k)
    ensures forall j, m :: j in v.inodes && 0 <= m <= MAXFILE && At(v, j, m) == At(v, i, k) ==> j == i && m == k
  {
    hide At, BitmapExact, NoHoles;
  }

  lemma PutDataOthers(v: Vol, i: nat, k: nat, d: Block, j: nat)
    requires Good(v) && i in v.inodes && k < MAXFILE && At(v, i, k) != 0 && |d| == BSIZE && j in v.inodes && j != i
    ensures var v' := Put(v, At(v, i, k), d); Shape(v') && Contents(v', j) == Contents(v, j)
  {
    PutDataKeeps(v, i, k, d);
    hide At, BitmapExact, NoHoles;
    SameContents(v, Put(v, At(v, i, k), d), j);
  }

  lemma PutDataBytes(v: Vol, i: nat, k: nat, d: Block, off: nat)
    requires Good(v) && i in v.inodes && k < MAXFILE && At(v, i, k) != 0 && |d| == BSIZE && off < MAXFILE * BSIZE
    ensures var v' := Put(v, At(v, i, k), d);
      Shape(v') && ByteAt(v', i, off) == if off / BSIZE == k then d[off % BSIZE] else ByteAt(v, i, off)
  {
    PutDataKeeps(v, i, k, d);
    hide At, BitmapExact, NoHoles;
    assert off / BSIZE < MAXFILE;
  }

  // ---------------------------------------------------------------- truncation

  /** Inode i is being truncated: the bits of the blocks in `freed` are already clear. */
  ghost predicate Releasing(v: Vol, i: nat, freed: set<nat>) {
    && Shape(v) && Placed(v) && i in v.inodes
    && (forall j, k :: j in v.inodes && j != i && 0 <= k < MAXFILE && k * BSIZE < v.inodes[j].size ==> At(v, j, k) != 0)
    && forall x :: 0 <= x < v.l.size ==> (Marked(v, x) <==> x < v.l.dstart || (Owned(v, x) && x !in freed))
  }

  lemma GoodReleases(v: Vol, i: nat)
    requires Good(v) && i in v.inodes
    ensures Releasing(v, i, {})
  {
    hide At, Marked, Owned, Placed;
  }

  /** bfree of a block that inode i has: the bit was set, so there is no panic. */
  lemma ReleaseMark(v: Vol, i: nat, freed: set<nat>, k: nat)
    requires Releasing(v, i, freed) && k <= MAXFILE && At(v, i, k) != 0 && At(v, i, k) !in freed
    ensures At(v, i, k) < v.l.size && Marked(v, At(v, i, k))
    ensures var v' := Remark(v, At(v, i, k), false);
      Releasing(v', i, freed + {At(v, i, k)}) && SamePositions(v, v')
  {
    var b := At(v, i, k);
    assert Owned(v, b);
    var v' := Remark(v, b, false);
    BitmapFits(v.l, b);
    hide At, Marked;
    PutPositions(v, BitmapBlock(v.l, b), BitmapWith(v, b, false));
    hide BitmapWith, BitmapBlock;
    SamePositionsPlaced(v, v');
    assert v.l.dstart <= b;
    hide Placed;
    forall x | 0 <= x < v.l.size
      ensures (Marked(v', x) <==> Marked(v, x) && x != b) && (Owned(v', x) <==> Owned(v, x))
    {
      RemarkMarks(v, b, false, x);
      SamePositionsOwned(v, v', x);
    }
    hide Owned, Remark;
  }

  /** Positions of i have been emptied, and with them all the freed blocks are gone. */
  lemma ReleaseDrop(v: Vol, v': Vol, i: nat, freed: set<nat>)
    requires Releasing(v, i, freed) && Shape(v') && v'.l == v.l && v'.blocks == v.blocks
    requires v'.inodes.Keys == v.inodes.Keys && forall j :: j in v.inodes ==> v'.inodes[j].size == v.inodes[j].size
    requires Emptied(v, v', i, freed)
    ensures Releasing(v', i, {})
  {
    hide Marked, At;
    assert Placed(v');
    forall x | 0 <= x < v.l.size
      ensures Marked(v', x) <==> x < v.l.dstart || Owned(v', x)
    {
      SameMarks(v, v', x);
      if v.l.dstart <= x {
        DropOwned(v, v', i, freed, x);
      }
    }
  }

  ghost predicate Emptied(v: Vol, v': Vol, i: nat, freed: set<nat>)
    requires Shape(v) && Shape(v') && i in v.inodes && v'.inodes.Keys == v.inodes.Keys
  {
    && (forall j, m :: j in v.inodes && 0 <= m <= MAXFILE ==>
          At(v', j, m) == At(v, j, m) || (j == i && At(v', j, m) == 0 && At(v, j, m) in freed))
    && (forall x, m :: x in freed && 0 <= m <= MAXFILE ==> At(v', i, m) != x)
    && (forall x :: x in freed ==> exists m :: 0 <= m <= MAXFILE && At(v, i, m) == x)
  }

  lemma DropOwned(v: Vol, v': Vol, i: nat, freed: set<nat>, x: nat)
    requires Shape(v) && Shape(v') && Placed(v) && i in v.inodes && v'.inodes.Keys == v.inodes.Keys && x > 0
    requires Emptied(v, v', i, freed)
    ensures Owned(v', x) <==> Owned(v, x) && x !in freed
  {
    hide At;
    if Owned(v, x) && x !in freed {
      var j, m :| j in v.inodes && 0 <= m <= MAXFILE && At(v, j, m) == x;
      assert At(v', j, m) == x;
    }
    if Owned(v', x) {
      var j, m :| j in v'.inodes && 0 <= m <= MAXFILE && At(v', j, m) == x;
      assert At(v, j, m) == x;
    }
  }

  lemma DropDirect(v: Vol, i: nat, k: nat)
    requires k < NDIRECT && i in v.inodes && Shape(v) && At(v, i, k) != 0 && Releasing(v, i, {At(v, i, k)})
    ensures Releasing(SetAddr(v, i, k, 0), i, {})
    ensures forall j, m :: j in v.inodes && 0 <= m <= MAXFILE ==>
      At(SetAddr(v, i, k, 0), j, m) == if j == i && m == k then 0 else At(v, j, m)
  {
    hide Marked, Owned;
    var b, v' := At(v, i, k), SetAddr(v, i, k, 0);
    assert forall j, m :: j in v.inodes && 0 <= m <= MAXFILE ==>
      At(v', j, m) == if j == i && m == k then 0 else At(v, j, m);
    assert forall m :: 0 <= m <= MAXFILE && At(v, i, m) == b ==> m == k;
    hide At;
    assert At(v, i, k) == b;
    ReleaseDrop(v, v', i, {b});
  }

  /** The blocks that the indirect block of i names, and that block itself. */
  ghost function TableBlocks(v: Vol, i: nat, n: nat): set<nat>
    requires Shape(v) && i in v.inodes && NDIRECT <= n <= MAXFILE + 1
  {
    set m | NDIRECT <= m < n && At(v, i, m) != 0 :: At(v, i, m)
  }

  lemma DropTable(v: Vol, i: nat)
    requires Shape(v) && i in v.inodes && Releasing(v, i, TableBlocks(v, i, MAXFILE + 1))
    ensures Releasing(SetAddr(v, i, NDIRECT, 0), i, {})
    ensures forall j, m :: j in v.inodes && 0 <= m <= MAXFILE ==>
      At(SetAddr(v, i, NDIRECT, 0), j, m) == if j == i && NDIRECT <= m then 0 else At(v, j, m)
  {
    hide Marked, Owned;
    var freed, v' := TableBlocks(v, i, MAXFILE + 1), SetAddr(v, i, NDIRECT, 0);
    assert forall j, m :: j in v.inodes && 0 <= m <= MAXFILE ==>
      At(v', j, m) == if j == i && NDIRECT <= m then 0 else At(v, j, m);
    hide At;
    forall x | x in freed
      ensures x != 0 && forall m :: 0 <= m <= MAXFILE ==> At(v', i, m) != x
    {
    }
    ReleaseDrop(v, v', i, freed);
  }

  lemma TruncatedGood(v: Vol, i: nat)
    requires Releasing(v, i, {})
    ensures Good(SetSize(v, i, 0))
    ensures forall j, m :: j in v.inodes && 0 <= m <= MAXFILE ==> At(SetSize(v, i, 0), j, m) == At(v, j, m)
  {
    var v' := SetSize(v, i, 0);
    assert forall j, m :: j in v.inodes && 0 <= m <= MAXFILE ==> At(v', j, m) == At(v, j, m);
    hide At;
    assert SamePositions(v, v');
    SamePositionsPlaced(v, v');
    forall x | 0 <= x < v.l.size
      ensures (Marked(v', x) <==> Marked(v, x)) && (Owned(v', x) <==> Owned(v, x))
    {
      SameMarks(v, v', x);
      SamePositionsOwned(v, v', x);
    }
    hide Marked, Owned;
  }
}
