/** What a volume falls back to. A block that writei has stored into without log_write is stray: if
    its buffer is recycled before a commit saves it, bread returns its last logged contents again.
    `Strays` maps such blocks to those contents. */
module Fallback {
  import opened Params
  import opened Volume

  type Strays = map<nat, Block>

  /** Fewer blocks are stray. */
  ghost predicate Sub(st: Strays, st': Strays) {
    forall b :: b in st' ==> b in st && st'[b] == st[b]
  }

  /** Only data blocks and free ones are stray: no bitmap block and no indirect block. */
  ghost predicate Backed(v: Vol, st: Strays)
    requires Shape(v)
  {
    forall b :: b in st ==>
      && v.l.dstart <= b < v.l.size && |st[b]| == BSIZE
      && forall j :: j in v.inodes ==> v.inodes[j].addrs[NDIRECT] != b
  }

  /** Byte x of file i after every stray block has been recycled. */
  ghost function Under(v: Vol, st: Strays, i: nat, x: nat): Byte
    requires Shape(v) && i in v.inodes && x < MAXFILE * BSIZE
  {
    var b := At(v, i, x / BSIZE);
    if b in st && |st[b]| == BSIZE then st[b][x % BSIZE] else ByteAt(v, i, x)
  }

  /** The bytes that file i falls back to. */
  ghost function Beneath(v: Vol, st: Strays, i: nat): (s: seq<Byte>)
    requires Shape(v) && i in v.inodes
    ensures |s| == v.inodes[i].size
  {
    seq(v.inodes[i].size, x requires 0 <= x < v.inodes[i].size => Under(v, st, i, x))
  }

  /** File block k of file j, inside the file as it was in v, is stray only if it was so before,
      with the same contents to fall back to. */
  ghost predicate FallsAt(v: Vol, st: Strays, v': Vol, st': Strays, j: nat, k: nat)
    requires Shape(v) && Shape(v') && j in v.inodes && j in v'.inodes && k < MAXFILE
  {
    k * BSIZE < v.inodes[j].size && At(v', j, k) in st' ==>
      At(v, j, k) == At(v', j, k) && At(v', j, k) in st && st'[At(v', j, k)] == st[At(v', j, k)]
  }

  /** That holds for every block of every file. */
  ghost predicate Falls(v: Vol, st: Strays, v': Vol, st': Strays) {
    && Shape(v) && Shape(v') && v'.inodes.Keys == v.inodes.Keys
    && forall j, k :: j in v.inodes && 0 <= k < MAXFILE ==> FallsAt(v, st, v', st', j, k)
  }

  lemma FallsRefl(v: Vol, st: Strays)
    requires Shape(v)
    ensures Falls(v, st, v, st)
  {
    hide At;
  }

  lemma FallsTrans(v: Vol, st: Strays, v1: Vol, st1: Strays, v2: Vol, st2: Strays)
    requires Falls(v, st, v1, st1) && Falls(v1, st1, v2, st2)
    requires forall j :: j in v.inodes ==> v.inodes[j].size <= v1.inodes[j].size
    ensures Falls(v, st, v2, st2)
  {
    hide At;
    forall j, k | j in v.inodes && 0 <= k < MAXFILE
      ensures FallsAt(v, st, v2, st2, j, k)
    {
      assert FallsAt(v, st, v1, st1, j, k) && FallsAt(v1, st1, v2, st2, j, k);
    }
  }

  /** Blocks keep their places. */
  lemma SameFalls(v: Vol, st: Strays, v': Vol, st': Strays)
    requires Shape(v) && Shape(v') && SamePositions(v, v') && Sub(st, st')
    ensures Falls(v, st, v', st')
  {
    hide At;
  }

  lemma SubTrans(st: Strays, st1: Strays, st2: Strays)
    requires Sub(st, st1) && Sub(st1, st2)
    ensures Sub(st, st2)
  {
  }

  /** A block that falls as before: its bytes are safe, or fall back to the same. */
  lemma UnderFalls(v: Vol, st: Strays, v': Vol, st': Strays, j: nat, x: nat)
    requires Shape(v) && Shape(v') && Backed(v', st') && j in v.inodes && j in v'.inodes && x < v.inodes[j].size
    requires x / BSIZE < MAXFILE && FallsAt(v, st, v', st', j, x / BSIZE)
    ensures x < MAXFILE * BSIZE && Under(v', st', j, x) ==
      if At(v', j, x / BSIZE) in st' then Under(v, st, j, x) else ByteAt(v', j, x)
  {
    hide At;
    assert x / BSIZE * BSIZE <= x;
  }
}
