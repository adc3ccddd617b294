/** log.c as it runs: the in-memory header, the buffers, and the disk.

    `cache` holds the contents of the buffers that exist. The first n entries of the in-memory
    header are pinned, so their buffers stay (module `CacheRuns`). Buffers of other home blocks can
    differ from the disk too: writei releases one that it has changed and not logged when the user's
    memory faults, and it may be recycled at any time (module `CacheLoss`). `trace` records every
    disk write. */
module LogFile {
  import opened RedoLog
  import opened Params

  /** log_write's search: the block is added to the header unless it is already there. */
  function Absorb(bs: seq<nat>, b: nat): (r: seq<nat>) {
    if b in bs then bs else bs + [b]
  }

  /** begin_op has to wait. */
  predicate MustWait(n: nat, outstanding: nat, committing: bool) {
    committing || n + (outstanding + 1) * MAXOPBLOCKS > LOGSIZE
  }

  /** log_write panics. */
  predicate TooBig(n: nat, size: nat) {
    n >= LOGSIZE || n >= size - 1
  }

  lemma ApplyNone(d: Disk, ws: seq<Write>)
    ensures Apply(d, ws[..0]) == d
  {
  }

  lemma ApplySnoc(d: Disk, ws: seq<Write>, i: nat)
    requires i < |ws|
    ensures Apply(d, ws[..i + 1]) == Apply(d, ws[..i])[ws[i].b := ws[i].v]
  {
    assert ws[..i + 1][..i] == ws[..i];
  }

  /** What bread returns for block b. */
  function View(disk: Disk, cache: Disk, b: nat): Block
    requires b in disk
  {
    if b in cache then cache[b] else disk[b]
  }

  ghost function Views(disk: Disk, cache: Disk, bs: seq<nat>): (vals: seq<Block>)
    requires forall i :: 0 <= i < |bs| ==> bs[i] in disk
    ensures |vals| == |bs|
  {
    seq(|bs|, i requires 0 <= i < |bs| && bs[i] in disk => View(disk, cache, bs[i]))
  }

  /** The writes of commit() for the transaction that the header bs and the cache hold. */
  ghost function TxnWrites(a: Area, disk: Disk, cache: Disk, bs: seq<nat>): seq<Write>
    requires LogOk(disk, a) && BlocksOk(disk, a, bs)
  {
    if bs == [] then [] else CommitWrites(a, disk[a.start].block, bs, Views(disk, cache, bs))
  }

  /** Buffers are of blocks that exist, and those of the log area agree with the disk. */
  ghost predicate CacheOk(disk: Disk, cache: Disk, a: Area) {
    && (forall b :: b in cache ==> b in disk)
    && (forall b :: b in cache && a.Has(b) ==> cache[b] == disk[b])
  }

  /** bread sees the same contents in every home block. */
  ghost predicate SameView(disk: Disk, cache: Disk, disk': Disk, cache': Disk, a: Area) {
    forall b :: b in disk && !a.Has(b) ==> b in disk' && View(disk', cache', b) == View(disk, cache, b)
  }

  /** The same, but for the blocks of bs. */
  ghost predicate SameViewBut(disk: Disk, cache: Disk, disk': Disk, cache': Disk, a: Area, bs: seq<nat>) {
    forall b :: b in disk && !a.Has(b) && b !in bs ==> b in disk' && View(disk', cache', b) == View(disk, cache, b)
  }

  /** The buffers of the blocks bs agree with the disk. */
  ghost predicate Settled(disk: Disk, cache: Disk, bs: seq<nat>) {
    forall b :: b in bs ==> b in disk && View(disk, cache, b) == disk[b]
  }

  /** A buffer that differs from the disk did so before and was not in bs; neither has changed. */
  ghost predicate OnlyStray(disk: Disk, cache: Disk, disk': Disk, cache': Disk, bs: seq<nat>) {
    forall b :: b in cache' && b in disk' && cache'[b] != disk'[b] ==>
      b !in bs && b in cache && b in disk && cache'[b] == cache[b] && disk'[b] == disk[b]
  }

  /** One turn of write_log's loop: log block w gets the contents of the pinned block b. */
  lemma LogTurn(disk: Disk, cache: Disk, a: Area, bs: seq<nat>, w: nat, b: nat, cache1: Disk, cache2: Disk)
    requires CacheOk(disk, cache, a) && BlocksOk(disk, a, bs) && a.Has(w) && w in disk && b in bs
    requires cache1 == cache[w := View(disk, cache, w)] && cache2 == cache1[b := View(disk, cache1, b)]
    ensures var v := View(disk, cache1, b);
      && v == View(disk, cache, b)
      && CacheOk(disk[w := v], cache2[w := v], a) && BlocksOk(disk[w := v], a, bs)
      && SameView(disk, cache, disk[w := v], cache2[w := v], a)
  {
  }

  /** One turn of install_trans's loop: block bs[j] gets the contents of log block w. */
  lemma InstallTurn(disk: Disk, cache: Disk, a: Area, bs: seq<nat>, j: nat, w: nat)
    requires j < |bs| && CacheOk(disk, cache, a) && Settled(disk, cache, bs[..j]) && BlocksOk(disk, a, bs)
    requires a.Has(w) && w in disk
    ensures var v := View(disk, cache, w);
      var disk', cache' := disk[bs[j] := v], cache[w := v][bs[j] := v];
      && v == disk[w]
      && CacheOk(disk', cache', a) && BlocksOk(disk', a, bs)
      && Settled(disk', cache', bs[..j + 1]) && SameViewBut(disk, cache, disk', cache', a, bs)
  {
    assert forall b :: b in bs[..j + 1] <==> b == bs[j] || b in bs[..j];
    assert forall i :: 0 <= i < |bs| ==> bs[i] != w;
    assert bs[j] in bs;
  }

  lemma HeadTurn(disk: Disk, cache: Disk, a: Area, v: Block)
    requires LogOk(disk, a) && CacheOk(disk, cache, a)
    ensures View(disk, cache, a.start) == disk[a.start]
    ensures CacheOk(disk[a.start := v], cache[a.start := v], a)
    ensures SameView(disk, cache, disk[a.start := v], cache[a.start := v], a)
  {
    assert a.Has(a.start);
  }

  lemma SameViewTrans(d: Disk, c: Disk, d1: Disk, c1: Disk, d2: Disk, c2: Disk, a: Area)
    requires SameView(d, c, d1, c1, a) && SameView(d1, c1, d2, c2, a)
    ensures SameView(d, c, d2, c2, a)
  {
  }

  lemma LogRoom(d: Disk, a: Area, disk: Disk)
    requires LogOk(d, a) && forall b :: b in d ==> b in disk
    ensures forall b :: a.Has(b) ==> b in disk
  {
  }

  class Log {
    const a: Area
    var n: nat
    var block: array<nat>
    var outstanding: nat
    var committing: bool
    var disk: Disk
    var cache: Disk
    ghost var trace: seq<Write>

    ghost predicate Valid()
      reads this, block
    {
      && block.Length == LOGSIZE && n <= LOGSIZE
      && LogOk(disk, a)
      && BlocksOk(disk, a, block[..n])
      && CacheOk(disk, cache, a)
    }

    constructor (a: Area, disk: Disk)
      requires LogOk(disk, a)
      ensures Valid() && this.a == a && this.disk == disk && trace == [] && fresh(block)
      ensures n == 0 && outstanding == 0 && !committing && cache == map[]
    {
      this.a := a;
      this.disk := disk;
      cache, trace, n, outstanding, committing := map[], [], 0, 0, false;
      block := new nat[LOGSIZE](_ => 0);
    }

    method Bread(b: nat) returns (v: Block)
      requires b in disk
      modifies this`cache
      ensures v == View(disk, old(cache), b) && cache == old(cache)[b := v]
    {
      v := if b in cache then cache[b] else disk[b];
      cache := cache[b := v];
    }

    /** Change the buffer of block b and write it to the disk. */
    method Bwrite(b: nat, v: Block)
      modifies this`cache, this`disk, this`trace
      ensures cache == old(cache)[b := v] && disk == old(disk)[b := v]
      ensures trace == old(trace) + [Write(b, v)]
    {
      cache := cache[b := v];
      disk := disk[b := v];
      trace := trace + [Write(b, v)];
    }

    /** Copy the pinned blocks from the cache to the log. */
    method WriteLog()
      requires Valid()
      modifies this`cache, this`disk, this`trace
      ensures CacheOk(disk, cache, a)
      ensures var ws := LogWrites(a, Views(old(disk), old(cache), block[..n]));
        trace == old(trace) + ws && disk == Apply(old(disk), ws)
      ensures SameView(old(disk), old(cache), disk, cache, a)
    {
      hide CacheOk, SameView, LogOk, Apply;
      ghost var d, c, bs := disk, cache, block[..n];
      ghost var vals := Views(d, c, bs);
      ghost var ws := LogWrites(a, vals);
      SameViewRefl(d, c, a);
      ApplyNone(d, ws);
      var tail := 0;
      while tail < n
        invariant 0 <= tail <= n && |ws| == n
        invariant disk == Apply(d, ws[..tail]) && trace == old(trace) + ws[..tail]
        invariant CacheOk(disk, cache, a) && BlocksOk(disk, a, bs) && SameView(d, c, disk, cache, a)
        invariant forall b :: b in d ==> b in disk
      {
        ghost var disk0, cache0 := disk, cache;
        LogRoom(d, a, disk);
        assert a.Has(a.start + tail + 1) && bs[tail] == block[tail];
        var to := Bread(a.start + tail + 1);
        ghost var cache1 := cache;
        var from := Bread(block[tail]);
        LogTurn(disk0, cache0, a, bs, a.start + tail + 1, bs[tail], cache1, cache);
        assert from == vals[tail] by {
          ViewAt(d, c, disk0, cache0, a, bs[tail]);
        }
        Bwrite(a.start + tail + 1, from);
        SameViewTrans(d, c, disk0, cache0, disk, cache, a);
        ApplySnoc(d, ws, tail);
        tail := tail + 1;
      }
      assert ws[..tail] == ws;
    }

    /** Copy log block w to block b, and write that. */
    method InstallOne(w: nat, b: nat)
      requires w in disk && b in disk
      modifies this`cache, this`disk, this`trace
      ensures var v := View(old(disk), old(cache), w);
        disk == old(disk)[b := v] && cache == old(cache)[w := v][b := v] && trace == old(trace) + [Write(b, v)]
    {
      var lbuf := Bread(w);
      var dbuf := Bread(b);
      Bwrite(b, lbuf);
    }

    /** Copy the logged blocks to their home locations. */
    method InstallTrans()
      requires block.Length == LOGSIZE && n <= LOGSIZE && BlocksOk(disk, a, block[..n]) && CacheOk(disk, cache, a)
      requires forall b :: a.Has(b) ==> b in disk
      modifies this`cache, this`disk, this`trace
      ensures CacheOk(disk, cache, a) && BlocksOk(disk, a, block[..n])
      ensures Settled(disk, cache, block[..n]) && SameViewBut(old(disk), old(cache), disk, cache, a, block[..n])
      ensures var ws := InstallWrites(block[..n], InLog(old(disk), a, n));
        trace == old(trace) + ws && disk == Apply(old(disk), ws)
    {
      hide CacheOk, Apply, SameViewBut, Settled, InLog, InstallWrites, BlocksOk;
      assert |block[..n]| < a.size by { BlocksFit(disk, a, block[..n]); }
      ghost var d, c, bs := disk, cache, block[..n];
      ghost var ws := InstallWrites(bs, InLog(d, a, n));
      assert |ws| == n by { InstallLength(bs, InLog(d, a, n)); }
      ApplyNone(d, ws);
      InstallNone(d, c, a, bs);
      var tail := 0;
      while tail < n
        invariant 0 <= tail <= n && |ws| == n
        invariant disk == Apply(d, ws[..tail]) && trace == old(trace) + ws[..tail]
        invariant CacheOk(disk, cache, a) && BlocksOk(disk, a, bs)
        invariant Settled(disk, cache, bs[..tail]) && SameViewBut(d, c, disk, cache, a, bs)
        invariant forall b :: a.Has(b) ==> b in disk && disk[b] == d[b]
      {
        ghost var disk0, cache0 := disk, cache;
        BlocksAt(disk, a, bs, tail);
        assert a.Has(a.start + tail + 1) && bs[tail] == block[tail];
        InstallTurn(disk0, cache0, a, bs, tail, a.start + tail + 1);
        InstallOne(a.start + tail + 1, block[tail]);
        SameViewButTrans(d, c, disk0, cache0, disk, cache, a, bs);
        InstallAt(d, a, bs, tail);
        ApplySnoc(d, ws, tail);
        assert ws[..tail + 1] == ws[..tail] + [ws[tail]];
        tail := tail + 1;
      }
      assert ws[..tail] == ws && bs[..tail] == bs;
    }

    /** Write the in-memory header to the disk. */
    method WriteHead()
      requires block.Length == LOGSIZE && n <= LOGSIZE && LogOk(disk, a) && CacheOk(disk, cache, a)
      modifies this`cache, this`disk, this`trace
      ensures CacheOk(disk, cache, a)
      ensures var w := Write(a.start, HeadBlock(old(disk)[a.start].block, block[..n]));
        trace == old(trace) + [w] && disk == old(disk)[w.b := w.v] && cache == old(cache)[w.b := w.v]
      ensures SameView(old(disk), old(cache), disk, cache, a)
    {
      hide CacheOk, SameView;
      ghost var disk0, cache0 := disk, cache;
      assert a.start in disk;
      HeadTurn(disk0, cache0, a, HeadBlock(disk0[a.start].block, block[..n]));
      var hb := Bread(a.start);
      var array_ := FillHead(hb.block);
      Bwrite(a.start, Header(n, array_));
      assert cache == cache0[a.start := Header(n, array_)];
    }

    /** The loop of write_head: hb->block[i] = log.lh.block[i]. */
    method FillHead(old_block: seq<nat>) returns (r: seq<nat>)
      requires n <= block.Length == |old_block|
      ensures r == block[..n] + old_block[n..]
    {
      r := old_block;
      var i := 0;
      while i < n
        invariant 0 <= i <= n && r == block[..i] + old_block[i..]
      {
        r := r[i := block[i]];
        i := i + 1;
      }
    }

    /** Read the log header from disk into the in-memory log header. */
    method ReadHead()
      requires block.Length == LOGSIZE && LogOk(disk, a) && CacheOk(disk, cache, a)
      modifies this`cache, this`n, block
      ensures n <= LOGSIZE && block[..n] == Logged(disk, a) && CacheOk(disk, cache, a)
    {
      assert a.Has(a.start);
      var lh := Bread(a.start);
      n := lh.n;
      var i := 0;
      while i < n
        invariant 0 <= i <= n && block[..i] == lh.block[..i]
        modifies block
      {
        block[i] := lh.block[i];
        i := i + 1;
      }
    }

    /** The first half of commit(), up to and with the header write. */
    method CommitPoint()
      requires Valid() && Clean(disk, a) && n > 0
      modifies this`cache, this`disk, this`trace
      ensures LogOk(disk, a) && BlocksOk(disk, a, block[..n]) && CacheOk(disk, cache, a)
      ensures SameView(old(disk), old(cache), disk, cache, a) && LogOk(old(disk), a)
      ensures var bs, vals := block[..n], Views(old(disk), old(cache), block[..n]);
        var head := Write(a.start, HeadBlock(old(disk)[a.start].block, bs));
        && InLog(disk, a, n) == vals && disk[a.start] == head.v
        && trace == old(trace) + LogWrites(a, vals) + [head] && disk == Apply(old(disk), LogWrites(a, vals) + [head])
    {
      hide CacheOk, SameView, Apply, LogOk, Clean;
      ghost var d, c, bs := disk, cache, block[..n];
      ghost var vals := Views(d, c, bs);
      AreaFacts(d, a, bs);
      WriteLog();
      AfterWriteLog(d, disk, a, bs, vals);
      ghost var c1 := cache;
      WriteHead();
      SameViewTrans(d, c, Apply(d, LogWrites(a, vals)), c1, disk, cache, a);
      AfterWriteHead(d, disk, a, bs, vals);
    }

    /** commit(), called with no operation outstanding: its disk writes are exactly CommitWrites,
        with the contents that the header's blocks have now, and what bread sees does not change.
        A buffer that was changed and not logged stays as it is, unless its block is in the header. */
    method Commit()
      requires Valid() && Clean(disk, a)
      modifies this`cache, this`disk, this`trace, this`n
      ensures Valid() && n == 0 && Clean(disk, a) && SameView(old(disk), old(cache), disk, cache, a)
      ensures OnlyStray(old(disk), old(cache), disk, cache, old(block[..n]))
      ensures var ws := TxnWrites(a, old(disk), old(cache), old(block[..n]));
        trace == old(trace) + ws && disk == Apply(old(disk), ws)
    {
      hide CacheOk, SameView, SameViewBut, Settled, OnlyStray, Apply, LogOk, Clean;
      if n == 0 {
        NothingDone(disk, cache, a);
        ApplyNone(disk, []);
        return;
      }
      ghost var d, c, bs := disk, cache, block[..n];
      ghost var vals := Views(d, c, bs);
      AreaFacts(d, a, bs);
      CommitPoint();
      ghost var e, c2 := disk, cache;
      AreaFacts(e, a, bs);
      InstallTrans();
      n := 0;
      assert block[..n] == [];
      AfterInstall(e, disk, a, bs, vals);
      ghost var f, c3 := disk, cache;
      WriteHead();
      CommitChain(d, e, f, disk, a, bs, vals);
      AfterCommitViews(d, c, e, c2, f, c3, disk, cache, a, bs);
      AfterCommitWrites(d, c, disk, cache, a, bs, vals);
    }

    /** recover_from_log(): its disk writes are exactly RecoverWrites. */
    method RecoverFromLog()
      requires block.Length == LOGSIZE && LogOk(disk, a) && cache == map[]
      modifies this`cache, this`disk, this`trace, this`n, block
      ensures Valid() && n == 0 && Clean(disk, a)
      ensures var ws := RecoverWrites(old(disk), a); trace == old(trace) + ws && disk == Apply(old(disk), ws)
    {
      hide CacheOk, SameView, SameViewBut, Settled, Apply, LogOk, Clean;
      ghost var d := disk;
      EmptyCache(disk, a);
      ReadHead();
      LoggedTxn(disk, a);
      AreaFacts(disk, a, block[..n]);
      InLogSaved(disk, a);
      ghost var bs, vals := block[..n], Saved(disk, a);
      InstallTrans();
      n := 0;
      assert block[..n] == [];
      AfterInstall(d, disk, a, bs, vals);
      ghost var f := disk;
      WriteHead();
      ApplyOne(d, InstallWrites(bs, vals), Write(a.start, HeadBlock(d[a.start].block, [])));
      ClearedOk(d, a);
      RecoveredInstalled(d, a);
    }

    /** writei's store into the buffer of home block b when the source faults: it is released without
        log_write. */
    method Store(b: nat, v: Block)
      requires Valid() && b in disk && !a.Has(b)
      modifies this`cache
      ensures Valid() && cache == old(cache)[b := v]
    {
      cache := cache[b := v];
    }

    /** bget recycles the buffer of a block that is not pinned: bread goes to the disk again. */
    method Recycle(b: nat)
      requires Valid() && b !in block[..n]
      modifies this`cache
      ensures Valid() && b !in cache && forall x :: x != b && x in disk ==> View(disk, cache, x) == View(disk, old(cache), x)
      ensures b in disk ==> View(disk, cache, b) == disk[b]
    {
      cache := cache - {b};
    }

    /** log_write(): the caller has put v into the buffer of block b. The overflow test comes
        before the search for the block. */
    method LogWrite(b: nat, v: Block) returns (panic: bool)
      requires Valid() && b in disk && !a.Has(b)
      modifies this`cache, this`n, block
      ensures panic <==> TooBig(old(n), a.size) || outstanding < 1
      ensures panic ==> n == old(n) && cache == old(cache) && block[..] == old(block[..])
      ensures !panic ==> Valid() && block[..n] == Absorb(old(block[..n]), b) && cache == old(cache)[b := v]
    {
      panic := n >= LOGSIZE || n >= a.size - 1 || outstanding < 1;
      if panic {
        return;
      }
      ghost var bs := block[..n];
      cache := cache[b := v];
      var i := 0;
      while i < n && block[i] != b
        invariant 0 <= i <= n && b !in bs[..i]
        modifies {}
      {
        i := i + 1;
      }
      block[i] := b;
      if i == n {
        assert bs[..i] == bs;
        n := n + 1;
        assert block[..n] == bs + [b];
      } else {
        assert block[..n] == bs;
      }
      assert block[..n] == Absorb(bs, b);
    }

    /** One trip round begin_op's loop: admitted, or it has to sleep. */
    method BeginOp() returns (admitted: bool)
      modifies this`outstanding
      ensures admitted <==> !MustWait(n, old(outstanding), committing)
      ensures outstanding == old(outstanding) + if admitted then 1 else 0
    {
      admitted := !(committing || n + (outstanding + 1) * MAXOPBLOCKS > LOGSIZE);
      if admitted {
        outstanding := outstanding + 1;
      }
    }

    /** end_op(): the last operation to end commits the transaction of all of them. */
    method EndOp() returns (panic: bool)
      requires Valid() && Clean(disk, a) && outstanding > 0
      modifies this
      ensures panic <==> old(committing)
      ensures outstanding == old(outstanding) - 1 && block == old(block)
      ensures !panic ==> Valid() && Clean(disk, a) && !committing && SameView(old(disk), old(cache), disk, cache, a)
      ensures !panic && outstanding > 0 ==>
        n == old(n) && trace == old(trace) && disk == old(disk) && cache == old(cache)
      ensures !panic && outstanding == 0 ==> n == 0 && OnlyStray(old(disk), old(cache), disk, cache, old(block[..n]))
      ensures var ws := TxnWrites(a, old(disk), old(cache), old(block[..n]));
        !panic && outstanding == 0 ==> trace == old(trace) + ws && disk == Apply(old(disk), ws)
    {
      outstanding := outstanding - 1;
      panic := committing;
      if panic {
        return;
      }
      if outstanding == 0 {
        committing := true;
        Commit();
        committing := false;
      } else {
        SameViewRefl(disk, cache, a);
      }
    }
  }

  /** The first n blocks of the log. */
  ghost function InLog(d: Disk, a: Area, n: nat): (vals: seq<Block>)
    requires n < a.size && forall b :: a.Has(b) ==> b in d
    ensures |vals| == n
  {
    seq(n, i requires 0 <= i < n => assert a.Has(a.start + 1 + i); d[a.start + 1 + i])
  }

  lemma BlocksFit(d: Disk, a: Area, bs: seq<nat>)
    requires BlocksOk(d, a, bs)
    ensures |bs| < a.size && |bs| <= LOGSIZE
  {
  }

  lemma BlocksAt(d: Disk, a: Area, bs: seq<nat>, i: nat)
    requires BlocksOk(d, a, bs) && i < |bs|
    ensures bs[i] in d && !a.Has(bs[i])
  {
  }

  lemma InstallLength(bs: seq<nat>, vals: seq<Block>)
    requires |bs| == |vals|
    ensures |InstallWrites(bs, vals)| == |bs|
  {
  }

  lemma InstallAt(d: Disk, a: Area, bs: seq<nat>, i: nat)
    requires i < |bs| < a.size && forall b :: a.Has(b) ==> b in d
    ensures |InstallWrites(bs, InLog(d, a, |bs|))| == |bs| && a.start + i + 1 in d
    ensures InstallWrites(bs, InLog(d, a, |bs|))[i] == Write(bs[i], d[a.start + i + 1])
  {
    assert a.Has(a.start + i + 1);
  }

  lemma SameViewRefl(d: Disk, c: Disk, a: Area)
    ensures SameView(d, c, d, c, a)
  {
  }

  lemma ViewAt(d: Disk, c: Disk, d': Disk, c': Disk, a: Area, b: nat)
    requires SameView(d, c, d', c', a) && b in d && !a.Has(b)
    ensures b in d' && View(d', c', b) == View(d, c, b)
  {
  }

  lemma AreaFacts(d: Disk, a: Area, bs: seq<nat>)
    requires LogOk(d, a) && BlocksOk(d, a, bs)
    ensures a.start in d && d[a.start].Header? && |d[a.start].block| == LOGSIZE && a.start !in bs
    ensures forall b :: a.Has(b) ==> b in d
  {
    assert a.Has(a.start);
  }

  lemma AfterWriteLog(d: Disk, e: Disk, a: Area, bs: seq<nat>, vals: seq<Block>)
    requires LogOk(d, a) && Clean(d, a) && TxnOk(d, a, bs, vals) && e == Apply(d, LogWrites(a, vals))
    ensures LogOk(e, a) && e[a.start] == d[a.start] && BlocksOk(e, a, bs)
  {
    LogEffect(d, a, vals, |vals|, LogWrites(a, vals));
  }

  lemma AfterWriteHead(d: Disk, e: Disk, a: Area, bs: seq<nat>, vals: seq<Block>)
    requires LogOk(d, a) && Clean(d, a) && TxnOk(d, a, bs, vals)
    requires e == Apply(d, LogWrites(a, vals))[a.start := HeadBlock(d[a.start].block, bs)]
    ensures LogOk(e, a) && BlocksOk(e, a, bs) && InLog(e, a, |bs|) == vals
    ensures e[a.start] == HeadBlock(d[a.start].block, bs)
    ensures e == Apply(d, LogWrites(a, vals) + [Write(a.start, HeadBlock(d[a.start].block, bs))])
  {
    AreaFacts(d, a, bs);
    hide LogOk, Apply;
    AtCommit(d, a, bs, vals);
    ApplyOne(d, LogWrites(a, vals), Write(a.start, HeadBlock(d[a.start].block, bs)));
    InLogSaved(e, a);
    BlocksKept(d, e, a, bs);
  }

  lemma ApplyOne(d: Disk, ws: seq<Write>, w: Write)
    ensures Apply(d, ws + [w]) == Apply(d, ws)[w.b := w.v]
  {
    assert (ws + [w])[..|ws|] == ws;
  }

  lemma InLogSaved(e: Disk, a: Area)
    requires LogOk(e, a)
    ensures InLog(e, a, |Logged(e, a)|) == Saved(e, a)
  {
  }

  lemma BlocksKept(d: Disk, e: Disk, a: Area, bs: seq<nat>)
    requires BlocksOk(d, a, bs) && SameHome(e, d, a)
    ensures BlocksOk(e, a, bs)
  {
  }

  lemma AfterInstall(e: Disk, f: Disk, a: Area, bs: seq<nat>, vals: seq<Block>)
    requires LogOk(e, a) && TxnOk(e, a, bs, vals) && f == Apply(e, InstallWrites(bs, vals))
    ensures LogOk(f, a) && f[a.start] == e[a.start]
  {
    InstallEffect(e, a, bs, vals, |bs|, InstallWrites(bs, vals));
    assert a.Has(a.start);
    assert forall b :: a.Has(b) ==> b !in bs;
  }

  lemma CommitChain(d: Disk, e: Disk, f: Disk, g: Disk, a: Area, bs: seq<nat>, vals: seq<Block>)
    requires a.start in d && d[a.start].Header? && |bs| == |vals| <= |d[a.start].block|
    requires e == Apply(d, LogWrites(a, vals) + [Write(a.start, HeadBlock(d[a.start].block, bs))])
    requires f == Apply(e, InstallWrites(bs, vals))
    requires g == f[a.start := HeadBlock(HeadBlock(d[a.start].block, bs).block, [])]
    ensures g == Apply(d, CommitWrites(a, d[a.start].block, bs, vals))
  {
    hide Apply;
    var first := LogWrites(a, vals) + [Write(a.start, HeadBlock(d[a.start].block, bs))];
    ApplyAppend(d, first, InstallWrites(bs, vals));
    ApplyOne(d, first + InstallWrites(bs, vals), Write(a.start, HeadBlock(HeadBlock(d[a.start].block, bs).block, [])));
  }

  lemma AfterCommitWrites(d: Disk, c: Disk, g: Disk, c': Disk, a: Area, bs: seq<nat>, vals: seq<Block>)
    requires LogOk(d, a) && Clean(d, a) && TxnOk(d, a, bs, vals) && vals == Views(d, c, bs)
    requires g == Apply(d, CommitWrites(a, d[a.start].block, bs, vals))
    requires CacheOk(g, c', a) && SameViewBut(d, c, g, c', a, bs) && Settled(g, c', bs)
    ensures LogOk(g, a) && Clean(g, a) && SameView(d, c, g, c', a) && OnlyStray(d, c, g, c', bs)
  {
    hide LogOk, Clean, CommitWrites, Apply, Installed, CacheOk, SameViewBut, Settled, SameView, OnlyStray;
    AreaFacts(d, a, bs);
    var ws := CommitWrites(a, d[a.start].block, bs, vals);
    assert ws[..|ws|] == ws;
    CommitPrefix(d, a, bs, vals, |ws|);
    InstalledViews(d, c, g, c', a, bs, vals);
  }

  lemma InstalledViews(d: Disk, c: Disk, g: Disk, c': Disk, a: Area, bs: seq<nat>, vals: seq<Block>)
    requires TxnOk(d, a, bs, vals) && vals == Views(d, c, bs) && Installed(d, g, a, bs, vals)
    requires CacheOk(g, c', a) && SameViewBut(d, c, g, c', a, bs) && Settled(g, c', bs)
    ensures SameView(d, c, g, c', a) && OnlyStray(d, c, g, c', bs)
  {
    forall b | b in bs
      ensures b in g && b in d && View(g, c', b) == View(d, c, b)
    {
      var i :| 0 <= i < |bs| && bs[i] == b;
      assert g[bs[i]] == vals[i];
    }
  }

  lemma EmptyCache(d: Disk, a: Area)
    ensures CacheOk(d, map[], a)
  {
  }

  lemma InstallNone(d: Disk, c: Disk, a: Area, bs: seq<nat>)
    ensures Settled(d, c, bs[..0]) && SameViewBut(d, c, d, c, a, bs)
  {
  }

  lemma SameViewButTrans(d: Disk, c: Disk, d1: Disk, c1: Disk, d2: Disk, c2: Disk, a: Area, bs: seq<nat>)
    requires SameViewBut(d, c, d1, c1, a, bs) && SameViewBut(d1, c1, d2, c2, a, bs)
    ensures SameViewBut(d, c, d2, c2, a, bs)
  {
  }

  lemma NothingDone(d: Disk, c: Disk, a: Area)
    ensures SameView(d, c, d, c, a) && OnlyStray(d, c, d, c, [])
  {
  }

  /** What bread sees outside the transaction, through the four parts of a commit. */
  lemma AfterCommitViews(d: Disk, c: Disk, e: Disk, c2: Disk, f: Disk, c3: Disk, g: Disk, c4: Disk, a: Area, bs: seq<nat>)
    requires SameView(d, c, e, c2, a) && SameViewBut(e, c2, f, c3, a, bs) && SameView(f, c3, g, c4, a)
    requires Settled(f, c3, bs) && a.start in g && g == f[a.start := g[a.start]] && c4 == c3[a.start := g[a.start]]
    ensures SameViewBut(d, c, g, c4, a, bs) && Settled(g, c4, bs)
  {
  }
}
