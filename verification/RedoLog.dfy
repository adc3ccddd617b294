/** The redo log of log.c: which disk writes a commit and a recovery make, in order, and what
    is left on the disk when they stop half-way. */
module RedoLog {
  import opened Params

  /** A disk block. The log header block holds a count and an array of block numbers. */
  datatype Block = Data(bytes: seq<Byte>) | Header(n: nat, block: seq<nat>)

  type Disk = map<nat, Block>

  datatype Write = Write(b: nat, v: Block)

  /** The log area: the header at `start`, then size - 1 blocks. */
  datatype Area = Area(start: nat, size: nat) {
    predicate Has(b: nat) {
      start <= b < start + size
    }
  }

  /** The disk after the writes ws, each of which is atomic. */
  function Apply(d: Disk, ws: seq<Write>): Disk {
    if ws == [] then d else
    var w := ws[|ws| - 1];
    Apply(d, ws[..|ws| - 1])[w.b := w.v]
  }

  /** write_log: the cached contents of the logged blocks go into the log area. */
  function LogWrites(a: Area, vals: seq<Block>): (ws: seq<Write>) {
    seq(|vals|, i requires 0 <= i < |vals| => Write(a.start + 1 + i, vals[i]))
  }

  /** install_trans: the logged contents go to their home blocks. */
  function InstallWrites(bs: seq<nat>, vals: seq<Block>): (ws: seq<Write>)
    requires |bs| == |vals|
  {
    seq(|bs|, i requires 0 <= i < |bs| => Write(bs[i], vals[i]))
  }

  /** write_head: the first n entries of the header's array are replaced. */
  function HeadBlock(old_block: seq<nat>, bs: seq<nat>): Block
    requires |bs| <= |old_block|
  {
    Header(|bs|, bs + old_block[|bs|..])
  }

  /** All the writes of commit(), in order; the write at index |bs| is the commit point. */
  function CommitWrites(a: Area, array_: seq<nat>, bs: seq<nat>, vals: seq<Block>): seq<Write>
    requires |bs| == |vals| <= |array_|
  {
    LogWrites(a, vals) + [Write(a.start, HeadBlock(array_, bs))] + InstallWrites(bs, vals)
    + [Write(a.start, HeadBlock(HeadBlock(array_, bs).block, []))]
  }

  /** A disk with a well-formed log. */
  ghost predicate LogOk(d: Disk, a: Area) {
    && a.start in d && d[a.start].Header?
    && d[a.start].n < a.size && d[a.start].n <= |d[a.start].block| == LOGSIZE
    && (forall i :: 0 <= i < d[a.start].n ==> d[a.start].block[i] in d && !a.Has(d[a.start].block[i]))
    && (forall i, j :: 0 <= i < j < d[a.start].n ==> d[a.start].block[i] != d[a.start].block[j])
    && (forall b :: a.Has(b) ==> b in d)
  }

  function Logged(d: Disk, a: Area): (bs: seq<nat>)
    requires a.start in d && d[a.start].Header? && d[a.start].n <= |d[a.start].block|
  {
    d[a.start].block[..d[a.start].n]
  }

  ghost function Saved(d: Disk, a: Area): (vals: seq<Block>)
    requires LogOk(d, a)
    ensures |vals| == d[a.start].n
  {
    seq(d[a.start].n, i requires 0 <= i < d[a.start].n => assert a.Has(a.start + 1 + i); d[a.start + 1 + i])
  }

  /** All the writes of recover_from_log(), in order. */
  ghost function RecoverWrites(d: Disk, a: Area): seq<Write>
    requires LogOk(d, a)
  {
    InstallWrites(Logged(d, a), Saved(d, a)) + [Write(a.start, HeadBlock(d[a.start].block, []))]
  }

  /** The disk after a recovery that is not interrupted. */
  ghost function Recovered(d: Disk, a: Area): Disk
    requires LogOk(d, a)
  {
    Apply(d, RecoverWrites(d, a))
  }

  /** The same contents outside the log area. */
  ghost predicate SameHome(d: Disk, e: Disk, a: Area) {
    && (forall b :: !a.Has(b) ==> (b in d <==> b in e))
    && (forall b :: !a.Has(b) && b in d && b in e ==> d[b] == e[b])
  }

  /** A committed transaction that is not in the log any more, or none. */
  predicate Clean(d: Disk, a: Area) {
    a.start in d && d[a.start].Header? && d[a.start].n == 0
  }

  /** A transaction that commit() can be given. */
  ghost predicate TxnOk(d: Disk, a: Area, bs: seq<nat>, vals: seq<Block>) {
    |bs| == |vals| && BlocksOk(d, a, bs)
  }

  /** The block numbers of a transaction: home blocks, each once, that fit in the log. */
  ghost predicate BlocksOk(d: Disk, a: Area, bs: seq<nat>) {
    && |bs| < a.size && |bs| <= LOGSIZE
    && (forall i :: 0 <= i < |bs| ==> bs[i] in d && !a.Has(bs[i]))
    && (forall i, j :: 0 <= i < j < |bs| ==> bs[i] != bs[j])
  }

  // ---------------------------------------------------------------- applying writes

  lemma {:induction false} ApplyAppend(d: Disk, ws: seq<Write>, us: seq<Write>)
    ensures Apply(d, ws + us) == Apply(Apply(d, ws), us)
    decreases |us|
  {
    if us == [] {
      assert ws + us == ws;
    } else {
      var n := |us| - 1;
      assert (ws + us)[..|ws + us| - 1] == ws + us[..n];
      ApplyAppend(d, ws, us[..n]);
    }
  }

  /** A block that no write names keeps its contents. */
  lemma {:induction false} ApplyOther(d: Disk, ws: seq<Write>, b: nat)
    requires forall i :: 0 <= i < |ws| ==> ws[i].b != b
    ensures b in Apply(d, ws) <==> b in d
    ensures b in d ==> Apply(d, ws)[b] == d[b]
    decreases |ws|
  {
    if ws != [] {
      ApplyOther(d, ws[..|ws| - 1], b);
    }
  }

  /** A block that the writes name has the value of the last of them. */
  lemma {:induction false} ApplyLast(d: Disk, ws: seq<Write>, k: nat)
    requires k < |ws| && forall j :: k < j < |ws| ==> ws[j].b != ws[k].b
    ensures ws[k].b in Apply(d, ws) && Apply(d, ws)[ws[k].b] == ws[k].v
    decreases |ws|
  {
    if k < |ws| - 1 {
      ApplyLast(d, ws[..|ws| - 1], k);
    }
  }

  lemma {:induction false} ApplyKeys(d: Disk, ws: seq<Write>, b: nat)
    requires b in d
    ensures b in Apply(d, ws)
    decreases |ws|
  {
    if ws != [] {
      ApplyKeys(d, ws[..|ws| - 1], b);
    }
  }

  // ---------------------------------------------------------------- recovery

  /** e is d with the blocks bs replaced by vals, outside the log area. */
  ghost predicate Installed(d: Disk, e: Disk, a: Area, bs: seq<nat>, vals: seq<Block>)
    requires |bs| == |vals|
  {
    && (forall b :: !a.Has(b) && b !in bs ==> (b in e <==> b in d))
    && (forall b :: !a.Has(b) && b !in bs && b in d && b in e ==> e[b] == d[b])
    && (forall i :: 0 <= i < |bs| ==> bs[i] in e && e[bs[i]] == vals[i])
  }

  lemma InstalledOnce(d: Disk, d': Disk, e: Disk, e': Disk, a: Area, bs: seq<nat>, vals: seq<Block>)
    requires |bs| == |vals| && Installed(d, e, a, bs, vals) && Installed(d', e', a, bs, vals)
    requires forall b :: !a.Has(b) && b !in bs ==> (b in d <==> b in d') && (b in d ==> d[b] == d'[b])
    ensures SameHome(e, e', a)
  {
  }

  /** Installing writes nothing in the log area, and puts every value in its place. */
  lemma InstallEffect(d: Disk, a: Area, bs: seq<nat>, vals: seq<Block>, j: nat, ws: seq<Write>)
    requires TxnOk(d, a, bs, vals) && j <= |bs|
    requires |ws| == j && forall i :: 0 <= i < j ==> ws[i] == Write(bs[i], vals[i])
    ensures var e := Apply(d, ws);
      && (forall b :: b !in bs ==> (b in e <==> b in d) && (b in d ==> e[b] == d[b]))
      && (forall i :: 0 <= i < j ==> bs[i] in e && e[bs[i]] == vals[i])
      && (forall b :: b in d ==> b in e)
  {
    var e := Apply(d, ws);
    forall b | b !in bs
      ensures (b in e <==> b in d) && (b in d ==> e[b] == d[b])
    {
      ApplyOther(d, ws, b);
    }
    forall i | 0 <= i < j
      ensures bs[i] in e && e[bs[i]] == vals[i]
    {
      ApplyLast(d, ws, i);
    }
    forall b | b in d
      ensures b in e
    {
      ApplyKeys(d, ws, b);
    }
  }

  lemma LoggedTxn(d: Disk, a: Area)
    requires LogOk(d, a)
    ensures TxnOk(d, a, Logged(d, a), Saved(d, a))
  {
  }

  /** An uninterrupted recovery installs the logged blocks and clears the log. */
  lemma RecoveredInstalled(d: Disk, a: Area)
    requires LogOk(d, a)
    ensures Installed(d, Recovered(d, a), a, Logged(d, a), Saved(d, a))
    ensures Clean(Recovered(d, a), a)
  {
    var bs, vals := Logged(d, a), Saved(d, a);
    LoggedTxn(d, a);
    InstallEffect(d, a, bs, vals, |bs|, InstallWrites(bs, vals));
    ApplyAppend(d, InstallWrites(bs, vals), [Write(a.start, HeadBlock(d[a.start].block, []))]);
    assert a.Has(a.start);
  }

  /** The header and the saved blocks decide what recovery does. */
  lemma SameLog(d: Disk, e: Disk, a: Area)
    requires LogOk(d, a) && a.start in e && e[a.start] == d[a.start]
    requires forall b :: b in d ==> b in e
    requires forall b :: a.Has(b) ==> b in e && e[b] == d[b]
    ensures LogOk(e, a) && Logged(e, a) == Logged(d, a) && Saved(e, a) == Saved(d, a)
  {
    assert a.Has(a.start);
    assert forall b: nat :: a.start < b <= a.start + d[a.start].n ==> a.Has(b);
  }

  lemma CleanRecovery(d: Disk, a: Area)
    requires LogOk(d, a) && Clean(d, a)
    ensures SameHome(Recovered(d, a), d, a)
  {
    RecoveredInstalled(d, a);
  }

  /** The disk after j of the writes of a recovery: recovering again gives the same home blocks. */
  lemma RecoverPrefix(d: Disk, a: Area, j: nat)
    requires LogOk(d, a) && j <= |RecoverWrites(d, a)|
    ensures var e := Apply(d, RecoverWrites(d, a)[..j]);
      && LogOk(e, a) && SameHome(Recovered(e, a), Recovered(d, a), a)
      && (j == |RecoverWrites(d, a)| ==> Clean(e, a) && SameHome(e, Recovered(d, a), a))
  {
    var bs, vals, ws := Logged(d, a), Saved(d, a), RecoverWrites(d, a);
    var e := Apply(d, ws[..j]);
    LoggedTxn(d, a);
    RecoveredInstalled(d, a);
    if j <= |bs| {
      InstallEffect(d, a, bs, vals, j, ws[..j]);
      assert forall i :: 0 <= i < |bs| ==> !a.Has(bs[i]);
      assert forall b :: a.Has(b) ==> b !in bs;
      assert a.Has(a.start);
      SameLog(d, e, a);
      RecoveredInstalled(e, a);
      InstalledOnce(d, e, Recovered(d, a), Recovered(e, a), a, bs, vals);
    } else {
      assert ws[..j] == ws;
      ClearedOk(d, a);
      CleanRecovery(e, a);
    }
  }

  lemma ClearedOk(d: Disk, a: Area)
    requires LogOk(d, a)
    ensures LogOk(Recovered(d, a), a)
  {
    RecoveredInstalled(d, a);
    var ws := RecoverWrites(d, a);
    ApplyLast(d, ws, |ws| - 1);
    forall b | a.Has(b)
      ensures b in Recovered(d, a)
    {
      ApplyKeys(d, ws, b);
    }
  }

  // ---------------------------------------------------------------- commit

  lemma LogEffect(d: Disk, a: Area, vals: seq<Block>, k: nat, ws: seq<Write>)
    requires k <= |vals| < a.size && |ws| == k && forall i :: 0 <= i < k ==> ws[i] == Write(a.start + 1 + i, vals[i])
    ensures var e := Apply(d, ws);
      && (forall b: nat :: !(a.start < b <= a.start + k) ==> (b in e <==> b in d) && (b in d ==> e[b] == d[b]))
      && (forall b: nat :: a.start < b <= a.start + k ==> b in e && e[b] == vals[b - a.start - 1])
      && (forall b :: b in d ==> b in e)
  {
    var e := Apply(d, ws);
    forall b: nat | !(a.start < b <= a.start + k)
      ensures (b in e <==> b in d) && (b in d ==> e[b] == d[b])
    {
      ApplyOther(d, ws, b);
    }
    forall b: nat | a.start < b <= a.start + k
      ensures b in e && e[b] == vals[b - a.start - 1]
    {
      ApplyLast(d, ws, b - a.start - 1);
    }
    forall b | b in d
      ensures b in e
    {
      ApplyKeys(d, ws, b);
    }
  }

  /** Before the commit point: the old log is untouched, and so is every home block. */
  lemma BeforeCommit(d: Disk, a: Area, bs: seq<nat>, vals: seq<Block>, k: nat)
    requires LogOk(d, a) && Clean(d, a) && TxnOk(d, a, bs, vals) && k <= |bs|
    ensures var e := Apply(d, CommitWrites(a, d[a.start].block, bs, vals)[..k]);
      LogOk(e, a) && SameHome(Recovered(e, a), d, a)
  {
    var ws := CommitWrites(a, d[a.start].block, bs, vals)[..k];
    var e := Apply(d, ws);
    assert forall i :: 0 <= i < k ==> ws[i] == LogWrites(a, vals)[i];
    LogEffect(d, a, vals, k, ws);
    CleanRecovery(e, a);
  }

  /** The disk right after the commit point. */
  lemma AtCommit(d: Disk, a: Area, bs: seq<nat>, vals: seq<Block>)
    requires LogOk(d, a) && Clean(d, a) && TxnOk(d, a, bs, vals)
    ensures var e := Apply(d, LogWrites(a, vals) + [Write(a.start, HeadBlock(d[a.start].block, bs))]);
      && LogOk(e, a) && Logged(e, a) == bs && Saved(e, a) == vals
      && e[a.start] == HeadBlock(d[a.start].block, bs)
      && SameHome(e, d, a)
  {
    var head := HeadBlock(d[a.start].block, bs);
    var e := Apply(d, LogWrites(a, vals) + [Write(a.start, head)]);
    LogEffect(d, a, vals, |vals|, LogWrites(a, vals));
    ApplyAppend(d, LogWrites(a, vals), [Write(a.start, head)]);
    assert e == Apply(d, LogWrites(a, vals))[a.start := head];
    assert a.Has(a.start);
    assert forall b: nat :: a.start < b <= a.start + |bs| ==> a.Has(b);
    assert head.block[..|bs|] == bs;
    assert forall i :: 0 <= i < |bs| ==> head.block[i] == bs[i];
  }

  /** Crash atomicity of commit(): after any number k of its writes, recovery yields the home
      blocks of before the transaction if the header has not been written, and of after the
      whole transaction otherwise. */
  lemma CommitPrefix(d: Disk, a: Area, bs: seq<nat>, vals: seq<Block>, k: nat)
    requires LogOk(d, a) && Clean(d, a) && TxnOk(d, a, bs, vals)
    requires k <= |CommitWrites(a, d[a.start].block, bs, vals)|
    ensures var ws := CommitWrites(a, d[a.start].block, bs, vals);
      var e := Apply(d, ws[..k]);
      && LogOk(e, a)
      && (k <= |bs| ==> SameHome(Recovered(e, a), d, a))
      && (k > |bs| ==> Installed(d, Recovered(e, a), a, bs, vals))
      && (k == |ws| ==> Clean(e, a) && Installed(d, e, a, bs, vals))
  {
    var array_ := d[a.start].block;
    var ws := CommitWrites(a, array_, bs, vals);
    if k <= |bs| {
      BeforeCommit(d, a, bs, vals, k);
    } else {
      var first := LogWrites(a, vals) + [Write(a.start, HeadBlock(array_, bs))];
      var c := Apply(d, first);
      AtCommit(d, a, bs, vals);
      var j := k - |bs| - 1;
      assert ws == first + RecoverWrites(c, a);
      assert ws[..k] == first + RecoverWrites(c, a)[..j];
      ApplyAppend(d, first, RecoverWrites(c, a)[..j]);
      RecoverPrefix(c, a, j);
      RecoveredInstalled(c, a);
      AfterCommit(d, c, Apply(c, RecoverWrites(c, a)[..j]), a, bs, vals);
    }
  }

  lemma AfterCommit(d: Disk, c: Disk, e: Disk, a: Area, bs: seq<nat>, vals: seq<Block>)
    requires LogOk(c, a) && LogOk(e, a) && |bs| == |vals| && SameHome(c, d, a)
    requires forall i :: 0 <= i < |bs| ==> !a.Has(bs[i])
    requires Installed(c, Recovered(c, a), a, bs, vals) && SameHome(Recovered(e, a), Recovered(c, a), a)
    ensures Installed(d, Recovered(e, a), a, bs, vals)
    ensures SameHome(e, Recovered(c, a), a) ==> Installed(d, e, a, bs, vals)
  {
  }
}
