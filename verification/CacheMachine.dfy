/** Any number of threads using the buffer cache and the log. A `Claim` is one passage from bget
    to brelse; each step is what happens under bcache.lock or log.lock, or while a thread holds
    the buffer's sleep lock.

    `newest` records what was last stored in each block through a buffer. A holder may release a
    buffer in any state: writei releases one that it has changed and not logged when the user's
    memory faults. */
module CacheMachine {
  import opened BufferCache
  import opened Lists

  /** The device that the log is on. log_write compares block numbers only, so its buffers must be
      of this device. */
  const LOGDEV: nat := 1

  /** Every buffer starts out with this key. */
  const BLANK: (nat, nat) := (0, 0)

  datatype Phase = Waiting | Holding | Leaving
  datatype Claim = Claim(b: nat, key: (nat, nat), phase: Phase)
  type Blocks = map<(nat, nat), Block>

  /** The log in memory. The first `tail` blocks of the header have been installed. */
  datatype Log = Log(lh: seq<nat>, tail: nat, outstanding: nat, committing: bool)

  datatype State = State(c: Cache, claims: map<nat, Claim>, pins: seq<nat>, disk: Blocks, newest: Blocks, log: Log)

  datatype Step =
    | Get(x: nat, b: nat, key: (nat, nat))
    | Lock(x: nat)
    | Fill(x: nat)
    | Modify(x: nat, v: Block)
    | Write(x: nat)
    | Unlock(x: nat)
    | Drop(x: nat)
    | BeginOp
    | LogWrite(x: nat)
    | EndOp
    | Install(x: nat)
    | Clear
    | EndCommit

  function Key(u: Buf): (nat, nat) {
    (u.dev, u.blockno)
  }

  function Less(n: nat): nat {
    if n == 0 then 0 else n - 1
  }

  ghost predicate Init(s: State) {
    && WellFormed(s.c) && |s.pins| == |s.c.bufs| && s.claims == map[] && s.newest == s.disk
    && s.log == Log([], 0, 0, false)
    && (forall b :: 0 <= b < |s.c.bufs| ==> s.c.bufs[b] == Buf(0, 0, false, 0, 0) && s.pins[b] == 0)
  }

  ghost predicate Has(s: State, x: nat, phase: Phase) {
    && WellFormed(s.c) && x in s.claims && s.claims[x].phase == phase && s.claims[x].b < |s.c.bufs|
    && |s.pins| == |s.c.bufs|
  }

  /** Thread x holds a buffer that bread has filled. */
  ghost predicate Reads(s: State, x: nat) {
    Has(s, x, Holding) && s.c.bufs[s.claims[x].b].valid
  }

  function SetBuf(s: State, b: nat, u: Buf): State
    requires b < |s.c.bufs|
  {
    s.(c := s.c.(bufs := s.c.bufs[b := u]))
  }

  function SetPhase(s: State, x: nat, phase: Phase): State
    requires x in s.claims
  {
    s.(claims := s.claims[x := s.claims[x].(phase := phase)])
  }

  /** bpin and bunpin. */
  function SetPins(s: State, b: nat, refcnt: nat, pins: nat): State
    requires b < |s.c.bufs| == |s.pins|
  {
    SetBuf(s, b, s.c.bufs[b].(refcnt := refcnt)).(pins := s.pins[b := pins])
  }

  ghost predicate Next(s: State, l: Step, s': State) {
    match l
    case Get(x, b, key) =>
      && WellFormed(s.c) && x !in s.claims && key in s.disk && b < |s.c.bufs|
      && (if Missing(s.c, key.0, key.1) then Victim(s.c, b) && s'.c == Recycle(s.c, b, key.0, key.1)
          else Hit(s.c, key.0, key.1, b) && s'.c == Ref(s.c, b))
      && s' == s.(c := s'.c, claims := s.claims[x := Claim(b, key, Waiting)])
    case Lock(x) =>
      && Has(s, x, Waiting)
      && (forall y :: y in s.claims && s.claims[y].b == s.claims[x].b ==> s.claims[y].phase != Holding)
      && s' == SetPhase(s, x, Holding)
    case Fill(x) =>
      && Has(s, x, Holding) && !s.c.bufs[s.claims[x].b].valid && s.claims[x].key in s.disk
      && s' == SetBuf(s, s.claims[x].b,
                      s.c.bufs[s.claims[x].b].(valid := true, data := s.disk[s.claims[x].key]))
    case Modify(x, v) =>
      && Reads(s, x)
      && s' == SetBuf(s, s.claims[x].b, s.c.bufs[s.claims[x].b].(data := v))
               .(newest := s.newest[s.claims[x].key := v])
    case Write(x) =>
      && Reads(s, x)
      && s' == s.(disk := s.disk[s.claims[x].key := s.c.bufs[s.claims[x].b].data])
    case Unlock(x) =>
      && Reads(s, x)
      && s' == SetPhase(s, x, Leaving)
    case Drop(x) =>
      && Has(s, x, Leaving)
      && var b := s.claims[x].b;
      && (if Less(s.c.bufs[b].refcnt) == 0 then Moved(s.c.order, s'.c.order, b) else s'.c.order == s.c.order)
      && s' == s.(claims := s.claims - {x}, c := s'.c)
      && s'.c.bufs == s.c.bufs[b := s.c.bufs[b].(refcnt := Less(s.c.bufs[b].refcnt))]
    case BeginOp =>
      && !s.log.committing
      && s' == s.(log := s.log.(outstanding := s.log.outstanding + 1))
    case LogWrite(x) =>
      && Reads(s, x) && s.claims[x].key.0 == LOGDEV && s.log.outstanding > 0
      && var b, n := s.claims[x].b, s.claims[x].key.1;
      s' == if n in s.log.lh then s
            else SetPins(s, b, s.c.bufs[b].refcnt + 1, s.pins[b] + 1).(log := s.log.(lh := s.log.lh + [n]))
    case EndOp =>
      && s.log.outstanding > 0
      && s' == s.(log := s.log.(outstanding := s.log.outstanding - 1, committing := s.log.outstanding == 1))
    case Install(x) =>
      // bwrite and bunpin of install_trans, under the buffer's sleep lock
      && Reads(s, x) && s.log.committing && s.log.tail < |s.log.lh|
      && s.claims[x].key == (LOGDEV, s.log.lh[s.log.tail])
      && var b := s.claims[x].b;
      s' == SetPins(s, b, Less(s.c.bufs[b].refcnt), Less(s.pins[b]))
            .(disk := s.disk[s.claims[x].key := s.c.bufs[b].data], log := s.log.(tail := s.log.tail + 1))
    case Clear =>
      && s.log.committing && s.log.tail == |s.log.lh|
      && s' == s.(log := s.log.(lh := [], tail := 0))
    case EndCommit =>
      && s.log.committing && s.log.lh == []
      && s' == s.(log := s.log.(committing := false))
  }

  // ---------------------------------------------------------------- the invariant

  ghost function On(claims: map<nat, Claim>, b: nat): set<nat> {
    set x | x in claims && claims[x].b == b
  }

  /** refcnt counts the threads that hold, wait for or are leaving the buffer, and its pins. */
  ghost predicate Counts(s: State)
    requires |s.pins| == |s.c.bufs|
  {
    forall b :: 0 <= b < |s.c.bufs| ==> s.c.bufs[b].refcnt == |On(s.claims, b)| + s.pins[b]
  }

  /** One thread at a time holds a buffer, and it stays the buffer that a claim asked for. */
  ghost predicate Claims(s: State) {
    && (forall x :: x in s.claims ==>
          && s.claims[x].b < |s.c.bufs| && s.claims[x].key in s.disk
          && Key(s.c.bufs[s.claims[x].b]) == s.claims[x].key)
    && (forall x, y :: x in s.claims && y in s.claims && x != y && s.claims[x].b == s.claims[y].b ==>
          s.claims[x].phase != Holding || s.claims[y].phase != Holding)
  }

  /** Two buffers share a block only if it is the one that all of them start out with. */
  ghost predicate Unique(bufs: seq<Buf>) {
    forall a, b :: 0 <= a < b < |bufs| && Key(bufs[a]) != BLANK ==> Key(bufs[a]) != Key(bufs[b])
  }

  /** The block is in the log header and not yet installed. */
  predicate Pending(g: Log, key: (nat, nat))
    requires g.tail <= |g.lh|
  {
    key.0 == LOGDEV && key.1 in g.lh[g.tail..]
  }

  ghost predicate LogOk(g: Log) {
    && NoRepeat(g.lh) && g.tail <= |g.lh|
    && (g.committing ==> g.outstanding == 0) && (!g.committing ==> g.tail == 0)
  }

  /** Exactly the buffers of pending blocks are pinned, once each. */
  ghost predicate Pinned(s: State)
    requires |s.pins| == |s.c.bufs| && s.log.tail <= |s.log.lh|
  {
    forall b :: 0 <= b < |s.c.bufs| ==>
      && s.pins[b] == (if Pending(s.log, Key(s.c.bufs[b])) then 1 else 0)
      && (s.pins[b] > 0 ==> s.c.bufs[b].valid)
  }

  ghost predicate Uncached(s: State, key: (nat, nat)) {
    forall b :: 0 <= b < |s.c.bufs| ==> Key(s.c.bufs[b]) != key
  }

  /** Pending blocks are in the cache. */
  ghost predicate Retained(s: State)
    requires s.log.tail <= |s.log.lh|
  {
    forall key :: Uncached(s, key) ==> !Pending(s.log, key)
  }

  ghost predicate Inv(s: State) {
    && WellFormed(s.c) && |s.pins| == |s.c.bufs| && s.newest.Keys == s.disk.Keys
    && Counts(s) && Claims(s) && Unique(s.c.bufs) && LogOk(s.log) && Pinned(s) && Retained(s)
  }

  lemma InitInv(s: State)
    requires Init(s)
    ensures Inv(s)
  {
    forall b | 0 <= b < |s.c.bufs|
      ensures s.c.bufs[b].refcnt == |On(s.claims, b)| + s.pins[b]
    {
      assert On(s.claims, b) == {};
    }
  }

  // ---------------------------------------------------------------- the count

  lemma OnInsert(claims: map<nat, Claim>, x: nat, k: Claim, b: nat)
    requires x !in claims
    ensures |On(claims[x := k], b)| == |On(claims, b)| + if b == k.b then 1 else 0
  {
    assert On(claims[x := k], b) == if b == k.b then On(claims, b) + {x} else On(claims, b);
  }

  lemma OnRemove(claims: map<nat, Claim>, x: nat, b: nat)
    requires x in claims
    ensures |On(claims - {x}, b)| == |On(claims, b)| - if b == claims[x].b then 1 else 0
    ensures b == claims[x].b ==> |On(claims, b)| > 0
  {
    assert On(claims, b) == if b == claims[x].b then On(claims - {x}, b) + {x} else On(claims - {x}, b);
  }

  lemma OnSame(claims: map<nat, Claim>, x: nat, k: Claim, b: nat)
    requires x in claims && claims[x].b == k.b
    ensures On(claims[x := k], b) == On(claims, b)
  {
  }

  lemma NoneOn(claims: map<nat, Claim>, b: nat)
    requires |On(claims, b)| == 0
    ensures forall x :: x in claims ==> claims[x].b != b
  {
    forall x | x in claims
      ensures claims[x].b != b
    {
      assert x !in On(claims, b);
    }
  }

  // ---------------------------------------------------------------- what every step keeps

  lemma MissingUncached(s: State, key: (nat, nat))
    requires WellFormed(s.c) && Missing(s.c, key.0, key.1)
    ensures Uncached(s, key)
  {
    forall b | 0 <= b < |s.c.bufs|
      ensures Key(s.c.bufs[b]) != key
    {
      var x := Everyone(s.c.order, |s.c.bufs|, b);
      assert !Matches(s.c, x, key.0, key.1);
    }
  }

  lemma VictimFree(c: Cache, b: nat)
    requires WellFormed(c) && Victim(c, b)
    ensures b < |c.bufs| && c.bufs[b].refcnt == 0
  {
  }

  lemma HitKey(c: Cache, dev: nat, blockno: nat, b: nat)
    requires WellFormed(c) && Hit(c, dev, blockno, b)
    ensures b < |c.bufs| && Key(c.bufs[b]) == (dev, blockno)
  {
  }

  lemma GetCounts(s: State, x: nat, b: nat, key: (nat, nat), s': State)
    requires Inv(s) && Next(s, Get(x, b, key), s')
    ensures WellFormed(s'.c) && |s'.pins| == |s'.c.bufs| && s'.newest.Keys == s'.disk.Keys && Counts(s')
  {
    hide Claims, Unique, Uncached, Hit, Victim, Missing, LogOk, Pinned, Retained;
    forall a | 0 <= a < |s.c.bufs|
      ensures s'.c.bufs[a].refcnt == |On(s'.claims, a)| + s'.pins[a]
    {
      OnInsert(s.claims, x, Claim(b, key, Waiting), a);
      if Missing(s.c, key.0, key.1) {
        VictimFree(s.c, b);
      }
    }
  }

  /** Nobody holds, waits for or has pinned a buffer that bget recycles. */
  lemma VictimUnclaimed(s: State, b: nat)
    requires Inv(s) && Victim(s.c, b)
    ensures b < |s.c.bufs| && s.pins[b] == 0 && s.c.bufs[b].refcnt == 0
    ensures forall y :: y in s.claims ==> s.claims[y].b != b
  {
    hide Claims, Unique, Uncached, LogOk, Pinned, Retained;
    VictimFree(s.c, b);
    assert |On(s.claims, b)| == 0;
    NoneOn(s.claims, b);
  }

  lemma RecycleKeeps(s: State, x: nat, b: nat, key: (nat, nat), s': State)
    requires Inv(s) && Next(s, Get(x, b, key), s') && Missing(s.c, key.0, key.1)
    ensures Inv(s')
  {
    hide On, Missing, Victim, Hit, Counts, Claims, Unique, Pinned, LogOk, Retained, Uncached, WellFormed;
    GetCounts(s, x, b, key, s');
    MissingUncached(s, key);
    VictimUnclaimed(s, b);
    RecycleRetains(s, b, key, s');
    RecyclePinned(s, b, key, s');
    RecycleClaims(s, x, b, key, s');
  }

  lemma RecycleClaims(s: State, x: nat, b: nat, key: (nat, nat), s': State)
    requires Claims(s) && Unique(s.c.bufs) && Uncached(s, key) && b < |s.c.bufs| && x !in s.claims && key in s.disk
    requires forall y :: y in s.claims ==> s.claims[y].b != b
    requires s'.c == Recycle(s.c, b, key.0, key.1) && s'.claims == s.claims[x := Claim(b, key, Waiting)]
    requires s'.disk == s.disk
    ensures Claims(s') && Unique(s'.c.bufs)
  {
  }

  lemma RecyclePinned(s: State, b: nat, key: (nat, nat), s': State)
    requires LogOk(s.log) && |s.pins| == |s.c.bufs| && Pinned(s) && b < |s.c.bufs| && s.pins[b] == 0
    requires !Pending(s.log, key) && s'.c == Recycle(s.c, b, key.0, key.1) && s'.log == s.log && s'.pins == s.pins
    ensures Pinned(s')
  {
  }

  lemma RecycleRetains(s: State, b: nat, key: (nat, nat), s': State)
    requires LogOk(s.log) && |s.pins| == |s.c.bufs| && Pinned(s) && Retained(s) && Uncached(s, key)
    requires b < |s.c.bufs| && s.pins[b] == 0 && s'.log == s.log
    requires s'.c == Recycle(s.c, b, key.0, key.1)
    ensures !Pending(s.log, key) && Retained(s')
  {
    forall k | Uncached(s', k)
      ensures !Pending(s'.log, k)
    {
      if Key(s.c.bufs[b]) != k {
        forall a | 0 <= a < |s.c.bufs|
          ensures Key(s.c.bufs[a]) != k
        {
          assert a != b ==> s'.c.bufs[a] == s.c.bufs[a];
        }
        assert Uncached(s, k);
      }
    }
  }

  /** The buffers keep their blocks, so the same blocks are uncached. */
  lemma SameKeys(s: State, s': State)
    requires |s'.c.bufs| == |s.c.bufs|
    requires forall b :: 0 <= b < |s.c.bufs| ==> Key(s'.c.bufs[b]) == Key(s.c.bufs[b])
    ensures forall k :: Uncached(s', k) <==> Uncached(s, k)
    ensures Unique(s.c.bufs) ==> Unique(s'.c.bufs)
  {
    forall k
      ensures Uncached(s', k) <==> Uncached(s, k)
    {
      if Uncached(s', k) {
        assert forall b :: 0 <= b < |s.c.bufs| ==> Key(s'.c.bufs[b]) != k;
      }
    }
  }

  /** Nothing changes but references, the contents of valid buffers and disk blocks. */
  ghost predicate Gentle(s: State, s': State) {
    && s'.pins == s.pins && s'.log == s.log && |s'.c.bufs| == |s.c.bufs|
    && (forall b :: 0 <= b < |s.c.bufs| ==>
          Key(s'.c.bufs[b]) == Key(s.c.bufs[b]) && (s.c.bufs[b].valid ==> s'.c.bufs[b].valid))
  }

  lemma GentleKeeps(s: State, s': State)
    requires Inv(s) && Gentle(s, s')
    ensures Unique(s'.c.bufs) && LogOk(s'.log) && Pinned(s') && Retained(s')
  {
    hide Counts, Claims, Unique, LogOk, WellFormed;
    assert LogOk(s.log) && s.log.tail <= |s.log.lh| by { LogBounds(s.log); }
    SameKeys(s, s');
    hide Uncached;
  }

  lemma LogBounds(g: Log)
    requires LogOk(g)
    ensures NoRepeat(g.lh) && g.tail <= |g.lh|
  {
  }

  lemma HitKeeps(s: State, x: nat, b: nat, key: (nat, nat), s': State)
    requires Inv(s) && Next(s, Get(x, b, key), s') && !Missing(s.c, key.0, key.1)
    ensures Inv(s')
  {
    hide On, Missing, Victim, Hit, Counts, Unique, LogOk, Pinned, Retained;
    GetCounts(s, x, b, key, s');
    HitKey(s.c, key.0, key.1, b);
    GentleKeeps(s, s');
  }

  lemma PhaseCounts(s: State, x: nat, s': State, k: Claim)
    requires |s.pins| == |s.c.bufs| && Counts(s) && x in s.claims && s.claims[x].b == k.b
    requires s' == s.(claims := s.claims[x := k])
    ensures Counts(s')
  {
    forall a | 0 <= a < |s.c.bufs|
      ensures s'.c.bufs[a].refcnt == |On(s'.claims, a)| + s'.pins[a]
    {
      OnSame(s.claims, x, k, a);
    }
  }

  lemma PhaseKeeps(s: State, l: Step, s': State)
    requires Inv(s) && Next(s, l, s') && (l.Lock? || l.Unlock?)
    ensures Inv(s')
  {
    hide Counts, Unique, WellFormed, LogOk, Pinned, Retained;
    PhaseCounts(s, l.x, s', s'.claims[l.x]);
    GentleKeeps(s, s');
  }

  lemma CountsStay(s: State, s': State)
    requires |s.pins| == |s.c.bufs| == |s'.c.bufs| && Counts(s) && s'.claims == s.claims && s'.pins == s.pins
    requires forall b :: 0 <= b < |s.c.bufs| ==> s'.c.bufs[b].refcnt == s.c.bufs[b].refcnt
    ensures Counts(s')
  {
  }

  lemma HolderKeeps(s: State, l: Step, s': State)
    requires Inv(s) && Next(s, l, s') && (l.Fill? || l.Modify? || l.Write?)
    ensures Inv(s')
  {
    hide Counts, Unique, LogOk, Pinned, Retained;
    CountsStay(s, s');
    GentleKeeps(s, s');
  }

  lemma MovedOrder(order: seq<nat>, order': seq<nat>, n: nat, b: nat)
    requires Distinct(order, n) && Moved(order, order', b)
    ensures Distinct(order', n) && |order'| == |order|
  {
    var i :| 0 <= i < |order| && order[i] == b && order' == [b] + order[..i] + order[i + 1..];
    assert forall j :: 0 <= j < |order'| ==> order'[j] == order[if j == 0 then i else if j <= i then j - 1 else j];
  }

  lemma DropCounts(s: State, x: nat, s': State)
    requires Inv(s) && Next(s, Drop(x), s')
    ensures WellFormed(s'.c) && |s'.pins| == |s'.c.bufs| && Counts(s')
  {
    hide Claims, Unique, Uncached, Moved, LogOk, Pinned, Retained;
    var b := s.claims[x].b;
    if Less(s.c.bufs[b].refcnt) == 0 {
      MovedOrder(s.c.order, s'.c.order, |s.c.bufs|, b);
    }
    forall a | 0 <= a < |s.c.bufs|
      ensures s'.c.bufs[a].refcnt == |On(s'.claims, a)| + s'.pins[a]
    {
      OnRemove(s.claims, x, a);
    }
  }

  lemma DropKeeps(s: State, x: nat, s': State)
    requires Inv(s) && Next(s, Drop(x), s')
    ensures Inv(s')
  {
    hide Counts, Unique, Moved, LogOk, Pinned, Retained;
    DropCounts(s, x, s');
    GentleKeeps(s, s');
  }

  lemma SameCache(s: State, s': State)
    requires |s.pins| == |s.c.bufs| && Counts(s) && Claims(s) && s' == s.(log := s'.log)
    ensures Counts(s') && Claims(s')
  {
  }

  /** Only the log changes, and the same blocks are pending. */
  lemma LogKeeps(s: State, l: Step, s': State)
    requires Inv(s) && Next(s, l, s') && (l.BeginOp? || l.EndOp? || l.Clear? || l.EndCommit?)
    ensures Inv(s')
  {
    hide WellFormed, Unique, On, Counts, Claims;
    SameCache(s, s');
    SameKeys(s, s');
    hide Uncached;
    assert forall k :: Pending(s'.log, k) == Pending(s.log, k);
  }

  /** Only the buffer that x holds changes its count, and its block becomes or stops being pending. */
  lemma PinCounts(s: State, l: Step, s': State)
    requires Inv(s) && Next(s, l, s') && (l.LogWrite? || l.Install?)
    ensures WellFormed(s'.c) && |s'.pins| == |s'.c.bufs| && Counts(s')
  {
    hide Unique, Uncached, Retained;
    var b := s.claims[l.x].b;
    assert l.Install? ==> Pending(s.log, s.claims[l.x].key) by {
      if l.Install? {
        assert s.log.lh[s.log.tail..][0] == s.claims[l.x].key.1;
      }
    }
    forall a | 0 <= a < |s.c.bufs|
      ensures s'.c.bufs[a].refcnt == |On(s'.claims, a)| + s'.pins[a]
    {
      assert s.c.bufs[a].refcnt == |On(s.claims, a)| + s.pins[a];
    }
  }

  /** A block number that becomes pending, or stops. */
  lemma PendingChange(g: Log, l: Step, g': Log, n: nat)
    requires LogOk(g)
    requires l.LogWrite? ==> !g.committing && n !in g.lh && g' == g.(lh := g.lh + [n])
    requires l.Install? ==> g.tail < |g.lh| && g.committing && n == g.lh[g.tail] && g' == g.(tail := g.tail + 1)
    requires l.LogWrite? || l.Install?
    ensures LogOk(g') && Pending(g', (LOGDEV, n)) == l.LogWrite? && Pending(g, (LOGDEV, n)) == l.Install?
    ensures forall k :: k != (LOGDEV, n) ==> Pending(g', k) == Pending(g, k)
  {
    if l.Install? {
      assert g.lh[g.tail..] == [n] + g'.lh[g'.tail..];
      assert forall i :: 0 <= i < |g'.lh[g'.tail..]| ==> g'.lh[g'.tail..][i] == g.lh[g.tail + 1 + i];
    } else {
      assert g'.lh[g'.tail..] == g.lh[g.tail..] + [n];
    }
  }

  lemma PinPinned(s: State, s': State, b: nat)
    requires |s'.pins| == |s.pins| == |s.c.bufs| == |s'.c.bufs| && b < |s.c.bufs|
    requires s.log.tail <= |s.log.lh| && s'.log.tail <= |s'.log.lh| && Pinned(s) && Retained(s)
    requires Unique(s.c.bufs) && Key(s.c.bufs[b]) != BLANK && s.c.bufs[b].valid
    requires forall a :: 0 <= a < |s.c.bufs| ==> s'.c.bufs[a] == s.c.bufs[a].(refcnt := s'.c.bufs[a].refcnt)
    requires forall a :: 0 <= a < |s.c.bufs| && a != b ==> s'.pins[a] == s.pins[a]
    requires s'.pins[b] == if Pending(s'.log, Key(s.c.bufs[b])) then 1 else 0
    requires forall k :: k != Key(s.c.bufs[b]) ==> Pending(s'.log, k) == Pending(s.log, k)
    ensures Pinned(s') && Retained(s') && Unique(s'.c.bufs)
  {
    hide Pending;
    SameKeys(s, s');
    forall a | 0 <= a < |s.c.bufs|
      ensures s'.pins[a] == (if Pending(s'.log, Key(s'.c.bufs[a])) then 1 else 0)
      ensures s'.pins[a] > 0 ==> s'.c.bufs[a].valid
    {
      assert s.pins[a] == (if Pending(s.log, Key(s.c.bufs[a])) then 1 else 0);
      assert a != b ==> Key(s.c.bufs[a]) != Key(s.c.bufs[b]);
    }
  }

  lemma PinKeeps(s: State, l: Step, s': State)
    requires Inv(s) && Next(s, l, s') && (l.LogWrite? || l.Install?)
    ensures Inv(s')
  {
    hide WellFormed, Counts, On, LogOk, Unique, Retained, Uncached, Pending;
    if s' != s {
      var b, n := s.claims[l.x].b, s.claims[l.x].key.1;
      PinCounts(s, l, s');
      assert !s.log.committing <== l.LogWrite? by {
        if l.LogWrite? {
          Busy(s.log);
        }
      }
      LogBounds(s.log);
      PendingChange(s.log, l, s'.log, n);
      assert Key(s.c.bufs[b]) == (LOGDEV, n);
      assert s.pins[b] == if Pending(s.log, (LOGDEV, n)) then 1 else 0;
      LogBounds(s'.log);
      hide Pinned;
      PinPinned(s, s', b);
    }
  }

  lemma Busy(g: Log)
    requires LogOk(g) && g.outstanding > 0
    ensures !g.committing
  {
  }

  lemma StepKeeps(s: State, l: Step, s': State)
    requires Inv(s) && Next(s, l, s')
    ensures Inv(s')
  {
    hide Inv;
    match l
    case Get(x, b, key) =>
      if Missing(s.c, key.0, key.1) {
        RecycleKeeps(s, x, b, key, s');
      } else {
        HitKeeps(s, x, b, key, s');
      }
    case Lock(_) => PhaseKeeps(s, l, s');
    case Unlock(_) => PhaseKeeps(s, l, s');
    case Fill(_) => HolderKeeps(s, l, s');
    case Modify(_, _) => HolderKeeps(s, l, s');
    case Write(_) => HolderKeeps(s, l, s');
    case Drop(x) => DropKeeps(s, x, s');
    case LogWrite(_) => PinKeeps(s, l, s');
    case Install(_) => PinKeeps(s, l, s');
    case BeginOp => LogKeeps(s, l, s');
    case EndOp => LogKeeps(s, l, s');
    case Clear => LogKeeps(s, l, s');
    case EndCommit => LogKeeps(s, l, s');
  }
}
