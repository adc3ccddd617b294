/** What reaches the buffers and the disk in runs of Virtio: a request that was submitted for a block
    and a buffer moves exactly those bytes, in the right direction, at the step at which the device
    serves it, and nothing else changes the disk. */
module DiskData {
  import opened Params
  import opened Virtio

  const BLOCKS: nat := 0x8000_0000

  /** Before step i, head h carries the request that was submitted at step k. */
  ghost predicate Carries(es: seq<Event>, k: nat, i: nat, h: nat) {
    k < i <= |es| && es[k].Submit? && es[k].h == h && forall j :: k < j < i ==> es[j] != End(h)
  }

  /** The block that a block number stands for: its sector is a 32-bit product. */
  function Place(blockno: nat): nat {
    blockno % BLOCKS
  }

  ghost function BlockAt(disk: seq<Byte>, n: nat): seq<Byte>
    requires BSIZE * n + BSIZE <= |disk|
  {
    disk[BSIZE * n..BSIZE * n + BSIZE]
  }

  lemma SectorIs(blockno: nat)
    ensures SECTOR * SectorOf(blockno) == BSIZE * Place(blockno)
    ensures blockno < BLOCKS <==> Place(blockno) == blockno
  {
    var q, r := blockno / BLOCKS, blockno % BLOCKS;
    assert blockno * 2 == q * 0x1_0000_0000 + r * 2;
    Remainder(q, r * 2);
  }

  lemma Remainder(q: nat, r: nat)
    requires r < 0x1_0000_0000
    ensures (q * 0x1_0000_0000 + r) % 0x1_0000_0000 == r
  {
  }

  // ---------------------------------------------------------------- a chain while its request is under way

  lemma RunStep(ss: seq<State>, es: seq<Event>, i: nat)
    requires IsRun(ss, es) && i < |es|
    ensures Inv(ss[i]) && Inv(ss[i + 1]) && Enabled(ss[i], es[i]) && ss[i + 1] == Do(ss[i], es[i])
  {
    hide Inv, Init, Do, Enabled;
    RunInv(ss, es, i);
    RunInv(ss, es, i + 1);
  }

  ghost predicate SameRequest(c: Chain, d: Chain) {
    d == c.(phase := d.phase)
  }

  lemma NotFree(s: State, h: nat)
    requires Inv(s) && h in s.chains
    ensures h < NUM && !s.free[h]
  {
    hide RingOk, Apart, AllOwned, BusyOk, Different;
    assert ChainOk(s, h, s.chains[h]);
  }

  lemma StepChain(s: State, e: Event, h: nat)
    requires Inv(s) && Enabled(s, e) && h in s.chains && e != End(h)
    ensures h in Do(s, e).chains && SameRequest(s.chains[h], Do(s, e).chains[h])
  {
    hide Inv;
    NotFree(s, h);
    if e.Complete? {
      ServeChains(s, e.h);
    }
  }

  lemma ServeChains(s: State, h: nat)
    requires |s.desc| == |s.ops| == |s.info| == NUM && h < NUM
    ensures Serve(s, h) == s.(bufs := Serve(s, h).bufs, disk := Serve(s, h).disk, info := Serve(s, h).info)
  {
  }

  ghost predicate Asked(c: Chain, e: Event)
    requires e.Submit?
  {
    c.second == e.m && c.third == e.t && c.buf == e.buf && c.write == e.write && c.sector == SectorOf(e.blockno)
  }

  lemma {:induction false} InFlight(ss: seq<State>, es: seq<Event>, k: nat, i: nat, h: nat)
    requires IsRun(ss, es) && Carries(es, k, i, h)
    ensures h in ss[i].chains && Asked(ss[i].chains[h], es[k])
    decreases i
  {
    hide Inv, Init, Do, Enabled;
    RunStep(ss, es, i - 1);
    if k < i - 1 {
      InFlight(ss, es, k, i - 1, h);
      StepChain(ss[i - 1], es[i - 1], h);
    } else {
      FirstChain(ss[k], es[k]);
    }
  }

  lemma FirstChain(s: State, e: Event)
    requires Enabled(s, e) && e.Submit?
    ensures var s' := Do(s, e); e.h in s'.chains && Asked(s'.chains[e.h], e) && s'.chains[e.h].phase == Queued
  {
    hide SectorOf;
  }

  /** Every chain is that of a request. */
  lemma {:induction false} Submission(ss: seq<State>, es: seq<Event>, i: nat, h: nat) returns (k: nat)
    requires IsRun(ss, es) && i < |ss| && h in ss[i].chains
    ensures Carries(es, k, i, h)
    decreases i
  {
    hide Inv, Do, Enabled;
    if i == 0 {
      assert false;
    }
    RunStep(ss, es, i - 1);
    if h in ss[i - 1].chains {
      k := Submission(ss, es, i - 1, h);
      NotEnded(ss[i - 1], es[i - 1], h);
    } else {
      NewHead(ss[i - 1], es[i - 1], h);
      k := i - 1;
    }
  }

  lemma NewHead(s: State, e: Event, h: nat)
    requires Enabled(s, e) && h !in s.chains && h in Do(s, e).chains
    ensures e.Submit? && e.h == h
  {
    if e.Complete? {
      ServeChains(s, e.h);
    }
  }

  lemma NotEnded(s: State, e: Event, h: nat)
    requires Enabled(s, e) && h in Do(s, e).chains
    ensures e != End(h)
  {
  }

  /** A head carries one request at a time. */
  lemma OneRequest(ss: seq<State>, es: seq<Event>, k: nat, k': nat, i: nat, h: nat)
    requires IsRun(ss, es) && Carries(es, k, i, h) && Carries(es, k', i, h)
    ensures k == k'
  {
    hide Inv, Init, Do;
    var a, b := if k < k' then k else k', if k < k' then k' else k;
    if a < b {
      InFlight(ss, es, a, b, h);
      RunStep(ss, es, b);
      NotFree(ss[b], h);
    }
  }

  // ---------------------------------------------------------------- when the device serves it

  ghost function Rank(p: Phase): nat {
    match p
    case Queued => 0
    case Taken => 1
    case Completed => 2
    case Finished => 3
  }

  /** A chain moves on, past Taken only when the device serves it, and it is served from there. */
  lemma StepPhase(s: State, e: Event, h: nat)
    requires Inv(s) && Enabled(s, e) && h in s.chains && e != End(h) && h in Do(s, e).chains
    ensures var p, p' := Rank(s.chains[h].phase), Rank(Do(s, e).chains[h].phase);
      p <= p' && (e != Complete(h) && p < 2 ==> p' < 2) && (e == Complete(h) ==> p == 1 && p' == 2)
  {
    hide Inv;
    NotFree(s, h);
    match e
    case Take =>
      QueuedIs(s);
      DeviceTakesKeeps(s);
      TakenHead(s);
    case Complete(k) => ServeChains(s, k);
    case Handle => Unseen(s);
    case _ =>
  }

  lemma TakenHead(s: State)
    requires Inv(s) && s.taken < |s.sub|
    ensures s.avail[s.taken % NUM] == s.sub[s.taken]
  {
    hide Apart, AllOwned, BusyOk, Different, ChainOk;
    RingPopped(s.avail, s.sub, s.taken, s.chains, Queued, Taken);
  }

  lemma {:induction false} Unserved(ss: seq<State>, es: seq<Event>, k: nat, i: nat, h: nat)
    requires IsRun(ss, es) && Carries(es, k, i, h) && forall j :: k < j < i ==> es[j] != Complete(h)
    ensures h in ss[i].chains && Rank(ss[i].chains[h].phase) < 2
    decreases i
  {
    hide Inv, Init, Do, Enabled;
    InFlight(ss, es, k, i, h);
    RunStep(ss, es, i - 1);
    if k < i - 1 {
      Unserved(ss, es, k, i - 1, h);
      StepPhase(ss[i - 1], es[i - 1], h);
    } else {
      FirstChain(ss[k], es[k]);
    }
  }

  lemma {:induction false} ServedStays(ss: seq<State>, es: seq<Event>, k: nat, c: nat, i: nat, h: nat)
    requires IsRun(ss, es) && Carries(es, k, i, h) && k < c < i && es[c] == Complete(h)
    ensures h in ss[i].chains && Rank(ss[i].chains[h].phase) >= 2
    decreases i
  {
    hide Inv, Init, Do, Enabled;
    InFlight(ss, es, k, i - 1, h);
    InFlight(ss, es, k, i, h);
    RunStep(ss, es, i - 1);
    if c < i - 1 {
      ServedStays(ss, es, k, c, i - 1, h);
    }
    StepPhase(ss[i - 1], es[i - 1], h);
  }

  /** A request that has ended was served, once. */
  lemma Served(ss: seq<State>, es: seq<Event>, k: nat, n: nat, h: nat) returns (c: nat)
    requires IsRun(ss, es) && Carries(es, k, n, h) && n < |es| && es[n] == End(h)
    ensures k < c < n && es[c] == Complete(h) && forall j :: k < j < n && es[j] == Complete(h) ==> j == c
  {
    hide Inv, Init, Do;
    RunStep(ss, es, n);
    ReallyFinished(ss[n], h);
    if forall j :: k < j < n ==> es[j] != Complete(h) {
      Unserved(ss, es, k, n, h);
      assert false;
    }
    c :| k < c < n && es[c] == Complete(h);
    forall j | k < j < n && es[j] == Complete(h)
      ensures j == c
    {
      ServedOnce(ss, es, k, c, j, h);
    }
  }

  lemma ServedOnce(ss: seq<State>, es: seq<Event>, k: nat, c: nat, c': nat, h: nat)
    requires IsRun(ss, es) && k < c < |es| && k < c' < |es| && es[c] == es[c'] == Complete(h)
    requires Carries(es, k, if c < c' then c' else c, h)
    ensures c == c'
  {
    hide Inv, Init, Do;
    var a, b := if c < c' then c else c', if c < c' then c' else c;
    if a < b {
      RunStep(ss, es, b);
      ServedStays(ss, es, k, a, b, h);
    }
  }

  // ---------------------------------------------------------------- what it moves

  /** What the disk is after a write of block n. */
  ghost predicate OnlyBlock(before: seq<Byte>, after: seq<Byte>, n: nat) {
    |after| == |before| && forall x :: 0 <= x < |before| && x / BSIZE != n ==> after[x] == before[x]
  }

  lemma SpliceIs(disk: seq<Byte>, n: nat, data: seq<Byte>)
    requires BSIZE * n + BSIZE <= |disk| && |data| == BSIZE
    ensures var after := disk[..BSIZE * n] + data + disk[BSIZE * n + BSIZE..];
      OnlyBlock(disk, after, n) && BlockAt(after, n) == data
  {
  }

  /** The step at which the device serves a request: a read puts the block into the buffer and
      leaves the disk alone, a write puts the buffer into the block and leaves the buffers alone. */
  lemma Transferred(ss: seq<State>, es: seq<Event>, k: nat, c: nat, h: nat)
    requires IsRun(ss, es) && Carries(es, k, c, h) && c < |es| && es[c] == Complete(h)
    ensures var n, b := Place(es[k].blockno), es[k].buf;
      && BSIZE * n + BSIZE <= |ss[c].disk| == |ss[c + 1].disk| && b in ss[c].bufs
      && (es[k].write ==>
            && ss[c + 1].bufs == ss[c].bufs && BlockAt(ss[c + 1].disk, n) == ss[c].bufs[b]
            && OnlyBlock(ss[c].disk, ss[c + 1].disk, n))
      && (!es[k].write ==>
            ss[c + 1].bufs == ss[c].bufs[b := BlockAt(ss[c].disk, n)] && ss[c + 1].disk == ss[c].disk)
  {
    hide Inv, Init, Serve;
    var s, n := ss[c], Place(es[k].blockno);
    RunStep(ss, es, c);
    InFlight(ss, es, k, c, h);
    SectorIs(es[k].blockno);
    ServedChain(s, h);
    ServeIs(s, h);
    SpliceIs(s.disk, n, s.bufs[es[k].buf]);
  }

  lemma ServedChain(s: State, h: nat)
    requires Inv(s) && h in s.chains
    ensures |s.free| == |s.desc| == |s.ops| == |s.info| == NUM && WholeBufs(s.bufs) && ChainOk(s, h, s.chains[h])
    ensures var c := s.chains[h]; c.buf in s.bufs && |s.bufs[c.buf]| == BSIZE && SECTOR * c.sector + BSIZE <= |s.disk|
  {
    hide RingOk, Apart, AllOwned, BusyOk, Different;
    assert ChainOk(s, h, s.chains[h]);
  }

  /** Step i writes block n of the disk. */
  ghost predicate Writes(es: seq<Event>, i: nat, n: nat) {
    i < |es| && es[i].Complete? && exists k: nat :: Carries(es, k, i, es[i].h) && es[k].write && Place(es[k].blockno) == n
  }

  /** Step i reads a block into buffer b. */
  ghost predicate Reads(es: seq<Event>, i: nat, b: nat) {
    i < |es| && es[i].Complete? && exists k: nat :: Carries(es, k, i, es[i].h) && !es[k].write && es[k].buf == b
  }

  lemma OtherSteps(s: State, e: Event)
    requires Enabled(s, e) && !e.Complete?
    ensures Do(s, e).disk == s.disk && Do(s, e).bufs == if e.Fill? then s.bufs[e.buf := e.data] else s.bufs
  {
  }

  /** Every step: a byte of the disk changes only when a write of its block is served. */
  lemma DiskFrame(ss: seq<State>, es: seq<Event>, i: nat, n: nat)
    requires IsRun(ss, es) && i < |es| && !Writes(es, i, n)
    ensures |ss[i + 1].disk| == |ss[i].disk|
    ensures forall x :: 0 <= x < |ss[i].disk| && x / BSIZE == n ==> ss[i + 1].disk[x] == ss[i].disk[x]
  {
    hide Inv, Init;
    RunStep(ss, es, i);
    if es[i].Complete? {
      var k := Submission(ss, es, i, es[i].h);
      Transferred(ss, es, k, i, es[i].h);
    } else {
      OtherSteps(ss[i], es[i]);
    }
  }

  /** Every step: a buffer changes only when its holder fills it, or a read into it is served. */
  lemma BufferFrame(ss: seq<State>, es: seq<Event>, i: nat, b: nat)
    requires IsRun(ss, es) && i < |es| && b in ss[i].bufs
    requires !Reads(es, i, b) && !(es[i].Fill? && es[i].buf == b)
    ensures b in ss[i + 1].bufs && ss[i + 1].bufs[b] == ss[i].bufs[b]
  {
    hide Inv, Init;
    RunStep(ss, es, i);
    if es[i].Complete? {
      var k := Submission(ss, es, i, es[i].h);
      Transferred(ss, es, k, i, es[i].h);
    } else {
      OtherSteps(ss[i], es[i]);
    }
  }

  /** While a request is under way, its buffer changes only when that request is served. */
  lemma Held(ss: seq<State>, es: seq<Event>, k: nat, i: nat, h: nat)
    requires IsRun(ss, es) && Carries(es, k, i, h) && i < |es| && es[i] != Complete(h)
    ensures es[k].buf in ss[i].bufs && es[k].buf in ss[i + 1].bufs
    ensures ss[i + 1].bufs[es[k].buf] == ss[i].bufs[es[k].buf]
  {
    hide Inv, Init, Do;
    var b := es[k].buf;
    InFlight(ss, es, k, i, h);
    RunStep(ss, es, i);
    ServedChain(ss[i], h);
    if Reads(es, i, b) {
      var k': nat :| Carries(es, k', i, es[i].h) && !es[k'].write && es[k'].buf == b;
      InFlight(ss, es, k', i, es[i].h);
      Buffers(ss[i], h, es[i].h);
    }
    BufferFrame(ss, es, i, b);
  }

  lemma Buffers(s: State, h: nat, h': nat)
    requires Inv(s) && h in s.chains && h' in s.chains && s.chains[h].buf == s.chains[h'].buf
    ensures h == h'
  {
    hide RingOk, Apart, AllOwned, BusyOk, ChainOk;
  }

  lemma {:induction false} HeldAll(ss: seq<State>, es: seq<Event>, k: nat, i: nat, j: nat, h: nat)
    requires IsRun(ss, es) && k < i <= j && Carries(es, k, j, h) && forall x :: i <= x < j ==> es[x] != Complete(h)
    ensures es[k].buf in ss[i].bufs && es[k].buf in ss[j].bufs && ss[j].bufs[es[k].buf] == ss[i].bufs[es[k].buf]
    decreases j
  {
    hide Inv, Init, Do, Enabled;
    if i < j {
      HeldAll(ss, es, k, i, j - 1, h);
      Held(ss, es, k, j - 1, h);
    } else {
      InFlight(ss, es, k, i, h);
      RunInv(ss, es, i);
      ServedChain(ss[i], h);
    }
  }

  /** When virtio_disk_rw returns, its request was served once, at some step c. After a read the
      buffer holds what the block had then. A write has put into the block, then, what the
      buffer had when virtio_disk_rw was called, and has still. */
  lemma RequestDone(ss: seq<State>, es: seq<Event>, k: nat, n: nat, h: nat) returns (c: nat)
    requires IsRun(ss, es) && Carries(es, k, n, h) && n < |es| && es[n] == End(h)
    ensures k < c < n && es[c] == Complete(h) && forall j :: k < j < n && es[j] == Complete(h) ==> j == c
    ensures var p, b := Place(es[k].blockno), es[k].buf;
      && BSIZE * p + BSIZE <= |ss[c].disk| == |ss[c + 1].disk| && b in ss[k].bufs && b in ss[n + 1].bufs
      && (es[k].write ==> BlockAt(ss[c + 1].disk, p) == ss[k].bufs[b] == ss[n + 1].bufs[b])
      && (!es[k].write ==> ss[n + 1].bufs[b] == BlockAt(ss[c].disk, p))
  {
    hide Inv, Init, Do, Enabled;
    c := Served(ss, es, k, n, h);
    var b := es[k].buf;
    HeldAll(ss, es, k, k + 1, c, h);
    Transferred(ss, es, k, c, h);
    HeldAll(ss, es, k, c + 1, n, h);
    RunStep(ss, es, k);
    OtherSteps(ss[k], es[k]);
    RunStep(ss, es, n);
    OtherSteps(ss[n], es[n]);
  }

  // ---------------------------------------------------------------- reads see writes

  lemma {:induction false} BlockStays(ss: seq<State>, es: seq<Event>, i: nat, j: nat, n: nat)
    requires IsRun(ss, es) && i <= j < |ss| && BSIZE * n + BSIZE <= |ss[i].disk|
    requires forall x :: i <= x < j ==> !Writes(es, x, n)
    ensures |ss[j].disk| == |ss[i].disk| && BlockAt(ss[j].disk, n) == BlockAt(ss[i].disk, n)
    decreases j
  {
    hide Inv, Init, Do, Enabled, Writes;
    if i < j {
      BlockStays(ss, es, i, j - 1, n);
      DiskFrame(ss, es, j - 1, n);
    }
  }

  /** A read yields what the last write of the block that was served before it had in its buffer when
      it was submitted. */
  lemma ReadSeesWrite(ss: seq<State>, es: seq<Event>, k: nat, c: nat, k': nat, c': nat)
    requires IsRun(ss, es) && c < c' < |es| && es[c].Complete? && es[c'].Complete?
    requires Carries(es, k, c, es[c].h) && es[k].write && Carries(es, k', c', es[c'].h) && !es[k'].write
    requires Place(es[k].blockno) == Place(es[k'].blockno)
    requires forall x :: c < x < c' ==> !Writes(es, x, Place(es[k].blockno))
    ensures es[k].buf in ss[k].bufs && es[k'].buf in ss[c' + 1].bufs
    ensures ss[c' + 1].bufs[es[k'].buf] == ss[k].bufs[es[k].buf]
  {
    hide Inv, Init, Do, Enabled, Writes;
    var h := es[c].h;
    ServedFirst(ss, es, k, c, h);
    HeldAll(ss, es, k, k + 1, c, h);
    RunStep(ss, es, k);
    OtherSteps(ss[k], es[k]);
    Transferred(ss, es, k, c, h);
    BlockStays(ss, es, c + 1, c', Place(es[k].blockno));
    Transferred(ss, es, k', c', es[c'].h);
  }

  lemma ServedFirst(ss: seq<State>, es: seq<Event>, k: nat, c: nat, h: nat)
    requires IsRun(ss, es) && Carries(es, k, c, h) && c < |es| && es[c] == Complete(h)
    ensures forall j :: k < j < c ==> es[j] != Complete(h)
  {
    hide Inv, Init, Do, Enabled;
    forall j | k < j < c
      ensures es[j] != Complete(h)
    {
      if es[j] == Complete(h) {
        ServedOnce(ss, es, k, j, c, h);
      }
    }
  }

  /** A block that was not written before has what the disk had at the start. */
  lemma ReadSeesStart(ss: seq<State>, es: seq<Event>, k: nat, c: nat, h: nat)
    requires IsRun(ss, es) && c < |es| && es[c] == Complete(h) && Carries(es, k, c, h) && !es[k].write
    requires forall x :: 0 <= x < c ==> !Writes(es, x, Place(es[k].blockno))
    ensures var n, b := Place(es[k].blockno), es[k].buf;
      BSIZE * n + BSIZE <= |ss[0].disk| && b in ss[c + 1].bufs && ss[c + 1].bufs[b] == BlockAt(ss[0].disk, n)
  {
    hide Inv, Init, Do, Enabled, Writes;
    Transferred(ss, es, k, c, h);
    DiskSize(ss, es, c);
    BlockStays(ss, es, 0, c, Place(es[k].blockno));
  }

  lemma {:induction false} DiskSize(ss: seq<State>, es: seq<Event>, i: nat)
    requires IsRun(ss, es) && i < |ss|
    ensures |ss[i].disk| == |ss[0].disk|
  {
    hide Inv, Init, Do, Enabled;
    if i > 0 {
      DiskSize(ss, es, i - 1);
      SizeStep(ss, es, i - 1);
    }
  }

  lemma SizeStep(ss: seq<State>, es: seq<Event>, i: nat)
    requires IsRun(ss, es) && i < |es|
    ensures |ss[i + 1].disk| == |ss[i].disk|
  {
    hide Inv, Init;
    RunStep(ss, es, i);
    if es[i].Complete? {
      var k := Submission(ss, es, i, es[i].h);
      Transferred(ss, es, k, i, es[i].h);
    } else {
      OtherSteps(ss[i], es[i]);
    }
  }
}
