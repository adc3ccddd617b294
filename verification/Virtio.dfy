/** The driver side of the split virtqueue of virtio_disk.c, and the device as far as the driver
    relies on it (sections 2.6 and 5.2 of VIRTIO 1.1): it takes the chain heads that the driver
    makes available, carries out what the descriptors of the chain say, and puts each head into the
    used ring once.

    Ring indices are 16-bit and wrap around; `sub` and `comp` are the true histories of the two
    rings. */
module Virtio {
  import Lists
  import opened Params

  const NUM: nat := 8
  const WRAP: nat := 0x1_0000
  const SECTOR: nat := 512

  /** VIRTIO_BLK_T_IN and VIRTIO_BLK_T_OUT. */
  const IN: nat := 0
  const OUT: nat := 1

  /** What an address can be the address of: an entry of disk.ops, the data of a buffer, or a status
      byte of disk.info. */
  datatype Addr = Null | Header(i: nat) | Data(buf: nat) | Status(i: nat)

  datatype Desc = Desc(addr: Addr, len: nat, write: bool, hasNext: bool, next: nat)

  /** disk.ops: type and sector of a request. */
  datatype Req = Req(kind: nat, sector: nat)

  /** disk.info: the buffer of the chain, -1 for none, and the status byte. */
  datatype Info = Info(buf: int, status: nat)

  /** Where the request of a chain is: in the avail ring, with the device, in the used ring, or seen
      by the interrupt handler. */
  datatype Phase = Queued | Taken | Completed | Finished

  /** A chain of three descriptors: its head is its key in `chains`. */
  datatype Chain = Chain(second: nat, third: nat, buf: nat, write: bool, sector: nat, req: nat, phase: Phase)

  /** `bufs` holds the data of the buffers, and `disk` the bytes that the device stores. */
  datatype State = State(
    free: seq<bool>, desc: seq<Desc>, ops: seq<Req>, info: seq<Info>, busy: set<nat>,
    bufs: map<nat, seq<Byte>>, disk: seq<Byte>,
    avail: seq<nat>, availIdx: nat, used: seq<nat>, usedIdx: nat, usedSeen: nat,
    chains: map<nat, Chain>, sub: seq<nat>, taken: nat, comp: seq<nat>, seen: nat,
    finished: set<nat>, nextReq: nat)

  predicate Has(h: nat, c: Chain, i: nat) {
    i == h || i == c.second || i == c.third
  }

  /** A chain as virtio_disk_rw formats it. */
  ghost predicate ChainOk(s: State, h: nat, c: Chain)
    requires |s.free| == |s.desc| == |s.ops| == |s.info| == NUM
  {
    && h < NUM && c.second < NUM && c.third < NUM && h != c.second && h != c.third && c.second != c.third
    && !s.free[h] && !s.free[c.second] && !s.free[c.third]
    && s.desc[h] == HeadDesc(h, c.second) && s.desc[c.second] == DataDesc(c.buf, c.write, c.third)
    && s.desc[c.third] == StatusDesc(h) && s.ops[h] == Header16(c.write, c.sector)
    && c.buf in s.bufs && SECTOR * c.sector + BSIZE <= |s.disk|
    && s.info[h].buf == c.buf && (c.phase == Completed ==> s.info[h].status == 0)
    && c.req < s.nextReq && (c.phase == Finished <==> c.req in s.finished)
    && (c.phase != Finished ==> c.buf in s.busy)
  }

  /** No descriptor is in two chains. */
  ghost predicate Apart(chains: map<nat, Chain>) {
    forall h, k, i :: h in chains && k in chains && Has(h, chains[h], i) && Has(k, chains[k], i) ==> h == k
  }

  /** A descriptor that is not free is in a chain. */
  ghost predicate AllOwned(free: seq<bool>, chains: map<nat, Chain>) {
    forall i :: 0 <= i < |free| && !free[i] ==> Owned(chains, i)
  }

  /** Chains have different requests and buffers. */
  ghost predicate Different(chains: map<nat, Chain>) {
    forall h, k :: h in chains && k in chains && h != k ==>
      chains[h].req != chains[k].req && chains[h].buf != chains[k].buf
  }

  ghost predicate BusyOk(busy: set<nat>, chains: map<nat, Chain>) {
    forall b :: b in busy ==> Awaited(chains, b)
  }

  ghost predicate Awaited(chains: map<nat, Chain>, b: nat) {
    exists h :: h in chains && chains[h].buf == b && chains[h].phase != Finished
  }

  ghost predicate Owned(chains: map<nat, Chain>, i: nat) {
    exists h :: h in chains && Has(h, chains[h], i)
  }

  /** A ring holds the entries from..|all| of its history, in their slots, and they are the heads of
      the chains in the given phase, each once. */
  ghost predicate RingOk(ring: seq<nat>, all: seq<nat>, from: nat, chains: map<nat, Chain>, phase: Phase) {
    && |ring| == NUM && from <= |all|
    && (forall k :: from <= k < |all| ==> ring[k % NUM] == all[k] && all[k] in chains && chains[all[k]].phase == phase)
    && (forall j, k :: from <= j < k < |all| ==> all[j] != all[k])
    && (forall h :: h in chains && chains[h].phase == phase ==> exists k :: from <= k < |all| && all[k] == h)
  }

  ghost predicate Inv(s: State) {
    && |s.free| == |s.desc| == |s.ops| == |s.info| == NUM && WholeBufs(s.bufs)
    && (forall h :: h in s.chains ==> ChainOk(s, h, s.chains[h]))
    && Apart(s.chains) && AllOwned(s.free, s.chains) && Different(s.chains) && BusyOk(s.busy, s.chains)
    && |s.avail| == |s.used| == NUM
    && RingOk(s.avail, s.sub, s.taken, s.chains, Queued) && s.availIdx == |s.sub| % WRAP
    && RingOk(s.used, s.comp, s.seen, s.chains, Completed) && s.usedIdx == |s.comp| % WRAP && s.usedSeen == s.seen % WRAP
    && (forall r :: r in s.finished ==> r < s.nextReq)
  }

  ghost predicate WholeBufs(bufs: map<nat, seq<Byte>>) {
    forall b :: b in bufs ==> |bufs[b]| == BSIZE
  }

  ghost predicate Init(s: State) {
    && s.free == seq(NUM, _ => true) && |s.desc| == |s.ops| == |s.info| == |s.avail| == |s.used| == NUM && s.busy == {}
    && WholeBufs(s.bufs)
    && s.availIdx == s.usedIdx == s.usedSeen == 0 && s.chains == map[]
    && s.sub == [] && s.comp == [] && s.taken == s.seen == 0
    && s.finished == {} && s.nextReq == 0
  }

  lemma InitInv(s: State)
    requires Init(s)
    ensures Inv(s)
  {
  }

  // ---------------------------------------------------------------- room in the rings

  /** A head that is not in the ring yet finds a slot that no unread entry uses. */
  lemma SlotFree(all: seq<nat>, from: nat, h: nat)
    requires from <= |all| && h < NUM && (forall k :: from <= k < |all| ==> all[k] < NUM && all[k] != h)
    requires forall j, k :: from <= j < k < |all| ==> all[j] != all[k]
    ensures |all| - from < NUM && forall k :: from <= k < |all| ==> k % NUM != |all| % NUM
  {
    var s := all[from..] + [h];
    forall i | 0 <= i < |s|
      ensures s[i] < NUM && s[i] == if i < |s| - 1 then all[from + i] else h
    {
    }
    Lists.AtMost(s, NUM);
  }

  lemma RingIndex(n: nat)
    ensures n % WRAP % NUM == n % NUM && (n % WRAP + 1) % WRAP == (n + 1) % WRAP
  {
    SlotAgrees(n / WRAP, n % WRAP);
  }

  lemma SlotAgrees(q: nat, r: nat)
    ensures (q * WRAP + r) % NUM == r % NUM
  {
    AddSlots(0x2000 * q, r);
  }

  lemma AddSlots(y: nat, m: nat)
    ensures (NUM * y + m) % NUM == m % NUM
  {
  }

  // ---------------------------------------------------------------- submitting a request

  function HeadDesc(h: nat, m: nat): Desc {
    Desc(Header(h), 16, false, true, m)
  }

  function DataDesc(buf: nat, write: bool, t: nat): Desc {
    Desc(Data(buf), BSIZE, !write, true, t)
  }

  function StatusDesc(h: nat): Desc {
    Desc(Status(h), 1, true, false, 0)
  }

  function Header16(write: bool, sector: nat): Req {
    Req(if write then OUT else IN, sector)
  }

  /** The first sector of a block: the product is one of 32-bit numbers. */
  function SectorOf(blockno: nat): nat {
    blockno * (BSIZE / SECTOR) % 0x1_0000_0000
  }

  /** virtio_disk_rw, from the three free descriptors h, m and t to the notification. */
  ghost function Submitted(s: State, h: nat, m: nat, t: nat, buf: nat, write: bool, blockno: nat): State
    requires |s.free| == |s.desc| == |s.ops| == |s.info| == |s.avail| == NUM && h < NUM && m < NUM && t < NUM
  {
    s.(free := s.free[h := false][m := false][t := false],
       desc := s.desc[h := HeadDesc(h, m)][m := DataDesc(buf, write, t)][t := StatusDesc(h)],
       ops := s.ops[h := Header16(write, SectorOf(blockno))], info := s.info[h := Info(buf, 0xff)], busy := s.busy + {buf},
       avail := s.avail[s.availIdx % NUM := h], availIdx := (s.availIdx + 1) % WRAP,
       chains := s.chains[h := NewChain(s, m, t, buf, write, blockno)], sub := s.sub + [h], nextReq := s.nextReq + 1)
  }

  ghost function NewChain(s: State, m: nat, t: nat, buf: nat, write: bool, blockno: nat): Chain {
    Chain(m, t, buf, write, SectorOf(blockno), s.nextReq, Queued)
  }

  /** The block is on the disk, and the buffer is one. */
  ghost predicate Within(s: State, buf: nat, blockno: nat) {
    buf in s.bufs && SECTOR * SectorOf(blockno) + BSIZE <= |s.disk|
  }

  ghost predicate Idle(s: State, buf: nat) {
    buf !in s.busy && forall h :: h in s.chains ==> s.chains[h].buf != buf
  }

  ghost predicate Room(s: State, h: nat, m: nat, t: nat) {
    h < |s.free| && m < |s.free| && t < |s.free| && h != m && h != t && m != t && s.free[h] && s.free[m] && s.free[t]
  }

  ghost function FreeDescs(free: seq<bool>): set<nat> {
    set i | 0 <= i < |free| && free[i]
  }

  /** After an attempt to take a descriptor, one fewer is free, if there was one. */
  lemma FewerFree(free: seq<bool>, i: int)
    requires i == -1 <==> forall k :: 0 <= k < |free| ==> !free[k]
    requires i != -1 ==> 0 <= i < |free| && free[i]
    ensures i == -1 ==> |FreeDescs(free)| == 0
    ensures i != -1 ==> |FreeDescs(free[i := false])| == |FreeDescs(free)| - 1
  {
    if i == -1 {
      assert FreeDescs(free) == {};
    } else {
      assert FreeDescs(free[i := false]) == FreeDescs(free) - {i};
    }
  }

  /** Free descriptors are in no chain. */
  lemma Unowned(s: State, i: nat)
    requires Inv(s) && i < NUM && s.free[i]
    ensures forall h :: h in s.chains ==> !Has(h, s.chains[h], i)
  {
    hide RingOk, Apart, AllOwned, BusyOk, Different, WholeBufs, HeadDesc, DataDesc, StatusDesc, Header16;
    forall h | h in s.chains
      ensures !Has(h, s.chains[h], i)
    {
      assert ChainOk(s, h, s.chains[h]);
    }
  }

  lemma ApartMore(chains: map<nat, Chain>, h: nat, c: Chain)
    requires Apart(chains) && h !in chains
    requires forall k, i :: k in chains && Has(k, chains[k], i) ==> !Has(h, c, i)
    ensures Apart(chains[h := c])
  {
  }

  lemma OwnedMore(free: seq<bool>, chains: map<nat, Chain>, free': seq<bool>, h: nat, c: Chain)
    requires AllOwned(free, chains) && h !in chains && |free'| == |free|
    requires forall i :: 0 <= i < |free| && !free'[i] && free[i] ==> Has(h, c, i)
    ensures AllOwned(free', chains[h := c])
  {
    var chains' := chains[h := c];
    forall i | 0 <= i < |free'| && !free'[i]
      ensures Owned(chains', i)
    {
      if !free[i] {
        var k :| k in chains && Has(k, chains[k], i);
        assert k in chains' && Has(k, chains'[k], i);
      } else {
        assert h in chains' && Has(h, chains'[h], i);
      }
    }
  }

  /** One chain changes its phase, or is new, and its buffer may become awaited. */
  lemma BusyMore(busy: set<nat>, chains: map<nat, Chain>, h: nat, c: Chain)
    requires BusyOk(busy, chains) && c.phase != Finished && (h in chains ==> chains[h].buf == c.buf)
    ensures BusyOk(busy + {c.buf}, chains[h := c])
  {
    var chains' := chains[h := c];
    forall b | b in busy + {c.buf}
      ensures Awaited(chains', b)
    {
      if b == c.buf {
        assert h in chains' && chains'[h].buf == b;
      } else {
        var k :| k in chains && chains[k].buf == b && chains[k].phase != Finished;
        assert k in chains' && chains'[k] == chains[k];
      }
    }
  }

  lemma RingPushed(ring: seq<nat>, all: seq<nat>, from: nat, chains: map<nat, Chain>, phase: Phase, h: nat, c: Chain)
    requires RingOk(ring, all, from, chains, phase) && h < NUM && c.phase == phase
    requires (forall k :: k in chains ==> k < NUM)
    requires h in chains ==> chains[h].phase != phase
    ensures RingOk(ring[|all| % NUM := h], all + [h], from, chains[h := c], phase)
  {
    SlotFree(all, from, h);
    var ring', all', chains' := ring[|all| % NUM := h], all + [h], chains[h := c];
    forall k | k in chains' && chains'[k].phase == phase
      ensures exists i :: from <= i < |all'| && all'[i] == k
    {
      if k == h {
        assert all'[|all|] == h;
      } else {
        var i :| from <= i < |all| && all[i] == k;
        assert all'[i] == k;
      }
    }
  }

  /** A ring is not affected by a chain that is not in its phase before or after. */
  lemma RingElse(ring: seq<nat>, all: seq<nat>, from: nat, chains: map<nat, Chain>, phase: Phase, h: nat, c: Chain)
    requires RingOk(ring, all, from, chains, phase) && c.phase != phase && (h in chains ==> chains[h].phase != phase)
    ensures RingOk(ring, all, from, chains[h := c], phase)
  {
  }

  lemma HeadsSmall(s: State)
    requires Inv(s)
    ensures forall h :: h in s.chains ==> h < NUM
  {
    hide RingOk, Apart, AllOwned, BusyOk, Different, WholeBufs;
    forall h | h in s.chains
      ensures h < NUM
    {
      assert ChainOk(s, h, s.chains[h]);
    }
  }

  lemma SubmitChains(s: State, h: nat, m: nat, t: nat, buf: nat, write: bool, blockno: nat, k: nat)
    requires Inv(s) && Room(s, h, m, t) && Within(s, buf, blockno) && k in Submitted(s, h, m, t, buf, write, blockno).chains
    ensures var s' := Submitted(s, h, m, t, buf, write, blockno);
      ChainOk(s', k, s'.chains[k])
  {
    hide RingOk, Apart, AllOwned, BusyOk, Different;
    Unowned(s, h);
    Unowned(s, m);
    Unowned(s, t);
    if k != h {
      assert ChainOk(s, k, s.chains[k]);
      assert Has(k, s.chains[k], k) && Has(k, s.chains[k], s.chains[k].second) && Has(k, s.chains[k], s.chains[k].third);
    }
  }

  /** The new chain shares no descriptor, request or buffer with another. */
  lemma SubmitApart(s: State, h: nat, m: nat, t: nat, buf: nat, write: bool, blockno: nat)
    requires Inv(s) && Room(s, h, m, t) && Idle(s, buf)
    ensures var chains := s.chains[h := NewChain(s, m, t, buf, write, blockno)];
      h !in s.chains && Apart(chains) && Different(chains)
  {
    hide RingOk, AllOwned, BusyOk;
    Unowned(s, h);
    Unowned(s, m);
    Unowned(s, t);
    assert h in s.chains ==> Has(h, s.chains[h], h);
    ApartMore(s.chains, h, NewChain(s, m, t, buf, write, blockno));
    assert forall k :: k in s.chains ==> ChainOk(s, k, s.chains[k]);
  }

  lemma SubmitKeeps(s: State, h: nat, m: nat, t: nat, buf: nat, write: bool, blockno: nat)
    requires Inv(s) && Room(s, h, m, t) && Idle(s, buf) && Within(s, buf, blockno)
    ensures Inv(Submitted(s, h, m, t, buf, write, blockno))
  {
    hide RingOk, Apart, AllOwned, BusyOk, Different, ChainOk;
    var s', c := Submitted(s, h, m, t, buf, write, blockno), NewChain(s, m, t, buf, write, blockno);
    HeadsSmall(s);
    RingIndex(|s.sub|);
    SubmitApart(s, h, m, t, buf, write, blockno);
    RingPushed(s.avail, s.sub, s.taken, s.chains, Queued, h, c);
    RingElse(s.used, s.comp, s.seen, s.chains, Completed, h, c);
    OwnedMore(s.free, s.chains, s'.free, h, c);
    BusyMore(s.busy, s.chains, h, c);
    forall k | k in s'.chains
      ensures ChainOk(s', k, s'.chains[k])
    {
      SubmitChains(s, h, m, t, buf, write, blockno, k);
    }
  }

  // ---------------------------------------------------------------- the device

  /** The chain of head h moves on to another phase. */
  function Moved(chains: map<nat, Chain>, h: nat, phase: Phase): map<nat, Chain>
    requires h in chains
  {
    chains[h := chains[h].(phase := phase)]
  }

  lemma MovedKeeps(free: seq<bool>, chains: map<nat, Chain>, h: nat, phase: Phase)
    requires h in chains && Apart(chains) && AllOwned(free, chains) && Different(chains)
    ensures var c := Moved(chains, h, phase); Apart(c) && AllOwned(free, c) && Different(c)
  {
    var c := Moved(chains, h, phase);
    assert c.Keys == chains.Keys;
    assert forall k :: k in chains ==> c[k] == chains[k].(phase := c[k].phase);
    forall i | 0 <= i < |free| && !free[i]
      ensures Owned(c, i)
    {
      var k :| k in chains && Has(k, chains[k], i);
      assert k in c && Has(k, c[k], i);
    }
    assert Apart(c) by {
      forall a, b, i | a in c && b in c && Has(a, c[a], i) && Has(b, c[b], i)
        ensures a == b
      {
        assert Has(a, chains[a], i) && Has(b, chains[b], i);
      }
    }
  }

  /** The device takes the next head that the driver made available. */
  ghost function DeviceTakes(s: State): State
    requires |s.avail| == NUM && s.avail[s.taken % NUM] in s.chains
  {
    s.(chains := Moved(s.chains, s.avail[s.taken % NUM], Taken), taken := s.taken + 1)
  }

  lemma RingPopped(ring: seq<nat>, all: seq<nat>, from: nat, chains: map<nat, Chain>, phase: Phase, next: Phase)
    requires RingOk(ring, all, from, chains, phase) && from < |all| && next != phase
    ensures all[from] in chains && ring[from % NUM] == all[from]
    ensures RingOk(ring, all, from + 1, Moved(chains, all[from], next), phase)
  {
  }

  lemma DeviceTakesKeeps(s: State)
    requires Inv(s) && s.taken < |s.sub|
    ensures s.avail[s.taken % NUM] in s.chains && Inv(DeviceTakes(s))
  {
    hide RingOk, Apart, AllOwned, BusyOk, Different;
    RingPopped(s.avail, s.sub, s.taken, s.chains, Queued, Taken);
    QueuedIs(s);
    var h := s.sub[s.taken];
    var c, s' := s.chains[h].(phase := Taken), DeviceTakes(s);
    RingElse(s.used, s.comp, s.seen, s.chains, Completed, h, c);
    MovedKeeps(s.free, s.chains, h, Taken);
    assert ChainOk(s, h, s.chains[h]);
    BusyMore(s.busy, s.chains, h, c);
    assert s.busy + {c.buf} == s.busy;
    forall k | k in s'.chains
      ensures ChainOk(s', k, s'.chains[k])
    {
      assert ChainOk(s, k, s.chains[k]);
    }
  }

  lemma QueuedIs(s: State)
    requires Inv(s) && s.taken < |s.sub|
    ensures s.sub[s.taken] in s.chains && s.chains[s.sub[s.taken]].phase == Queued
  {
  }

  /** What the device does with the data: it writes a buffer only in a read request whose descriptor
      lets it, and the disk only from a buffer that it may read. The bytes are as many as the
      descriptor says. A request it cannot carry out has status 1 or 2. */
  datatype Outcome = Outcome(bufs: map<nat, seq<Byte>>, disk: seq<Byte>, status: nat)

  ghost function Transfer(bufs: map<nat, seq<Byte>>, disk: seq<Byte>, req: Req, d: Desc): Outcome
    requires d.addr.Data? && d.addr.buf in bufs
  {
    var from, data := SECTOR * req.sector, bufs[d.addr.buf];
    if from + d.len > |disk| || d.len > |data| then
      Outcome(bufs, disk, 1)
    else if req.kind == IN && d.write then
      Outcome(bufs[d.addr.buf := disk[from..from + d.len] + data[d.len..]], disk, 0)
    else if req.kind == OUT && !d.write then
      Outcome(bufs, disk[..from] + data[..d.len] + disk[from + d.len..], 0)
    else
      Outcome(bufs, disk, 2)
  }

  /** The device follows the chain from its head: a header that it may read, the data, and a status
      byte that it may write. It does nothing with a chain of another form. */
  ghost function Serve(s: State, h: nat): State
    requires |s.desc| == |s.ops| == |s.info| == NUM && h < NUM
  {
    var head := s.desc[h];
    if !(head.addr.Header? && head.addr.i < NUM && head.len == 16 && !head.write && head.hasNext && head.next < NUM) then
      s
    else
      var data := s.desc[head.next];
      if !(data.addr.Data? && data.addr.buf in s.bufs && data.hasNext && data.next < NUM) then
        s
      else
        var last := s.desc[data.next];
        if !(last.addr.Status? && last.addr.i < NUM && last.len == 1 && last.write && !last.hasNext) then
          s
        else
          var o := Transfer(s.bufs, s.disk, s.ops[head.addr.i], data);
          s.(bufs := o.bufs, disk := o.disk, info := s.info[last.addr.i := s.info[last.addr.i].(status := o.status)])
  }

  /** A chain that virtio_disk_rw formatted is served with status 0. */
  lemma ServeIs(s: State, h: nat)
    requires |s.free| == |s.desc| == |s.ops| == |s.info| == NUM && WholeBufs(s.bufs)
    requires h in s.chains && ChainOk(s, h, s.chains[h])
    ensures var c, s' := s.chains[h], Serve(s, h);
      var from := SECTOR * c.sector;
      && s' == s.(bufs := s'.bufs, disk := s'.disk, info := s.info[h := s.info[h].(status := 0)])
      && s'.bufs == (if c.write then s.bufs else s.bufs[c.buf := s.disk[from..from + BSIZE]])
      && s'.disk == (if c.write then s.disk[..from] + s.bufs[c.buf] + s.disk[from + BSIZE..] else s.disk)
      && WholeBufs(s'.bufs) && |s'.disk| == |s.disk|
  {
    var c := s.chains[h];
    var from, data := SECTOR * c.sector, s.bufs[c.buf];
    assert data[..BSIZE] == data && s.disk[from..from + BSIZE] + data[BSIZE..] == s.disk[from..from + BSIZE];
  }

  /** The device has carried out the request of head h, and adds an entry to the used ring. */
  ghost function DeviceCompletes(s: State, h: nat): State
    requires |s.used| == |s.desc| == |s.ops| == |s.info| == NUM && h < NUM && h in s.chains
  {
    Serve(s, h).(used := s.used[s.usedIdx % NUM := h], usedIdx := (s.usedIdx + 1) % WRAP,
                 chains := Moved(s.chains, h, Completed), comp := s.comp + [h])
  }

  lemma DeviceCompletesKeeps(s: State, h: nat)
    requires Inv(s) && h in s.chains && s.chains[h].phase == Taken
    ensures h < NUM && Inv(DeviceCompletes(s, h))
  {
    hide RingOk, Apart, AllOwned, BusyOk, Different, ChainOk, Serve;
    HeadsSmall(s);
    RingIndex(|s.comp|);
    ServeIs(s, h);
    var c, s' := s.chains[h].(phase := Completed), DeviceCompletes(s, h);
    RingPushed(s.used, s.comp, s.seen, s.chains, Completed, h, c);
    RingElse(s.avail, s.sub, s.taken, s.chains, Queued, h, c);
    MovedKeeps(s.free, s.chains, h, Completed);
    TakenBusy(s, h);
    BusyMore(s.busy, s.chains, h, c);
    assert s.busy + {c.buf} == s.busy;
    forall k | k in s'.chains
      ensures ChainOk(s', k, s'.chains[k])
    {
      CompletedChain(s, h, k);
    }
  }

  lemma TakenBusy(s: State, h: nat)
    requires Inv(s) && h in s.chains && s.chains[h].phase == Taken
    ensures s.chains[h].buf in s.busy
  {
    hide RingOk, Apart, AllOwned, BusyOk, Different;
    assert ChainOk(s, h, s.chains[h]);
  }

  lemma CompletedChain(s: State, h: nat, k: nat)
    requires Inv(s) && h in s.chains && s.chains[h].phase == Taken && k in s.chains && h < NUM
    ensures var s' := DeviceCompletes(s, h);
      |s'.free| == |s'.desc| == |s'.ops| == |s'.info| == NUM && ChainOk(s', k, s'.chains[k])
  {
    hide RingOk, Apart, AllOwned, BusyOk, Different, Serve;
    ServeIs(s, h);
    assert ChainOk(s, h, s.chains[h]) && ChainOk(s, k, s.chains[k]);
  }

  // ---------------------------------------------------------------- the interrupt handler

  /** One turn of virtio_disk_intr's loop. */
  ghost function Handled(s: State): State
    requires |s.used| == |s.info| == NUM && s.used[s.usedSeen % NUM] in s.chains && s.used[s.usedSeen % NUM] < NUM
  {
    var h := s.used[s.usedSeen % NUM];
    s.(busy := s.busy - {s.chains[h].buf}, usedSeen := (s.usedSeen + 1) % WRAP, seen := s.seen + 1,
       chains := Moved(s.chains, h, Finished), finished := s.finished + {s.chains[h].req})
  }

  /** There is an unseen entry exactly when the indices differ, for all their wrap-arounds. */
  lemma Unseen(s: State)
    requires Inv(s)
    ensures s.seen <= |s.comp| && (s.usedSeen != s.usedIdx <==> s.seen < |s.comp|)
    ensures s.seen < |s.comp| ==>
      var h := s.used[s.usedSeen % NUM];
      && h == s.comp[s.seen] && h < NUM && h in s.chains && s.chains[h].phase == Completed
      && s.info[h] == Info(s.chains[h].buf, 0) && s.chains[h].req !in s.finished
  {
    hide Apart, AllOwned, BusyOk, Different, ChainOk;
    RingIndex(s.seen);
    HeadsSmall(s);
    ShortRing(s.used, s.comp, s.seen, s.chains, Completed);
    SameIndex(s.seen, |s.comp|);
    if s.seen < |s.comp| {
      RingPopped(s.used, s.comp, s.seen, s.chains, Completed, Finished);
      CompletedIs(s, s.comp[s.seen]);
    }
  }

  lemma ShortRing(ring: seq<nat>, all: seq<nat>, from: nat, chains: map<nat, Chain>, phase: Phase)
    requires RingOk(ring, all, from, chains, phase) && forall h :: h in chains ==> h < NUM
    ensures |all| - from <= NUM && (from < |all| ==> all[from] in chains && chains[all[from]].phase == phase)
  {
    var rest := all[from..];
    forall i | 0 <= i < |rest|
      ensures rest[i] == all[from + i] && rest[i] < NUM
    {
    }
    Lists.AtMost(rest, NUM);
  }

  lemma SameIndex(r: nat, w: nat)
    requires r <= w <= r + NUM
    ensures r % WRAP == w % WRAP <==> r == w
  {
  }

  lemma CompletedIs(s: State, h: nat)
    requires Inv(s) && h in s.chains && s.chains[h].phase == Completed
    ensures s.info[h] == Info(s.chains[h].buf, 0) && s.chains[h].req !in s.finished
  {
    hide RingOk, Apart, AllOwned, BusyOk, Different;
    assert ChainOk(s, h, s.chains[h]);
  }

  lemma BusyLess(busy: set<nat>, chains: map<nat, Chain>, h: nat)
    requires BusyOk(busy, chains) && h in chains && Different(chains)
    ensures BusyOk(busy - {chains[h].buf}, Moved(chains, h, Finished))
  {
    var c := Moved(chains, h, Finished);
    forall b | b in busy - {chains[h].buf}
      ensures Awaited(c, b)
    {
      var k :| k in chains && chains[k].buf == b && chains[k].phase != Finished;
      assert k in c && c[k] == chains[k];
    }
  }

  lemma HandledKeeps(s: State)
    requires Inv(s) && s.seen < |s.comp|
    ensures s.used[s.usedSeen % NUM] in s.chains && s.used[s.usedSeen % NUM] < NUM && Inv(Handled(s))
  {
    hide RingOk, Apart, AllOwned, BusyOk, Different, ChainOk;
    Unseen(s);
    RingIndex(s.seen);
    var h := s.comp[s.seen];
    var c, s' := s.chains[h].(phase := Finished), Handled(s);
    RingPopped(s.used, s.comp, s.seen, s.chains, Completed, Finished);
    RingElse(s.avail, s.sub, s.taken, s.chains, Queued, h, c);
    MovedKeeps(s.free, s.chains, h, Finished);
    BusyLess(s.busy, s.chains, h);
    FinishedSmall(s, h);
    forall k | k in s'.chains
      ensures ChainOk(s', k, s'.chains[k])
    {
      HandledChain(s, h, k);
    }
  }

  lemma FinishedSmall(s: State, h: nat)
    requires Inv(s) && h in s.chains
    ensures s.chains[h].req < s.nextReq
  {
    hide RingOk, Apart, AllOwned, BusyOk, Different;
    assert ChainOk(s, h, s.chains[h]);
  }

  lemma HandledChain(s: State, h: nat, k: nat)
    requires Inv(s) && s.used[s.usedSeen % NUM] == h < NUM && h in s.chains && k in s.chains
    ensures ChainOk(Handled(s), k, Handled(s).chains[k])
  {
    hide RingOk, Apart, AllOwned, BusyOk;
    assert ChainOk(s, h, s.chains[h]) && ChainOk(s, k, s.chains[k]);
    assert k != h ==> s.chains[k].req != s.chains[h].req && s.chains[k].buf != s.chains[h].buf;
  }

  // ---------------------------------------------------------------- the end of a request

  function NoDesc(): Desc {
    Desc(Null, 0, false, false, 0)
  }

  /** The end of virtio_disk_rw: the three descriptors of the chain are free again. */
  ghost function Ended(s: State, h: nat): State
    requires |s.free| == |s.desc| == |s.ops| == |s.info| == NUM && h < NUM && h in s.chains && s.chains[h].second < NUM
    requires s.chains[h].third < NUM
  {
    var m, t := s.chains[h].second, s.chains[h].third;
    s.(info := s.info[h := s.info[h].(buf := -1)], free := s.free[h := true][m := true][t := true],
       desc := s.desc[h := NoDesc()][m := NoDesc()][t := NoDesc()], chains := s.chains - {h})
  }

  lemma OwnedLess(free: seq<bool>, chains: map<nat, Chain>, free': seq<bool>, h: nat)
    requires AllOwned(free, chains) && h in chains && |free'| == |free|
    requires forall i :: 0 <= i < |free| && !free'[i] ==> !free[i] && !Has(h, chains[h], i)
    ensures AllOwned(free', chains - {h})
  {
    forall i | 0 <= i < |free'| && !free'[i]
      ensures Owned(chains - {h}, i)
    {
      var k :| k in chains && Has(k, chains[k], i);
      assert k in chains - {h} && Has(k, (chains - {h})[k], i);
    }
  }

  lemma ChainsLess(busy: set<nat>, chains: map<nat, Chain>, h: nat)
    requires BusyOk(busy, chains) && Apart(chains) && Different(chains) && h in chains && chains[h].phase == Finished
    ensures BusyOk(busy, chains - {h}) && Apart(chains - {h}) && Different(chains - {h})
  {
    var c := chains - {h};
    assert forall k :: k in c ==> k in chains && c[k] == chains[k];
    forall b | b in busy
      ensures Awaited(c, b)
    {
      var k :| k in chains && chains[k].buf == b && chains[k].phase != Finished;
      assert k in c && c[k] == chains[k];
    }
  }

  lemma RingLess(ring: seq<nat>, all: seq<nat>, from: nat, chains: map<nat, Chain>, phase: Phase, h: nat)
    requires RingOk(ring, all, from, chains, phase) && h in chains && chains[h].phase != phase
    ensures RingOk(ring, all, from, chains - {h}, phase)
  {
  }

  lemma ChainBounds(s: State, h: nat)
    requires Inv(s) && h in s.chains
    ensures var c := s.chains[h];
      && h < NUM && c.second < NUM && c.third < NUM && h != c.second && h != c.third && c.second != c.third
      && !s.free[h] && !s.free[c.second] && !s.free[c.third]
      && s.desc[h].hasNext && s.desc[h].next == c.second && s.desc[c.second].hasNext && s.desc[c.second].next == c.third
      && !s.desc[c.third].hasNext
  {
    hide RingOk, AllOwned, BusyOk, Different, Apart;
    assert ChainOk(s, h, s.chains[h]);
  }

  lemma EndedKeeps(s: State, h: nat)
    requires Inv(s) && h in s.chains && s.chains[h].phase == Finished
    ensures h < NUM && s.chains[h].second < NUM && s.chains[h].third < NUM && Inv(Ended(s, h))
  {
    hide RingOk, AllOwned, BusyOk, Different, Apart, ChainOk;
    ChainBounds(s, h);
    var s' := Ended(s, h);
    RingLess(s.avail, s.sub, s.taken, s.chains, Queued, h);
    RingLess(s.used, s.comp, s.seen, s.chains, Completed, h);
    OwnedLess(s.free, s.chains, s'.free, h);
    ChainsLess(s.busy, s.chains, h);
    forall k | k in s'.chains
      ensures ChainOk(s', k, s'.chains[k])
    {
      EndedChain(s, h, k);
    }
  }

  lemma EndedChain(s: State, h: nat, k: nat)
    requires |s.free| == |s.desc| == |s.ops| == |s.info| == NUM && h in s.chains && ChainOk(s, h, s.chains[h])
    requires k in s.chains && k != h
    requires ChainOk(s, k, s.chains[k]) && Apart(s.chains)
    ensures ChainOk(Ended(s, h), k, s.chains[k])
  {
    var c, d := s.chains[h], s.chains[k];
    assert Has(k, d, k) && Has(k, d, d.second) && Has(k, d, d.third);
    assert !Has(h, c, k) && !Has(h, c, d.second) && !Has(h, c, d.third);
  }

  // ---------------------------------------------------------------- runs

  datatype Event =
    | Submit(h: nat, m: nat, t: nat, buf: nat, write: bool, blockno: nat)
    | Take
    | Complete(h: nat)
    | Handle
    | End(h: nat)
    | Fill(buf: nat, data: seq<Byte>)

  ghost predicate Enabled(s: State, e: Event) {
    && |s.free| == |s.desc| == |s.ops| == |s.info| == |s.avail| == |s.used| == NUM
    && match e
       case Submit(h, m, t, buf, write, blockno) => Room(s, h, m, t) && Idle(s, buf) && Within(s, buf, blockno)
       case Take => s.taken < |s.sub| && s.avail[s.taken % NUM] in s.chains
       case Complete(h) => h < NUM && h in s.chains && s.chains[h].phase == Taken
       case Handle => s.usedSeen != s.usedIdx && s.used[s.usedSeen % NUM] < NUM && s.used[s.usedSeen % NUM] in s.chains
       case End(h) =>
         h < NUM && h in s.chains && s.chains[h].second < NUM && s.chains[h].third < NUM && s.chains[h].buf !in s.busy
       case Fill(buf, data) => buf in s.bufs && Idle(s, buf) && |data| == BSIZE
  }

  /** What driver and device can do next; End is the return of virtio_disk_rw, which waits for b->disk
      to be clear. Fill is anything that the holder of a buffer stores into it; while the holder is in
      virtio_disk_rw, the buffer's lock keeps others away. */
  ghost function Do(s: State, e: Event): State
    requires Enabled(s, e)
  {
    match e
    case Submit(h, m, t, buf, write, blockno) => Submitted(s, h, m, t, buf, write, blockno)
    case Take => DeviceTakes(s)
    case Complete(h) => DeviceCompletes(s, h)
    case Handle => Handled(s)
    case End(h) => Ended(s, h)
    case Fill(buf, data) => s.(bufs := s.bufs[buf := data])
  }

  lemma StepKeeps(s: State, e: Event)
    requires Inv(s) && Enabled(s, e)
    ensures Inv(Do(s, e))
  {
    hide Inv;
    match e
    case Submit(h, m, t, buf, write, blockno) => SubmitKeeps(s, h, m, t, buf, write, blockno);
    case Take => DeviceTakesKeeps(s);
    case Complete(h) => DeviceCompletesKeeps(s, h);
    case Handle =>
      Unseen(s);
      HandledKeeps(s);
    case End(h) =>
      ReallyFinished(s, h);
      EndedKeeps(s, h);
    case Fill(buf, data) => FillKeeps(s, buf, data);
  }

  lemma FillKeeps(s: State, buf: nat, data: seq<Byte>)
    requires Inv(s) && buf in s.bufs && |data| == BSIZE
    ensures Inv(s.(bufs := s.bufs[buf := data]))
  {
    hide RingOk, Apart, AllOwned, BusyOk, Different;
    forall h | h in s.chains
      ensures ChainOk(s.(bufs := s.bufs[buf := data]), h, s.chains[h])
    {
      assert ChainOk(s, h, s.chains[h]);
    }
  }

  ghost predicate IsRun(ss: seq<State>, es: seq<Event>) {
    && |ss| == |es| + 1 && Init(ss[0])
    && forall i :: 0 <= i < |es| ==> Enabled(ss[i], es[i]) && ss[i + 1] == Do(ss[i], es[i])
  }

  lemma {:induction false} RunInv(ss: seq<State>, es: seq<Event>, i: nat)
    requires IsRun(ss, es) && i < |ss|
    ensures Inv(ss[i])
  {
    hide Inv, Enabled, Do, Init;
    if i == 0 {
      InitInv(ss[0]);
    } else {
      RunInv(ss, es, i - 1);
      StepKeeps(ss[i - 1], es[i - 1]);
    }
  }

  lemma {:induction false} FinishedGrows(ss: seq<State>, es: seq<Event>, i: nat, j: nat)
    requires IsRun(ss, es) && i <= j < |ss|
    ensures ss[i].finished <= ss[j].finished
    decreases j
  {
    if i < j {
      FinishedGrows(ss, es, i, j - 1);
      assert Enabled(ss[j - 1], es[j - 1]) && ss[j] == Do(ss[j - 1], es[j - 1]);
    }
  }

  /** The request that the handler sees next. */
  ghost function Next(s: State): nat
    requires Enabled(s, Handle)
  {
    s.chains[s.used[s.usedSeen % NUM]].req
  }

  /** No request is handled twice, however often the 16-bit indices wrap around. */
  lemma HandledOnce(ss: seq<State>, es: seq<Event>, i: nat, j: nat)
    requires IsRun(ss, es) && i < j < |es| && es[i] == Handle && es[j] == Handle
    ensures Enabled(ss[i], Handle) && Enabled(ss[j], Handle) && Next(ss[i]) != Next(ss[j])
  {
    hide Inv, Init;
    assert Enabled(ss[i], es[i]) && ss[i + 1] == Do(ss[i], es[i]) && Enabled(ss[j], es[j]);
    FinishedGrows(ss, es, i + 1, j);
    RunInv(ss, es, j);
    Unseen(ss[j]);
  }

  /** When virtio_disk_rw returns, its request has been handled. */
  lemma EndedIsHandled(ss: seq<State>, es: seq<Event>, i: nat)
    requires IsRun(ss, es) && i < |es| && es[i].End?
    ensures Enabled(ss[i], es[i]) && ss[i].chains[es[i].h].req in ss[i].finished
  {
    hide Inv, Init, Do;
    assert Enabled(ss[i], es[i]);
    RunInv(ss, es, i);
    ReallyFinished(ss[i], es[i].h);
  }

  // ---------------------------------------------------------------- the driver

  class Disk {
    const free: array<bool>
    const desc: array<Desc>
    const ops: array<Req>
    const info: array<Info>
    const avail: array<nat>
    const used: array<nat>
    var availIdx: nat
    var usedIdx: nat
    var usedSeen: nat
    /** The buffers with b->disk set. */
    var busy: set<nat>
    ghost var bufs: map<nat, seq<Byte>>
    ghost var disk: seq<Byte>
    ghost var chains: map<nat, Chain>
    ghost var sub: seq<nat>
    ghost var taken: nat
    ghost var comp: seq<nat>
    ghost var seen: nat
    ghost var finished: set<nat>
    ghost var nextReq: nat

    ghost function View(): State
      reads this, free, desc, ops, info, avail, used
    {
      State(free[..], desc[..], ops[..], info[..], busy, bufs, disk, avail[..], availIdx, used[..], usedIdx, usedSeen,
            chains, sub, taken, comp, seen, finished, nextReq)
    }

    ghost predicate Shape()
      reads this
    {
      free.Length == desc.Length == ops.Length == info.Length == avail.Length == used.Length == NUM && avail != used
    }

    constructor (ghost bufs: map<nat, seq<Byte>>, ghost disk: seq<Byte>)
      requires WholeBufs(bufs)
      ensures Shape() && Inv(View()) && Init(View()) && this.bufs == bufs && this.disk == disk
      ensures fresh(free) && fresh(desc) && fresh(ops) && fresh(info) && fresh(avail) && fresh(used)
    {
      free := new bool[NUM](_ => true);
      desc := new Desc[NUM](_ => NoDesc());
      ops := new Req[NUM](_ => Req(0, 0));
      info := new Info[NUM](_ => Info(-1, 0));
      avail := new nat[NUM](_ => 0);
      used := new nat[NUM](_ => 0);
      availIdx, usedIdx, usedSeen, busy := 0, 0, 0, {};
      this.bufs, this.disk := bufs, disk;
      chains, sub, taken, comp, seen, finished, nextReq := map[], [], 0, [], 0, {}, 0;
      new;
      InitInv(View());
    }

    /** The first free descriptor, now taken, or -1. */
    method AllocDesc() returns (i: int)
      requires Shape()
      modifies free
      ensures i == -1 <==> forall k :: 0 <= k < NUM ==> !old(free[k])
      ensures i == -1 ==> free[..] == old(free[..])
      ensures i != -1 ==> 0 <= i < NUM && old(free[i]) && free[..] == old(free[..])[i := false]
      ensures forall k :: 0 <= k < i ==> !old(free[k])
    {
      i := 0;
      while i < NUM
        invariant 0 <= i <= NUM && free[..] == old(free[..]) && forall k :: 0 <= k < i ==> !free[k]
      {
        if free[i] {
          free[i] := false;
          return;
        }
        i := i + 1;
      }
      return -1;
    }

    /** It panics unless i is a descriptor that is not free. */
    method FreeDesc(i: nat) returns (panic: bool)
      requires Shape()
      modifies free, desc
      ensures panic <==> i >= NUM || old(free[i])
      ensures panic ==> free[..] == old(free[..]) && desc[..] == old(desc[..])
      ensures !panic ==> free[..] == old(free[..])[i := true] && desc[..] == old(desc[..])[i := NoDesc()]
    {
      if i >= NUM || free[i] {
        return true;
      }
      panic := false;
      desc[i] := Desc(Null, 0, false, false, 0);
      free[i] := true;
    }

    /** Three free descriptors, if there are as many. If not, nothing has changed but the contents of
        free descriptors. */
    method Alloc3Desc() returns (ok: bool, h: nat, m: nat, t: nat)
      requires Shape()
      modifies free, desc
      ensures ok <==> |FreeDescs(old(free[..]))| >= 3
      ensures !ok ==> free[..] == old(free[..]) && forall k :: 0 <= k < NUM && !free[k] ==> desc[k] == old(desc[k])
      ensures ok ==> h < NUM && m < NUM && t < NUM && h != m && h != t && m != t && old(free[h] && free[m] && free[t])
      ensures ok ==> free[..] == old(free[..])[h := false][m := false][t := false] && desc[..] == old(desc[..])
    {
      h, m, t := 0, 0, 0;
      ghost var f := free[..];
      var a := AllocDesc();
      FewerFree(f, a);
      if a < 0 {
        return false, 0, 0, 0;
      }
      ghost var f' := free[..];
      var b := AllocDesc();
      FewerFree(f', b);
      if b < 0 {
        var panic := FreeDesc(a);
        return false, 0, 0, 0;
      }
      ghost var f'' := free[..];
      var c := AllocDesc();
      FewerFree(f'', c);
      if c < 0 {
        var panic := FreeDesc(a);
        panic := FreeDesc(b);
        return false, 0, 0, 0;
      }
      return true, a, b, c;
    }

    /** virtio_disk_rw up to the first wait: queue a request for buffer buf, which has none. It has to
        sleep if and only if there are not three free descriptors. */
    method Submit(buf: nat, write: bool, blockno: nat) returns (ok: bool, h: nat)
      requires Shape() && Inv(View()) && Idle(View(), buf) && Within(View(), buf, blockno)
      modifies this, free, desc, ops, info, avail
      ensures Shape() && Inv(View())
      ensures ok <==> |FreeDescs(old(free[..]))| >= 3
      ensures ok ==> exists m, t ::
        Room(old(View()), h, m, t) && View() == Submitted(old(View()), h, m, t, buf, write, blockno)
      ensures !ok ==> View() == old(View()).(desc := desc[..])
    {
      hide Inv, RingOk, ChainOk, Submitted;
      ghost var s0 := View();
      var m, t;
      ok, h, m, t := Alloc3Desc();
      if !ok {
        ContentsFree(s0, View());
        return;
      }
      Queue(h, m, t, buf, write, blockno, s0);
      SubmitKeeps(s0, h, m, t, buf, write, blockno);
    }

    /** The header of the request and the three descriptors. */
    method Format(h: nat, m: nat, t: nat, buf: nat, write: bool, blockno: nat)
      requires Shape() && h < NUM && m < NUM && t < NUM && h != m && h != t && m != t
      modifies desc, ops, info
      ensures desc[..] == old(desc[..])[h := HeadDesc(h, m)][m := DataDesc(buf, write, t)][t := StatusDesc(h)]
      ensures ops[..] == old(ops[..])[h := Header16(write, SectorOf(blockno))]
      ensures info[..] == old(info[..])[h := Info(old(info[h].buf), 0xff)]
    {
      hide SectorOf;
      var sector := SectorOf(blockno);
      ops[h] := Req(if write then OUT else IN, sector);
      desc[h] := Desc(Header(h), 16, false, true, m);
      desc[m] := Desc(Data(buf), BSIZE, !write, true, t);
      info[h] := Info(info[h].buf, 0xff);
      desc[t] := Desc(Status(h), 1, true, false, 0);
    }

    /** The formatting of the request, and the new entry in the avail ring. */
    method Queue(h: nat, m: nat, t: nat, buf: nat, write: bool, blockno: nat, ghost s0: State)
      requires Shape() && Inv(s0) && h < NUM && m < NUM && t < NUM && h != m && h != t && m != t
      requires View() == s0.(free := free[..]) && free[..] == s0.free[h := false][m := false][t := false]
      modifies this, desc, ops, info, avail
      ensures View() == Submitted(s0, h, m, t, buf, write, blockno)
    {
      hide Inv, Submitted, SectorOf, Header16, HeadDesc, DataDesc, StatusDesc;
      RingsThere(s0);
      Format(h, m, t, buf, write, blockno);
      busy := busy + {buf};
      info[h] := Info(buf, info[h].status);
      avail[availIdx % NUM] := h;
      availIdx := (availIdx + 1) % WRAP;
      chains, sub, nextReq := chains[h := NewChain(s0, m, t, buf, write, blockno)], sub + [h], nextReq + 1;
      SubmitIs(s0, View(), h, m, t, buf, write, blockno);
    }

    /** virtio_disk_intr: every entry that the device has added to the used ring is handled, once, and
        its status is never bad. */
    method Intr()
      requires Shape() && Inv(View())
      modifies this
      ensures Shape() && Inv(View()) && seen == |comp| && comp == old(comp) && sub == old(sub)
      ensures nextReq == old(nextReq)
      ensures old(finished) <= finished && chains.Keys == old(chains).Keys
    {
      hide Inv;
      Unseen(View());
      while usedSeen != usedIdx
        invariant Inv(View()) && seen <= |comp| && (usedSeen != usedIdx <==> seen < |comp|)
        invariant comp == old(comp) && sub == old(sub) && nextReq == old(nextReq) && old(finished) <= finished
        invariant chains.Keys == old(chains).Keys
        decreases |comp| - seen
      {
        HandleOne();
        Unseen(View());
      }
    }

    /** One turn of its loop. */
    method HandleOne()
      requires Shape() && Inv(View()) && seen < |comp|
      modifies this
      ensures old(used[usedSeen % NUM] in chains && used[usedSeen % NUM] < NUM) && View() == Handled(old(View()))
      ensures Inv(View())
    {
      hide Inv;
      ghost var s := View();
      Unseen(s);
      var id := used[usedSeen % NUM];
      assert info[id].status == 0;
      var b := info[id].buf;
      HandledKeeps(s);
      busy := busy - {b};
      usedSeen := (usedSeen + 1) % WRAP;
      seen := seen + 1;
      finished := finished + {chains[id].req};
      chains := Moved(chains, id, Finished);
      assert View() == Handled(s);
    }

    /** The end of virtio_disk_rw, when b->disk is clear again: the request has been handled, and its
        chain is freed without a panic. */
    method Finish(h: nat)
      requires Shape() && Inv(View()) && h in chains && chains[h].buf !in busy
      modifies this, free, desc, info
      ensures Shape() && Inv(View()) && old(chains)[h].req in finished && h in old(View()).chains
      ensures chains == old(chains) - {h} && finished == old(finished)
    {
      hide Inv, RingOk, ChainOk;
      ghost var s := View();
      ReallyFinished(s, h);
      ChainBounds(s, h);
      EndedKeeps(s, h);
      info[h] := Info(-1, info[h].status);
      FreeChain(h, s.chains[h].second, s.chains[h].third);
      chains := chains - {h};
      assert View() == Ended(s, h);
    }

    /** Follow the chain from its head to the descriptor without a next. */
    method FreeChain(h: nat, ghost m: nat, ghost t: nat)
      requires Shape() && h < NUM && m < NUM && t < NUM && h != m && h != t && m != t
      requires !free[h] && !free[m] && !free[t] && desc[h].hasNext && desc[h].next == m && desc[m].hasNext
      requires desc[m].next == t && !desc[t].hasNext
      modifies free, desc
      ensures free[..] == old(free[..])[h := true][m := true][t := true]
      ensures desc[..] == old(desc[..])[h := NoDesc()][m := NoDesc()][t := NoDesc()]
    {
      var i, going := h, true;
      ghost var left := 3;
      while going
        invariant 0 <= left <= 3 && (going <==> left > 0) && (left == 3 ==> i == h) && (left == 2 ==> i == m)
        invariant (left == 1 ==> i == t)
        invariant left == 3 ==> free[..] == old(free[..]) && desc[..] == old(desc[..])
        invariant left == 2 ==> free[..] == old(free[..])[h := true] && desc[..] == old(desc[..])[h := NoDesc()]
        invariant left == 1 ==>
          free[..] == old(free[..])[h := true][m := true] && desc[..] == old(desc[..])[h := NoDesc()][m := NoDesc()]
        invariant left == 0 ==> free[..] == old(free[..])[h := true][m := true][t := true]
        invariant left == 0 ==> desc[..] == old(desc[..])[h := NoDesc()][m := NoDesc()][t := NoDesc()]
        decreases left
      {
        var flag, nxt := desc[i].hasNext, desc[i].next;
        var panic := FreeDesc(i);
        assert !panic;
        if flag {
          i := nxt;
        } else {
          going := false;
        }
        left := left - 1;
      }
    }
  }

  lemma RingsThere(s: State)
    requires Inv(s)
    ensures |s.free| == |s.desc| == |s.ops| == |s.info| == |s.avail| == |s.used| == NUM && s.availIdx < WRAP
  {
  }

  /** The contents of free descriptors do not matter. */
  lemma ContentsFree(s: State, s': State)
    requires Inv(s) && s' == s.(desc := s'.desc) && |s'.desc| == NUM
    requires forall k :: 0 <= k < NUM && !s.free[k] ==> s'.desc[k] == s.desc[k]
    ensures Inv(s')
  {
    hide RingOk, Apart, AllOwned, BusyOk, Different;
    forall h | h in s'.chains
      ensures ChainOk(s', h, s'.chains[h])
    {
      assert ChainOk(s, h, s.chains[h]);
    }
  }

  lemma SubmitIs(s: State, s': State, h: nat, m: nat, t: nat, buf: nat, write: bool, blockno: nat)
    requires |s.free| == |s.desc| == |s.ops| == |s.info| == |s.avail| == NUM && h < NUM && m < NUM && t < NUM
    requires s'.free == s.free[h := false][m := false][t := false]
    requires s'.desc == s.desc[h := HeadDesc(h, m)][m := DataDesc(buf, write, t)][t := StatusDesc(h)]
    requires s'.ops == s.ops[h := Header16(write, SectorOf(blockno))]
    requires s'.info == s.info[h := Info(buf, 0xff)] && s'.busy == s.busy + {buf}
    requires s'.avail == s.avail[s.availIdx % NUM := h] && s'.availIdx == (s.availIdx + 1) % WRAP
    requires s'.chains == s.chains[h := NewChain(s, m, t, buf, write, blockno)] && s'.sub == s.sub + [h]
    requires s'.nextReq == s.nextReq + 1
    requires s' == s.(free := s'.free, desc := s'.desc, ops := s'.ops, info := s'.info, busy := s'.busy,
                         avail := s'.avail, availIdx := s'.availIdx, chains := s'.chains, sub := s'.sub,
                         nextReq := s'.nextReq)
    ensures s' == Submitted(s, h, m, t, buf, write, blockno)
  {
  }

  lemma ReallyFinished(s: State, h: nat)
    requires Inv(s) && h in s.chains && s.chains[h].buf !in s.busy
    ensures s.chains[h].phase == Finished && s.chains[h].req in s.finished
  {
    hide RingOk, Apart, AllOwned, BusyOk, Different;
    assert ChainOk(s, h, s.chains[h]);
  }
}
