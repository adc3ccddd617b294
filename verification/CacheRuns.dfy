/** Runs of the buffer cache: which buffers may be recycled, and when a block keeps its newest
    contents. */
module CacheRuns {
  import opened BufferCache
  import opened CacheMachine

  ghost predicate Path(ss: seq<State>, ls: seq<Step>) {
    && |ss| == |ls| + 1
    && forall i :: 0 <= i < |ls| ==> Next(ss[i], ls[i], ss[i + 1])
  }

  ghost predicate Run(ss: seq<State>, ls: seq<Step>) {
    Path(ss, ls) && Init(ss[0])
  }

  lemma {:induction false} PathInv(ss: seq<State>, ls: seq<Step>, i: nat)
    requires Path(ss, ls) && Inv(ss[0]) && i < |ss|
    ensures Inv(ss[i])
  {
    hide Inv, Next;
    if i > 0 {
      PathInv(ss, ls, i - 1);
      StepKeeps(ss[i - 1], ls[i - 1], ss[i]);
    }
  }

  lemma RunInv(ss: seq<State>, ls: seq<Step>, i: nat)
    requires Run(ss, ls) && i < |ss|
    ensures Inv(ss[i])
  {
    hide Inv, Next, Init;
    InitInv(ss[0]);
    PathInv(ss, ls, i);
  }

  /** Two buffers stand for one block only if it is block 0 of device 0, with which they all start. */
  lemma SharedOnlyBlank(ss: seq<State>, ls: seq<Step>, i: nat, a: nat, b: nat)
    requires Run(ss, ls) && i < |ss| && a < b < |ss[i].c.bufs| && Key(ss[i].c.bufs[a]) == Key(ss[i].c.bufs[b])
    ensures Key(ss[i].c.bufs[a]) == BLANK
  {
    hide Next, Init, WellFormed, Counts, Claims, LogOk, Pinned, Retained;
    RunInv(ss, ls, i);
  }

  // ---------------------------------------------------------------- logged blocks

  /** A buffer is pinned exactly while its block is in the log header and not installed, once. */
  lemma PinsExact(ss: seq<State>, ls: seq<Step>, i: nat, b: nat)
    requires Run(ss, ls) && i < |ss| && b < |ss[i].c.bufs|
    ensures |ss[i].pins| == |ss[i].c.bufs| && ss[i].log.tail <= |ss[i].log.lh|
    ensures ss[i].pins[b] == if Pending(ss[i].log, Key(ss[i].c.bufs[b])) then 1 else 0
    ensures ss[i].c.bufs[b].refcnt == |On(ss[i].claims, b)| + ss[i].pins[b]
  {
    hide Next, Init, WellFormed, Claims, Unique, Retained, Pending;
    RunInv(ss, ls, i);
  }

  lemma PendingCached(s: State, key: (nat, nat)) returns (b: nat)
    requires Inv(s) && Pending(s.log, key)
    ensures b < |s.c.bufs| && Key(s.c.bufs[b]) == key && s.c.bufs[b].valid && s.pins[b] == 1 && s.c.bufs[b].refcnt > 0
  {
    hide WellFormed, Claims, Unique, On;
    assert !Uncached(s, key);
    b :| 0 <= b < |s.c.bufs| && Key(s.c.bufs[b]) == key;
    assert s.pins[b] == 1;
  }

  lemma PendingStays(s: State, l: Step, s': State, b: nat)
    requires Inv(s) && Next(s, l, s') && b < |s.c.bufs| && s.pins[b] > 0
    ensures b < |s'.c.bufs| && Key(s'.c.bufs[b]) == Key(s.c.bufs[b]) && s'.c.bufs[b].valid
  {
    hide Counts, Claims, Unique, Uncached, Missing, Hit, Victim, LogOk, Retained;
    if l.Get? && Missing(s.c, l.key.0, l.key.1) {
      VictimUnclaimed(s, l.b);
    }
  }

  /** As long as a block is in the header and not installed, one buffer keeps it: it is valid, and
      bget never recycles it. */
  lemma {:induction false} LoggedStays(ss: seq<State>, ls: seq<Step>, i: nat, j: nat, key: (nat, nat)) returns (b: nat)
    requires Run(ss, ls) && i <= j < |ss|
    requires forall k :: i <= k <= j ==> ss[k].log.tail <= |ss[k].log.lh| && Pending(ss[k].log, key)
    ensures forall k :: i <= k <= j ==>
      b < |ss[k].c.bufs| && Key(ss[k].c.bufs[b]) == key && ss[k].c.bufs[b].valid && ss[k].c.bufs[b].refcnt > 0
    decreases j
  {
    hide Inv, Next, Init, Pending;
    RunInv(ss, ls, j);
    if i == j {
      b := PendingCached(ss[j], key);
    } else {
      b := LoggedStays(ss, ls, i, j - 1, key);
      RunInv(ss, ls, j - 1);
      PinnedOne(ss[j - 1], key, b);
      PendingStays(ss[j - 1], ls[j - 1], ss[j], b);
      PinnedOne(ss[j], key, b);
    }
  }

  lemma PinnedOne(s: State, key: (nat, nat), b: nat)
    requires Inv(s) && b < |s.c.bufs| && Key(s.c.bufs[b]) == key && Pending(s.log, key)
    ensures s.pins[b] == 1 && s.c.bufs[b].refcnt > 0
  {
    hide WellFormed, Claims, Unique, Retained, Uncached, On;
  }

  // ---------------------------------------------------------------- the newest contents

  ghost predicate Held(s: State, b: nat) {
    exists x :: x in s.claims && s.claims[x].b == b && s.claims[x].phase == Holding
  }

  /** Reading the block, from its buffer or from the disk, gives its newest contents. */
  ghost predicate Current(s: State, k: (nat, nat))
    requires s.newest.Keys == s.disk.Keys && k in s.disk
  {
    && (forall b :: 0 <= b < |s.c.bufs| && Key(s.c.bufs[b]) == k ==>
          (if s.c.bufs[b].valid then s.c.bufs[b].data else s.disk[k]) == s.newest[k])
    && (Uncached(s, k) ==> s.newest[k] == s.disk[k])
  }

  /** The buffer is pinned or agrees with the disk; if `held`, it may instead be held. */
  ghost predicate Backed(s: State, k: (nat, nat), b: nat, held: bool)
    requires b < |s.c.bufs| == |s.pins| && k in s.disk
  {
    s.pins[b] > 0 || (held && Held(s, b)) || s.c.bufs[b].data == s.disk[k]
  }

  ghost predicate Kept(s: State, k: (nat, nat), held: bool)
    requires s.newest.Keys == s.disk.Keys && |s.pins| == |s.c.bufs|
  {
    && k in s.disk && Current(s, k)
    && (forall b :: 0 <= b < |s.c.bufs| && Key(s.c.bufs[b]) == k && s.c.bufs[b].valid ==> Backed(s, k, b, held))
  }

  /** x holds the buffer of block k. */
  ghost predicate For(s: State, x: nat, k: (nat, nat)) {
    x in s.claims && s.claims[x].key == k
  }

  /** brelse of a buffer of block k that is neither pinned nor equal to the disk. */
  ghost predicate DirtyRelease(s: State, l: Step, k: (nat, nat)) {
    && l.Unlock? && Has(s, l.x, Holding) && For(s, l.x, k) && k in s.disk
    && s.pins[s.claims[l.x].b] == 0 && s.c.bufs[s.claims[l.x].b].data != s.disk[k]
  }

  ghost predicate Touches(s: State, l: Step, k: (nat, nat)) {
    l.Modify? && For(s, l.x, k)
  }

  lemma HeldSame(s: State, s': State, b: nat)
    requires forall y :: y in s.claims && s.claims[y].phase == Holding && s.claims[y].b == b ==>
      y in s'.claims && s'.claims[y] == s.claims[y]
    ensures Held(s, b) ==> Held(s', b)
  {
    if Held(s, b) {
      var y :| y in s.claims && s.claims[y].b == b && s.claims[y].phase == Holding;
      assert s'.claims[y] == s.claims[y];
    }
  }

  lemma RecycleKept(s: State, x: nat, b: nat, key: (nat, nat), s': State, k: (nat, nat), held: bool)
    requires Inv(s) && Next(s, Get(x, b, key), s') && Missing(s.c, key.0, key.1) && Kept(s, k, held)
    ensures |s'.pins| == |s'.c.bufs| && s'.newest.Keys == s'.disk.Keys && Kept(s', k, held)
  {
    hide On, Missing, Victim, Hit, Counts, Unique, Claims, LogOk, Pinned, Retained, WellFormed;
    MissingUncached(s, key);
    VictimUnclaimed(s, b);
    assert !Held(s, b);
    if Key(s.c.bufs[b]) == k {
      assert s.newest[k] == s.disk[k] by {
        assert s.c.bufs[b].valid ==> Backed(s, k, b, held);
      }
    }
    forall a | 0 <= a < |s.c.bufs| && a != b && Key(s.c.bufs[a]) == k && s.c.bufs[a].valid
      ensures Backed(s', k, a, held)
    {
      HeldSame(s, s', a);
      assert Backed(s, k, a, held);
    }
    if Key(s.c.bufs[b]) != k && Uncached(s', k) {
      RecycleOthers(s, b, key, s', k);
    }
  }

  lemma RecycleOthers(s: State, b: nat, key: (nat, nat), s': State, k: (nat, nat))
    requires b < |s.c.bufs| && s'.c == Recycle(s.c, b, key.0, key.1) && Uncached(s', k) && Key(s.c.bufs[b]) != k
    ensures Uncached(s, k)
  {
    forall a | 0 <= a < |s.c.bufs|
      ensures Key(s.c.bufs[a]) != k
    {
      assert a != b ==> s'.c.bufs[a] == s.c.bufs[a];
    }
  }

  /** What a step that recycles nothing does to the buffer of block k, if it has one. */
  lemma BufferKept(s: State, l: Step, s': State, k: (nat, nat), held: bool, b: nat)
    requires Inv(s) && Next(s, l, s') && !(l.Get? && Missing(s.c, l.key.0, l.key.1)) && Kept(s, k, held) && k != BLANK
    requires if held then !DirtyRelease(s, l, k) else !Touches(s, l, k)
    requires b < |s.c.bufs| && Key(s.c.bufs[b]) == k
    ensures StillKept(s', k, b, held)
  {
    hide On, Missing, Victim, Hit, Counts, LogOk, Pinned, Retained, WellFormed, Uncached, Moved, Unique, Claims, Held;
    if l.Fill? || l.Modify? || l.Write? || l.Unlock? || l.LogWrite? || l.Install? {
      hide StillKept;
      HolderKept(s, l, s', k, held, b);
    } else {
      assert s.c.bufs[b].valid ==> Backed(s, k, b, held);
      HeldSame(s, s', b);
    }
  }

  ghost predicate StillKept(s: State, k: (nat, nat), b: nat, held: bool) {
    && b < |s.c.bufs| == |s.pins| && Key(s.c.bufs[b]) == k && k in s.disk && k in s.newest
    && (if s.c.bufs[b].valid then s.c.bufs[b].data else s.disk[k]) == s.newest[k]
    && (s.c.bufs[b].valid ==> Backed(s, k, b, held))
  }

  lemma HolderKept(s: State, l: Step, s': State, k: (nat, nat), held: bool, b: nat)
    requires Inv(s) && Next(s, l, s') && Kept(s, k, held) && k != BLANK && b < |s.c.bufs| && Key(s.c.bufs[b]) == k
    requires l.Fill? || l.Modify? || l.Write? || l.Unlock? || l.LogWrite? || l.Install?
    requires if held then !DirtyRelease(s, l, k) else !Touches(s, l, k)
    ensures StillKept(s', k, b, held)
  {
    hide On, Counts, LogOk, Pinned, Retained, WellFormed, Uncached, Claims, Unique;
    assert s.c.bufs[b].valid ==> Backed(s, k, b, held);
    OtherKey(s, l.x, b);
    if !l.Unlock? || s.claims[l.x].b != b {
      HeldSame(s, s', b);
    }
    if s.claims[l.x].b == b && !l.Unlock? {
      assert s'.claims[l.x].b == b;
      assert Held(s', b);
    }
    hide Held;
  }

  lemma OtherKey(s: State, x: nat, b: nat)
    requires Claims(s) && Unique(s.c.bufs) && x in s.claims && b < |s.c.bufs| && Key(s.c.bufs[b]) != BLANK
    ensures s.claims[x].b < |s.c.bufs| && Key(s.c.bufs[s.claims[x].b]) == s.claims[x].key
    ensures s.claims[x].b == b <==> s.claims[x].key == Key(s.c.bufs[b])
  {
  }

  /** A block that is not cached is not touched. */
  lemma UncachedKept(s: State, l: Step, s': State, k: (nat, nat))
    requires Inv(s) && Next(s, l, s') && k in s.disk && Uncached(s, k)
    ensures k in s'.disk && k in s'.newest && s'.disk[k] == s.disk[k] && s'.newest[k] == s.newest[k]
  {
    hide On, Missing, Victim, Hit, Counts, Unique, LogOk, Pinned, Retained, WellFormed, Moved;
    if l.Modify? || l.Write? || l.Install? {
      assert Key(s.c.bufs[s.claims[l.x].b]) == s.claims[l.x].key;
    }
  }

  lemma StepKept(s: State, l: Step, s': State, k: (nat, nat), held: bool)
    requires Inv(s) && Next(s, l, s') && Kept(s, k, held) && k != BLANK
    requires if held then !DirtyRelease(s, l, k) else !Touches(s, l, k)
    ensures Inv(s') && Kept(s', k, held)
  {
    hide On, Victim, Hit, Counts, Unique, Claims, LogOk, Pinned, Retained, WellFormed, Held, Moved;
    StepKeeps(s, l, s');
    if l.Get? && Missing(s.c, l.key.0, l.key.1) {
      RecycleKept(s, l.x, l.b, l.key, s', k, held);
    } else {
      StepKeys(s, l, s');
      SameKeys(s, s');
      hide Missing, Next;
      forall b | 0 <= b < |s'.c.bufs| && Key(s'.c.bufs[b]) == k
        ensures (if s'.c.bufs[b].valid then s'.c.bufs[b].data else s'.disk[k]) == s'.newest[k]
        ensures s'.c.bufs[b].valid ==> Backed(s', k, b, held)
      {
        BufferKept(s, l, s', k, held, b);
      }
      if Uncached(s, k) {
        UncachedKept(s, l, s', k);
      }
      StepDisk(s, l, s');
    }
  }

  lemma StepKeys(s: State, l: Step, s': State)
    requires Inv(s) && Next(s, l, s') && !(l.Get? && Missing(s.c, l.key.0, l.key.1))
    ensures |s'.c.bufs| == |s.c.bufs| && forall b :: 0 <= b < |s.c.bufs| ==> Key(s'.c.bufs[b]) == Key(s.c.bufs[b])
  {
    hide On, Victim, Hit, Missing, Counts, Unique, Claims, LogOk, Pinned, Retained, Moved;
  }

  lemma StepSize(s: State, l: Step, s': State)
    requires Inv(s) && Next(s, l, s')
    ensures |s'.c.bufs| == |s.c.bufs|
  {
    hide On, Victim, Hit, Missing, Counts, Unique, LogOk, Pinned, Retained, Moved, Claims;
  }

  lemma StepDisk(s: State, l: Step, s': State)
    requires Inv(s) && Next(s, l, s')
    ensures s'.disk.Keys == s.disk.Keys && |s'.c.bufs| == |s.c.bufs|
  {
    hide On, Victim, Hit, Missing, Counts, Unique, LogOk, Pinned, Retained, Moved, WellFormed, Claims;
    StepSize(s, l, s');
    if l.Write? || l.Install? {
      HolderKey(s, l.x);
    }
  }

  lemma HolderKey(s: State, x: nat)
    requires Inv(s) && x in s.claims
    ensures s.claims[x].key in s.disk
  {
    hide On, Counts, Unique, LogOk, Pinned, Retained, WellFormed;
  }

  // ---------------------------------------------------------------- clean releases keep the newest contents

  ghost predicate CleanReleases(ss: seq<State>, ls: seq<Step>, k: (nat, nat), n: nat)
    requires n <= |ls| < |ss|
  {
    forall i :: 0 <= i < n ==> !DirtyRelease(ss[i], ls[i], k)
  }

  ghost predicate Untouched(ss: seq<State>, ls: seq<Step>, k: (nat, nat))
    requires |ls| < |ss|
  {
    forall i :: 0 <= i < |ls| ==> !Touches(ss[i], ls[i], k)
  }

  lemma InitKept(s: State, k: (nat, nat))
    requires Init(s) && k in s.disk && k != BLANK
    ensures Kept(s, k, true)
  {
  }

  lemma {:induction false} CleanKept(ss: seq<State>, ls: seq<Step>, k: (nat, nat), i: nat)
    requires Run(ss, ls) && i < |ss| && k in ss[0].disk && k != BLANK && CleanReleases(ss, ls, k, i)
    ensures Inv(ss[i]) && Kept(ss[i], k, true)
  {
    hide Inv, Next, Init, Kept, DirtyRelease;
    RunInv(ss, ls, i);
    if i == 0 {
      InitKept(ss[0], k);
    } else {
      CleanKept(ss, ls, k, i - 1);
      StepKept(ss[i - 1], ls[i - 1], ss[i], k, true);
    }
  }

  /** As long as every release of a block's buffer finds it pinned or equal to the disk, whoever
      holds the buffer that bread returned sees the block's newest contents. No other buffer
      stands for the block, and nobody else holds it. */
  lemma BreadNewest(ss: seq<State>, ls: seq<Step>, i: nat, x: nat)
    requires Run(ss, ls) && i < |ss| && Reads(ss[i], x) && ss[i].claims[x].key != BLANK
    requires CleanReleases(ss, ls, ss[i].claims[x].key, i)
    ensures var s := ss[i];
      var b, key := s.claims[x].b, s.claims[x].key;
      && key in s.newest && s.c.bufs[b].data == s.newest[key] && Key(s.c.bufs[b]) == key
      && (forall a :: 0 <= a < |s.c.bufs| && a != b ==> Key(s.c.bufs[a]) != key)
      && (forall y :: y in s.claims && y != x && s.claims[y].b == b ==> s.claims[y].phase != Holding)
  {
    hide Next, Init, Counts, Uncached, Held, Backed, LogOk, Pinned, Retained, CleanReleases;
    RunInv(ss, ls, i);
    InitInv(ss[0]);
    DiskKeys(ss, ls, i);
    CleanKept(ss, ls, ss[i].claims[x].key, i);
  }

  lemma {:induction false} DiskKeys(ss: seq<State>, ls: seq<Step>, i: nat)
    requires Path(ss, ls) && Inv(ss[0]) && i < |ss|
    ensures ss[i].disk.Keys == ss[0].disk.Keys && |ss[i].c.bufs| == |ss[0].c.bufs|
  {
    hide Inv, Next;
    if i > 0 {
      DiskKeys(ss, ls, i - 1);
      PathInv(ss, ls, i - 1);
      StepDisk(ss[i - 1], ls[i - 1], ss[i]);
    }
  }

  lemma {:induction false} SettledPath(ss: seq<State>, ls: seq<Step>, k: (nat, nat), i: nat)
    requires Path(ss, ls) && Inv(ss[0]) && k != BLANK && Kept(ss[0], k, false) && i < |ss| && Untouched(ss, ls, k)
    ensures Inv(ss[i]) && Kept(ss[i], k, false)
  {
    hide Inv, Next, Kept, Touches;
    if i > 0 {
      SettledPath(ss, ls, k, i - 1);
      StepKept(ss[i - 1], ls[i - 1], ss[i], k, false);
    }
  }
}
