/** What a release that is neither pinned nor equal to the disk costs: the contents can be lost,
    because nothing keeps bget from recycling the buffer. */
module CacheLoss {
  import opened BufferCache
  import opened CacheMachine
  import opened CacheRuns
  import opened Lists

  /** Some steps that do not store into block k lead from s to t. */
  ghost predicate Leads(s: State, t: State, k: (nat, nat)) {
    exists ss: seq<State>, ls: seq<Step> :: Trip(ss, ls, s, t, k)
  }

  ghost predicate Trip(ss: seq<State>, ls: seq<Step>, s: State, t: State, k: (nat, nat)) {
    Path(ss, ls) && Untouched(ss, ls, k) && ss[0] == s && ss[|ls|] == t
  }

  lemma Stay(s: State, k: (nat, nat))
    ensures Leads(s, s, k)
  {
    assert Trip([s], [], s, s, k);
  }

  lemma Joined(ss: seq<State>, ls: seq<Step>, l: Step, s: State, t: State, u: State, k: (nat, nat))
    requires Trip(ss, ls, s, t, k) && Next(t, l, u) && !Touches(t, l, k)
    ensures Trip(ss + [u], ls + [l], s, u, k)
  {
    hide Next, Touches;
    var us, ms := ss + [u], ls + [l];
    forall i | 0 <= i < |ms|
      ensures Next(us[i], ms[i], us[i + 1]) && !Touches(us[i], ms[i], k)
    {
      if i < |ls| {
        assert us[i] == ss[i] && us[i + 1] == ss[i + 1] && ms[i] == ls[i];
      } else {
        assert us[i] == t && us[i + 1] == u && ms[i] == l;
      }
    }
  }

  /** One more step. */
  lemma Then(s: State, t: State, l: Step, u: State, k: (nat, nat))
    requires Leads(s, t, k) && Next(t, l, u) && !Touches(t, l, k) && Inv(t)
    ensures Leads(s, u, k) && Inv(u)
  {
    hide Trip, Next, Touches, Inv;
    StepKeeps(t, l, u);
    var ss: seq<State>, ls: seq<Step> :| Trip(ss, ls, s, t, k);
    Joined(ss, ls, l, s, t, u, k);
  }

  // ---------------------------------------------------------------- every claim on a buffer can end

  /** Buffer b of block k is valid and unpinned and nobody holds it; what it, the disk and `newest` say. */
  ghost predicate Idle(s: State, b: nat, k: (nat, nat), data: Block, disk: Blocks, newest: Blocks) {
    && Inv(s) && b < |s.c.bufs| && Key(s.c.bufs[b]) == k && s.c.bufs[b].valid && s.c.bufs[b].data == data
    && s.pins[b] == 0 && !Held(s, b) && s.disk == disk && s.newest == newest
  }

  ghost function Front(order: seq<nat>, i: nat): seq<nat>
    requires i < |order|
  {
    [order[i]] + order[..i] + order[i + 1..]
  }

  /** The state after brelse has dropped claim x. */
  lemma Dropped(s: State, x: nat) returns (t: State)
    requires Inv(s) && Has(s, x, Leaving)
    ensures Next(s, Drop(x), t)
  {
    hide Counts, Claims, Unique, LogOk, Pinned, Retained;
    var b := s.claims[x].b;
    var i := Everyone(s.c.order, |s.c.bufs|, b);
    var u := s.c.bufs[b].(refcnt := Less(s.c.bufs[b].refcnt));
    var order := if u.refcnt == 0 then Front(s.c.order, i) else s.c.order;
    t := s.(claims := s.claims - {x}, c := Cache(s.c.bufs[b := u], order));
    if u.refcnt == 0 {
      assert Moved(s.c.order, order, b);
    }
  }

  lemma DropIdle(s: State, x: nat, t: State, b: nat, k: (nat, nat), data: Block, disk: Blocks, newest: Blocks)
    requires Idle(s, b, k, data, disk, newest) && Next(s, Drop(x), t)
    ensures Idle(t, b, k, data, disk, newest)
    ensures |On(t.claims, b)| == |On(s.claims, b)| - (if s.claims[x].b == b then 1 else 0)
  {
    hide Inv, Moved;
    StepKeeps(s, Drop(x), t);
    OnRemove(s.claims, x, b);
    assert forall y :: y in t.claims ==> y in s.claims && t.claims[y] == s.claims[y];
  }

  /** A thread that waits for an idle buffer gets it and releases it unchanged. */
  lemma WaitIdle(s: State, x: nat, b: nat, k: (nat, nat), data: Block, disk: Blocks, newest: Blocks)
    returns (t: State, u: State)
    requires Idle(s, b, k, data, disk, newest) && Has(s, x, Waiting) && s.claims[x].b == b
    ensures Next(s, Lock(x), t) && Next(t, Unlock(x), u) && Inv(t) && Idle(u, b, k, data, disk, newest)
    ensures On(u.claims, b) == On(s.claims, b) && Has(u, x, Leaving) && u.claims[x].b == b
  {
    hide Inv, WellFormed;
    t := SetPhase(s, x, Holding);
    assert forall y :: y in s.claims && s.claims[y].b == b ==> s.claims[y].phase != Holding;
    StepKeeps(s, Lock(x), t);
    u := SetPhase(t, x, Leaving);
    StepKeeps(t, Unlock(x), u);
    assert On(u.claims, b) == On(s.claims, b);
    assert forall y :: y in u.claims && y != x ==> u.claims[y] == s.claims[y];
  }

  lemma {:induction false} Drain(s: State, b: nat, k: (nat, nat), data: Block, disk: Blocks, newest: Blocks)
    returns (t: State)
    requires Idle(s, b, k, data, disk, newest)
    ensures Leads(s, t, k) && Idle(t, b, k, data, disk, newest) && t.c.bufs[b].refcnt == 0
    decreases |On(s.claims, b)|
  {
    hide Leads, Next;
    if |On(s.claims, b)| == 0 {
      t := s;
      Stay(s, k);
      assert Counts(s);
    } else {
      var x :| x in On(s.claims, b);
      var u := s;
      Stay(s, k);
      if s.claims[x].phase == Waiting {
        var w;
        w, u := WaitIdle(s, x, b, k, data, disk, newest);
        Then(s, s, Lock(x), w, k);
        Then(s, w, Unlock(x), u, k);
      }
      var v := Dropped(u, x);
      Then(s, u, Drop(x), v, k);
      DropIdle(u, x, v, b, k, data, disk, newest);
      t := Drain(v, b, k, data, disk, newest);
      LeadsOn(s, v, t, k);
    }
  }

  lemma {:induction false} LeadsOn(s: State, t: State, u: State, k: (nat, nat))
    requires Leads(s, t, k) && Leads(t, u, k)
    ensures Leads(s, u, k)
  {
    hide Trip;
    var ss: seq<State>, ls: seq<Step> :| Trip(ss, ls, s, t, k);
    var us: seq<State>, ms: seq<Step> :| Trip(us, ms, t, u, k);
    Chained(ss, ls, us, ms, s, t, u, k);
    assert Trip(ss + us[1..], ls + ms, s, u, k);
  }

  lemma Chained(ss: seq<State>, ls: seq<Step>, us: seq<State>, ms: seq<Step>, s: State, t: State, u: State, k: (nat, nat))
    requires Trip(ss, ls, s, t, k) && Trip(us, ms, t, u, k)
    ensures |us| > 0 && Trip(ss + us[1..], ls + ms, s, u, k)
  {
    hide Next, Touches;
    var vs, ns := ss + us[1..], ls + ms;
    forall i | 0 <= i < |ns|
      ensures Next(vs[i], ns[i], vs[i + 1]) && !Touches(vs[i], ns[i], k)
    {
      if i < |ls| {
        assert vs[i] == ss[i] && vs[i + 1] == ss[i + 1] && ns[i] == ls[i];
      } else {
        var j := i - |ls|;
        assert vs[i] == us[j] && vs[i + 1] == us[j + 1] && ns[i] == ms[j];
      }
    }
  }

  // ---------------------------------------------------------------- every idle buffer can be recycled

  lemma {:induction false} Above(m: set<nat>) returns (n: nat)
    ensures forall x :: x in m ==> x < n
  {
    if m == {} {
      n := 0;
    } else {
      var x :| x in m;
      n := Above(m - {x});
      n := if x < n then n else x + 1;
      assert forall y :: y in m ==> y == x || y in m - {x};
    }
  }

  ghost function KeysOf(bufs: seq<Buf>): (r: set<(nat, nat)>)
    ensures |r| <= |bufs| && forall b :: 0 <= b < |bufs| ==> Key(bufs[b]) in r
  {
    if bufs == [] then {} else KeysOf(bufs[..|bufs| - 1]) + {Key(bufs[|bufs| - 1])}
  }

  /** The disk has more blocks than the cache has buffers, so one is not cached. */
  lemma SomeUncached(s: State) returns (key: (nat, nat))
    requires |s.disk.Keys| > |s.c.bufs|
    ensures key in s.disk && Uncached(s, key)
  {
    var cached := KeysOf(s.c.bufs);
    if s.disk.Keys <= cached {
      SubsetSize(s.disk.Keys, cached);
    }
    key :| key in s.disk.Keys && key !in cached;
  }

  /** The last free buffer from position i on, which is free. */
  lemma LastFree(c: Cache, i: nat) returns (j: nat)
    requires WellFormed(c) && i < |c.order| && c.bufs[c.order[i]].refcnt == 0
    ensures i <= j < |c.order| && c.bufs[c.order[j]].refcnt == 0 && Victim(c, c.order[j])
    decreases |c.order| - i
  {
    if n :| i < n < |c.order| && c.bufs[c.order[n]].refcnt == 0 {
      j := LastFree(c, n);
    } else {
      j := i;
    }
  }

  /** bget of block `key`, which is not cached, by a new thread. */
  lemma Recycled(s: State, v: nat, key: (nat, nat)) returns (x: nat, t: State)
    requires Inv(s) && Victim(s.c, v) && v < |s.c.bufs| && key in s.disk && Uncached(s, key)
    ensures Next(s, Get(x, v, key), t) && Inv(t) && t.c == Recycle(s.c, v, key.0, key.1)
    ensures x !in s.claims && t.claims == s.claims[x := Claim(v, key, Waiting)]
    ensures t.disk == s.disk && t.newest == s.newest && t.pins == s.pins
    ensures s.pins[v] == 0 && forall y :: y in s.claims ==> s.claims[y].b != v
  {
    hide Counts, Claims, Unique, LogOk, Pinned, Retained, Victim;
    VictimUnclaimed(s, v);
    x := Above(s.claims.Keys);
    t := s.(c := Recycle(s.c, v, key.0, key.1), claims := s.claims[x := Claim(v, key, Waiting)]);
    assert Missing(s.c, key.0, key.1) by {
      forall i | 0 <= i < |s.c.order|
        ensures !Matches(s.c, i, key.0, key.1)
      {
        assert Key(s.c.bufs[s.c.order[i]]) != key;
      }
    }
    hide Inv, Missing, WellFormed, Uncached;
    StepKeeps(s, Get(x, v, key), t);
  }

  ghost function FreeAfter(c: Cache, i: nat): set<nat>
    requires WellFormed(c)
  {
    set j | i < j < |c.order| && c.bufs[c.order[j]].refcnt == 0
  }

  /** Thread x waits alone for buffer b, which has just been recycled, and block k is not cached. */
  ghost predicate Gone(s: State, x: nat, b: nat, k: (nat, nat), disk: Blocks, newest: Blocks) {
    && Inv(s) && Uncached(s, k) && s.disk == disk && s.newest == newest
    && Has(s, x, Waiting) && s.claims[x].b == b && s.claims[x].key in disk && !s.c.bufs[b].valid
    && s.pins[b] == 0 && forall y :: y in s.claims && y != x ==> s.claims[y].b != b
  }

  lemma NowGone(s: State, b: nat, k: (nat, nat), data: Block, disk: Blocks, newest: Blocks) returns (x: nat, t: State)
    requires Idle(s, b, k, data, disk, newest) && Victim(s.c, b) && |disk.Keys| > |s.c.bufs| && k != BLANK
    ensures Leads(s, t, k) && Gone(t, x, b, k, disk, newest)
  {
    hide Leads, Next, Victim, Counts, Claims, LogOk, Pinned, Retained;
    var key := SomeUncached(s);
    x, t := Recycled(s, b, key);
    Stay(s, k);
    Then(s, s, Get(x, b, key), t, k);
    forall a | 0 <= a < |t.c.bufs|
      ensures Key(t.c.bufs[a]) != k
    {
      assert a != b ==> t.c.bufs[a] == s.c.bufs[a];
    }
  }

  lemma StillIdle(s: State, v: nat, x: nat, key: (nat, nat), t: State, b: nat, k: (nat, nat),
                  data: Block, disk: Blocks, newest: Blocks)
    requires Idle(s, b, k, data, disk, newest) && Inv(t) && v < |s.c.bufs| && v != b && x !in s.claims
    requires t.c == Recycle(s.c, v, key.0, key.1) && t.claims == s.claims[x := Claim(v, key, Waiting)]
    requires t.disk == s.disk && t.newest == s.newest && t.pins == s.pins
    ensures Idle(t, b, k, data, disk, newest)
  {
    hide Inv;
    assert forall y :: y in t.claims && y != x ==> y in s.claims && t.claims[y] == s.claims[y];
  }

  /** Readers of other blocks take the free buffers in turn until it is b's. */
  lemma {:induction false} Expose(s: State, i: nat, b: nat, k: (nat, nat), data: Block, disk: Blocks, newest: Blocks)
    returns (x: nat, t: State)
    requires Idle(s, b, k, data, disk, newest) && s.c.bufs[b].refcnt == 0 && k != BLANK
    requires i < |s.c.order| && s.c.order[i] == b && |disk.Keys| > |s.c.bufs|
    ensures Leads(s, t, k) && Gone(t, x, b, k, disk, newest)
    decreases |FreeAfter(s.c, i)|
  {
    hide Leads, Next, Victim, Counts, Claims, Unique, LogOk, Pinned, Retained, Held, Gone;
    var j := LastFree(s.c, i);
    if j == i {
      x, t := NowGone(s, b, k, data, disk, newest);
    } else {
      var v := s.c.order[j];
      var key := SomeUncached(s);
      var y, u := Recycled(s, v, key);
      Stay(s, k);
      Then(s, s, Get(y, v, key), u, k);
      StillIdle(s, v, y, key, u, b, k, data, disk, newest);
      FewerFree(s.c, u.c, i, j, key);
      x, t := Expose(u, i, b, k, data, disk, newest);
      LeadsOn(s, u, t, k);
    }
  }

  lemma FewerFree(c: Cache, c': Cache, i: nat, j: nat, key: (nat, nat))
    requires WellFormed(c) && i < j < |c.order| && c.bufs[c.order[j]].refcnt == 0
    requires c' == Recycle(c, c.order[j], key.0, key.1) && WellFormed(c')
    ensures |FreeAfter(c', i)| < |FreeAfter(c, i)|
  {
    assert j in FreeAfter(c, i) && j !in FreeAfter(c', i);
    assert FreeAfter(c', i) == FreeAfter(c, i) - {j};
  }

  // ---------------------------------------------------------------- and then bread returns the disk's contents

  /** The reader of the recycled buffer finishes. */
  lemma Finish(s: State, x: nat, b: nat, k: (nat, nat), disk: Blocks, newest: Blocks) returns (t: State)
    requires Gone(s, x, b, k, disk, newest)
    ensures Leads(s, t, k) && Inv(t) && Uncached(t, k) && t.disk == disk && t.newest == newest
    ensures b < |t.c.bufs| && t.c.bufs[b].refcnt == 0
  {
    hide Leads, Counts, Claims, Unique, LogOk, Pinned, Retained;
    var s1 := SetPhase(s, x, Holding);
    Stay(s, k);
    Then(s, s, Lock(x), s1, k);
    var s2 := SetBuf(s1, b, s1.c.bufs[b].(valid := true, data := disk[s.claims[x].key]));
    Then(s, s1, Fill(x), s2, k);
    var s3 := SetPhase(s2, x, Leaving);
    Then(s, s2, Unlock(x), s3, k);
    t := Dropped(s3, x);
    Then(s, s3, Drop(x), t, k);
    assert Key(s2.c.bufs[b]) == Key(s.c.bufs[b]);
    hide Inv;
    SameKeys(s, t);
    assert On(t.claims, b) == {};
    assert t.c.bufs[b].refcnt == 0 by { CountOf(t, b); }
  }

  lemma CountOf(s: State, b: nat)
    requires Inv(s) && b < |s.c.bufs|
    ensures s.c.bufs[b].refcnt == |On(s.claims, b)| + s.pins[b]
  {
    hide Claims, Unique, LogOk, Pinned, Retained, On;
  }

  lemma ReadBack(s: State, b: nat, k: (nat, nat), disk: Blocks, newest: Blocks) returns (x: nat, t: State)
    requires Inv(s) && Uncached(s, k) && s.disk == disk && s.newest == newest && k in disk
    requires b < |s.c.bufs| && s.c.bufs[b].refcnt == 0
    ensures Leads(s, t, k) && t.newest == newest && Reads(t, x)
    ensures t.claims[x].key == k && t.c.bufs[t.claims[x].b].data == disk[k]
  {
    hide Leads, Counts, Claims, Unique, LogOk, Pinned, Retained, Victim, Uncached;
    var i := Everyone(s.c.order, |s.c.bufs|, b);
    var j := LastFree(s.c, i);
    var v := s.c.order[j];
    var s1;
    x, s1 := Recycled(s, v, k);
    Stay(s, k);
    Then(s, s, Get(x, v, k), s1, k);
    var s2 := SetPhase(s1, x, Holding);
    Then(s, s1, Lock(x), s2, k);
    t := SetBuf(s2, v, s2.c.bufs[v].(valid := true, data := disk[k]));
    Then(s, s2, Fill(x), t, k);
  }

  // ---------------------------------------------------------------- releases and losses

  /** Somebody holds the buffer that bread returned for block k and does not see its newest contents. */
  ghost predicate Stale(s: State, k: (nat, nat)) {
    exists x :: Reads(s, x) && For(s, x, k) && k in s.newest && s.c.bufs[s.claims[x].b].data != s.newest[k]
  }

  ghost predicate Releases(s: State, l: Step, k: (nat, nat)) {
    l.Unlock? && For(s, l.x, k)
  }

  lemma Released(s: State, x: nat, s': State, k: (nat, nat))
    requires Inv(s) && Next(s, Unlock(x), s') && Kept(s, k, true) && For(s, x, k) && k != BLANK
    ensures s'.pins == s.pins && s'.c == s.c && s'.disk == s.disk && s'.newest == s.newest && !Held(s', s.claims[x].b)
    ensures var b := s.claims[x].b; b < |s.c.bufs| && s.c.bufs[b].data == s.newest[k]
    ensures forall a :: 0 <= a < |s.c.bufs| ==> (Key(s.c.bufs[a]) == k <==> a == s.claims[x].b)
  {
    hide On, WellFormed, Counts, LogOk, Pinned, Retained, Uncached, Backed;
    OtherKey(s, x, s.claims[x].b);
  }

  /** A dirty release can be followed by a recycle, and then a reader sees what the disk has. */
  lemma DirtyIsLost(s: State, x: nat, s': State, k: (nat, nat)) returns (t: State)
    requires Inv(s) && Next(s, Unlock(x), s') && Kept(s, k, true) && DirtyRelease(s, Unlock(x), k)
    requires k != BLANK && |s.disk.Keys| > |s.c.bufs|
    ensures Leads(s', t, k) && Stale(t, k)
  {
    hide Leads, Counts, Claims, Unique, LogOk, Pinned, Retained, Held, Backed, Uncached, Gone, Kept;
    Released(s, x, s', k);
    StepKeeps(s, Unlock(x), s');
    var b := s.claims[x].b;
    var data, disk, newest := s.c.bufs[b].data, s.disk, s.newest;
    assert Idle(s', b, k, data, disk, newest);
    hide Next, Inv;
    var s1 := Drain(s', b, k, data, disk, newest);
    LeadsSize(s', s1, k);
    var i := Position(s1, b);
    var y, s2 := Expose(s1, i, b, k, data, disk, newest);
    LeadsOn(s', s1, s2, k);
    var s3 := Finish(s2, y, b, k, disk, newest);
    LeadsOn(s', s2, s3, k);
    y, t := ReadBack(s3, b, k, disk, newest);
    LeadsOn(s', s3, t, k);
    assert newest[k] == data != disk[k];
  }

  lemma Position(s: State, b: nat) returns (i: nat)
    requires Inv(s) && b < |s.c.bufs|
    ensures i < |s.c.order| && s.c.order[i] == b
  {
    hide Counts, Claims, Unique, LogOk, Pinned, Retained;
    i := Everyone(s.c.order, |s.c.bufs|, b);
  }

  lemma LeadsSize(s: State, t: State, k: (nat, nat))
    requires Inv(s) && Leads(s, t, k)
    ensures |t.c.bufs| == |s.c.bufs|
  {
    hide Inv, Next, Touches;
    var ss: seq<State>, ls: seq<Step> :| Trip(ss, ls, s, t, k);
    DiskKeys(ss, ls, |ls|);
  }

  lemma CleanSettles(s: State, x: nat, s': State, k: (nat, nat))
    requires Inv(s) && Next(s, Unlock(x), s') && Kept(s, k, true) && For(s, x, k) && k != BLANK
    requires !DirtyRelease(s, Unlock(x), k)
    ensures Inv(s') && Kept(s', k, false)
  {
    hide Counts, Claims, Unique, LogOk, Pinned, Retained, Held;
    Released(s, x, s', k);
    StepKeeps(s, Unlock(x), s');
    assert forall a :: Uncached(s', a) <==> Uncached(s, a);
    hide Uncached;
  }

  lemma SettledNotStale(s: State, t: State, k: (nat, nat))
    requires Inv(s) && Kept(s, k, false) && k != BLANK && Leads(s, t, k)
    ensures !Stale(t, k)
  {
    hide Next, Touches;
    var ss: seq<State>, ls: seq<Step> :| Trip(ss, ls, s, t, k);
    hide Inv;
    SettledPath(ss, ls, k, |ls|);
    if x :| Reads(t, x) && For(t, x, k) {
      KeyOf(t, x);
    }
  }

  lemma KeyOf(s: State, x: nat)
    requires Inv(s) && x in s.claims
    ensures s.claims[x].b < |s.c.bufs| && Key(s.c.bufs[s.claims[x].b]) == s.claims[x].key
  {
    hide Counts, Unique, LogOk, Pinned, Retained;
  }

  lemma {:induction false} FirstDirty(ss: seq<State>, ls: seq<Step>, k: (nat, nat), n: nat) returns (i: nat)
    requires n <= |ls| < |ss| && !CleanReleases(ss, ls, k, n)
    ensures i < n && DirtyRelease(ss[i], ls[i], k) && CleanReleases(ss, ls, k, i)
  {
    hide DirtyRelease;
    if CleanReleases(ss, ls, k, n - 1) {
      i := n - 1;
    } else {
      i := FirstDirty(ss, ls, k, n - 1);
    }
  }

  /** Nobody can see other than the newest contents of block k before it is stored into again. */
  ghost predicate Safe(s: State, k: (nat, nat)) {
    forall t :: Leads(s, t, k) ==> !Stale(t, k)
  }

  ghost predicate SafeAfterReleases(ss: seq<State>, ls: seq<Step>, k: (nat, nat))
    requires |ls| < |ss|
  {
    forall i :: 0 <= i < |ls| && Releases(ss[i], ls[i], k) ==> Safe(ss[i + 1], k)
  }

  /** In any run, what was stored in a block is safe after each release of its buffer if and only
      if each release finds the buffer pinned or equal to the disk. */
  lemma NewestKept(ss: seq<State>, ls: seq<Step>, k: (nat, nat))
    requires Run(ss, ls) && k in ss[0].disk && k != BLANK && |ss[0].disk.Keys| > |ss[0].c.bufs|
    ensures CleanReleases(ss, ls, k, |ls|) <==> SafeAfterReleases(ss, ls, k)
  {
    hide Next, Init, Inv, Leads, Stale, Kept, DirtyRelease, Safe, Releases;
    InitInv(ss[0]);
    if CleanReleases(ss, ls, k, |ls|) {
      forall i | 0 <= i < |ls| && Releases(ss[i], ls[i], k)
        ensures Safe(ss[i + 1], k)
      {
        CleanKept(ss, ls, k, i);
        CleanSafe(ss[i], ls[i], ss[i + 1], k);
      }
    } else {
      var i := FirstDirty(ss, ls, k, |ls|);
      CleanKept(ss, ls, k, i);
      DiskKeys(ss, ls, i);
      DirtyUnsafe(ss[i], ls[i], ss[i + 1], k);
    }
  }

  lemma CleanSafe(s: State, l: Step, s': State, k: (nat, nat))
    requires Inv(s) && Next(s, l, s') && Kept(s, k, true) && Releases(s, l, k) && k != BLANK && !DirtyRelease(s, l, k)
    ensures Safe(s', k)
  {
    hide Inv, Leads, Kept, Stale, DirtyRelease, Next;
    CleanSettles(s, l.x, s', k);
    forall t | Leads(s', t, k)
      ensures !Stale(t, k)
    {
      SettledNotStale(s', t, k);
    }
  }

  lemma DirtyUnsafe(s: State, l: Step, s': State, k: (nat, nat))
    requires Inv(s) && Next(s, l, s') && Kept(s, k, true) && DirtyRelease(s, l, k)
    requires k != BLANK && |s.disk.Keys| > |s.c.bufs|
    ensures Releases(s, l, k) && !Safe(s', k)
  {
    hide Inv, Leads, Kept, Stale, Next;
    var t := DirtyIsLost(s, l.x, s', k);
  }

  // ---------------------------------------------------------------- a faulted write that is lost

  /** From boot, bread of block k and a store into it, as writei does before the user's memory faults. */
  lemma Store(s: State, k: (nat, nat), v: Block) returns (ss: seq<State>, ls: seq<Step>, x: nat)
    requires Init(s) && |s.c.bufs| > 0 && k in s.disk && k != BLANK
    ensures Run(ss, ls) && ss[0] == s && CleanReleases(ss, ls, k, |ls|)
    ensures Reads(ss[|ls|], x) && For(ss[|ls|], x, k) && ss[|ls|].disk == s.disk
    ensures var b := ss[|ls|].claims[x].b; ss[|ls|].pins[b] == 0 && ss[|ls|].c.bufs[b].data == v
  {
    hide Counts, Claims, Unique, LogOk, Pinned, Retained, Victim;
    InitInv(s);
    var j := LastFree(s.c, 0);
    var b := s.c.order[j];
    var s1;
    x, s1 := Recycled(s, b, k);
    var s2 := SetPhase(s1, x, Holding);
    var s3 := SetBuf(s2, b, s2.c.bufs[b].(valid := true, data := s.disk[k]));
    var s4 := SetBuf(s3, b, s3.c.bufs[b].(data := v)).(newest := s3.newest[k := v]);
    ss := [s, s1, s2, s3, s4];
    ls := [Get(x, b, k), Lock(x), Fill(x), Modify(x, v)];
    assert Next(s1, Lock(x), s2);
    assert Next(s2, Fill(x), s3);
    assert Next(s3, Modify(x, v), s4);
  }

  lemma Extended(ss: seq<State>, ls: seq<Step>, us: seq<State>, ms: seq<Step>)
    requires Run(ss, ls) && Path(us, ms) && us[0] == ss[|ls|]
    ensures Run(ss + us[1..], ls + ms)
  {
    hide Next, Init;
    var vs, ns := ss + us[1..], ls + ms;
    forall i | 0 <= i < |ns|
      ensures Next(vs[i], ns[i], vs[i + 1])
    {
      if i < |ls| {
        assert vs[i] == ss[i] && vs[i + 1] == ss[i + 1] && ns[i] == ls[i];
      } else {
        var j := i - |ls|;
        assert vs[i] == us[j] && vs[i + 1] == us[j + 1] && ns[i] == ms[j];
      }
    }
  }

  /** A run in which a faulted write is released unlogged, its buffer is recycled, and a reader of
      the block then sees the disk's contents. There is one from every boot state. */
  lemma FaultLoses(s: State, k: (nat, nat), v: Block) returns (ss: seq<State>, ls: seq<Step>)
    requires Init(s) && |s.disk.Keys| > |s.c.bufs| > 0 && k in s.disk && k != BLANK && v != s.disk[k]
    ensures Run(ss, ls) && ss[0] == s && Stale(ss[|ls|], k)
  {
    hide Next, Init, Inv, Kept, Stale, DirtyRelease;
    var x;
    ss, ls, x := Store(s, k, v);
    var t := ss[|ls|];
    CleanKept(ss, ls, k, |ls|);
    var u := SetPhase(t, x, Leaving);
    assert Next(t, Unlock(x), u) by { ReleaseStep(t, x, k, v); }
    Extended(ss, ls, [t, u], [Unlock(x)]);
    InitInv(s);
    DiskKeys(ss, ls, |ls|);
    assert DirtyRelease(t, Unlock(x), k) by { ReleaseStep(t, x, k, v); }
    var w := DirtyIsLost(t, x, u, k);
    var us: seq<State>, ms: seq<Step> :| Trip(us, ms, u, w, k);
    ss, ls := ss + [t, u][1..], ls + [Unlock(x)];
    assert ss[|ls|] == u;
    Extended(ss, ls, us, ms);
    assert (ss + us[1..])[|ls + ms|] == w;
    ss, ls := ss + us[1..], ls + ms;
  }

  lemma ReleaseStep(t: State, x: nat, k: (nat, nat), v: Block)
    requires Reads(t, x) && For(t, x, k) && t.pins[t.claims[x].b] == 0 && t.c.bufs[t.claims[x].b].data == v
    requires k in t.disk && v != t.disk[k]
    ensures Next(t, Unlock(x), SetPhase(t, x, Leaving)) && DirtyRelease(t, Unlock(x), k)
  {
  }
}
