/** What every page-table entry may map, counted or not, in every run of the copy-on-write
    machine: entries are exact except while uvmunmap has freed a page and not yet cleared the
    entry. */
module CowEntries {
  import opened Frames
  import opened CowMachine
  import opened CowSteps
  import opened CowRuns

  /** Process p has freed the page of entry v and is about to clear the entry. */
  predicate InWindow(pr: Proc, v: Vpn) {
    (pr.pc.UnmapPush? || pr.pc.UnmapClear?) && pr.pc.cur == v
  }

  /** The process at pc is copying its table to c, whose entry `uncounted` it has yet to count. */
  predicate Copying(pc: Pc, c: Pid, uncounted: Option<Vpn>) {
    match pc
    case ForkPage(d, _) => d == c && uncounted == None
    case ForkIncref(d, i) => d == c && uncounted == Some(i)
    case _ => false
  }

  /** Every half-made child has a parent that is at work on it. */
  ghost predicate Parented(s: State) {
    forall c :: c in s.procs && s.procs[c].pc.Embryo? ==>
      s.procs[c].pc.parent in s.procs && Copying(s.procs[s.procs[c].pc.parent].pc, c, s.procs[c].pc.uncounted)
  }

  predicate Family(pc: Pc) {
    pc.ForkPage? || pc.ForkIncref? || pc.Embryo?
  }

  predicate ForkStepping(st: Step) {
    st.Fork? || st.DoForkPage? || st.DoForkIncref? || st.DoForkDone?
  }

  predicate KernelStep(st: Step) {
    st.KernelAlloc? || st.KernelFree? || st.KernelPush?
  }

  /** A step outside fork moves one process, which has no part in a fork before or after it. */
  ghost predicate Aside(s: State, s': State, p: Pid) {
    && p in s.procs && !Family(s.procs[p].pc) && (p in s'.procs ==> !Family(s'.procs[p].pc))
    && forall q :: q != p ==> (q in s'.procs <==> q in s.procs) && (q in s.procs ==> s'.procs[q] == s.procs[q])
  }

  predicate FaultStep(st: Step) {
    st.DoTest? || st.DoCount? || st.DoUpgrade? || st.DoAlloc? || st.DoCopyByte? || st.DoRemap?
  }

  lemma FaultAside(s: State, st: Step)
    requires TypeOk(s) && Enabled(s, st) && FaultStep(st)
    ensures Aside(s, Do(s, st).0, st.p)
  {
    hide TypeOk;
  }

  lemma OtherAside(s: State, st: Step)
    requires TypeOk(s) && Enabled(s, st) && !FaultStep(st) && !ForkStepping(st) && !KernelStep(st)
    ensures Aside(s, Do(s, st).0, st.p)
  {
    hide TypeOk;
  }

  lemma AsideParented(s: State, s': State, p: Pid)
    requires Parented(s) && Aside(s, s', p)
    ensures Parented(s')
  {
    forall c | c in s'.procs && s'.procs[c].pc.Embryo?
      ensures s'.procs[c].pc.parent in s'.procs
      ensures Copying(s'.procs[s'.procs[c].pc.parent].pc, c, s'.procs[c].pc.uncounted)
    {
      assert c != p && s.procs[c] == s'.procs[c];
    }
  }

  predicate Free(procs: map<Pid, Proc>, p: Pid) {
    p in procs ==> !Family(procs[p].pc)
  }

  /** Parent p is at work on child c. */
  predicate Bound(procs: map<Pid, Proc>, p: Pid, c: Pid) {
    && p in procs && c in procs && p != c
    && procs[c].pc.Embryo? && procs[c].pc.parent == p && Copying(procs[p].pc, c, procs[c].pc.uncounted)
  }

  /** A step of fork moves a parent and its child, or begins or ends their bond. */
  ghost predicate Together(s: State, s': State, p: Pid, c: Pid) {
    && (forall q :: q != p && q != c ==> (q in s'.procs <==> q in s.procs) && (q in s.procs ==>
          s'.procs[q] == s.procs[q]))
    && (Bound(s.procs, p, c) || (Free(s.procs, p) && Free(s.procs, c)))
    && (Bound(s'.procs, p, c) || (Free(s'.procs, p) && Free(s'.procs, c)))
  }

  lemma TogetherParented(s: State, s': State, p: Pid, c: Pid)
    requires Parented(s) && Together(s, s', p, c)
    ensures Parented(s')
  {
    forall d | d in s'.procs && s'.procs[d].pc.Embryo?
      ensures s'.procs[d].pc.parent in s'.procs
      ensures Copying(s'.procs[s'.procs[d].pc.parent].pc, d, s'.procs[d].pc.uncounted)
    {
      if d != p && d != c {
        assert s.procs[d] == s'.procs[d];
        assert s.procs[d].pc.parent != p && s.procs[d].pc.parent != c;
      }
    }
  }

  lemma ForkBegins(s: State, p: Pid, c: Pid)
    requires TypeOk(s) && Enabled(s, Fork(p, c))
    ensures Together(s, Do(s, Fork(p, c)).0, p, c)
  {
    hide TypeOk;
  }

  /** The child of a parent in fork. */
  lemma BoundChild(s: State, p: Pid)
    requires Inv(s) && p in s.procs && (s.procs[p].pc.ForkPage? || s.procs[p].pc.ForkIncref?)
    ensures Bound(s.procs, p, s.procs[p].pc.child)
  {
    hide Own, Transit, Consistent, EntriesOk, HoldOk, CopyOk, TypeOk, UpTo;
    assert ForkOk(s, p);
  }

  lemma ForkGoesOn(s: State, st: Step)
    requires TypeOk(s) && Enabled(s, st) && (st.DoForkPage? || st.DoForkIncref? || st.DoForkDone?)
    requires Bound(s.procs, st.p, s.procs[st.p].pc.child)
    ensures Together(s, Do(s, st).0, st.p, s.procs[st.p].pc.child)
  {
    hide TypeOk, Together, Bound;
    match st {
      case DoForkPage(p, mapped) => PageTogether(s, p, mapped);
      case DoForkIncref(p) => IncrefTogether(s, p);
      case DoForkDone(p) => DoneTogether(s, p);
    }
  }

  lemma PageTogether(s: State, p: Pid, mapped: bool)
    requires TypeOk(s) && Enabled(s, DoForkPage(p, mapped)) && Bound(s.procs, p, s.procs[p].pc.child)
    ensures Together(s, ForkPageStep(s, p, mapped).0, p, s.procs[p].pc.child)
  {
    hide TypeOk;
  }

  lemma IncrefTogether(s: State, p: Pid)
    requires TypeOk(s) && Enabled(s, DoForkIncref(p)) && Bound(s.procs, p, s.procs[p].pc.child)
    ensures Together(s, ForkIncrefStep(s, p).0, p, s.procs[p].pc.child)
  {
    hide TypeOk;
  }

  lemma DoneTogether(s: State, p: Pid)
    requires TypeOk(s) && Enabled(s, DoForkDone(p)) && Bound(s.procs, p, s.procs[p].pc.child)
    ensures Together(s, ForkDoneStep(s, p).0, p, s.procs[p].pc.child)
  {
    hide TypeOk;
  }

  lemma ForkParented(s: State, st: Step)
    requires Inv(s) && Enabled(s, st) && Parented(s) && ForkStepping(st)
    ensures Parented(Do(s, st).0)
  {
    hide Inv, Parented, Enabled, TypeOk, Do, Bound, Together;
    InvTypeOk(s);
    if st.Fork? {
      ForkBegins(s, st.p, st.c);
      TogetherParented(s, Do(s, st).0, st.p, st.c);
    } else {
      ForkingPc(s, st);
      BoundChild(s, st.p);
      ForkGoesOn(s, st);
      TogetherParented(s, Do(s, st).0, st.p, s.procs[st.p].pc.child);
    }
  }

  lemma ForkingPc(s: State, st: Step)
    requires Enabled(s, st) && ForkStepping(st) && !st.Fork?
    ensures st.p in s.procs && (s.procs[st.p].pc.ForkPage? || s.procs[st.p].pc.ForkIncref?)
  {
  }

  lemma StepParented(s: State, st: Step)
    requires Inv(s) && Enabled(s, st) && Parented(s)
    ensures Parented(Do(s, st).0)
  {
    hide Inv, Parented, Enabled, TypeOk, Aside;
    InvTypeOk(s);
    if ForkStepping(st) {
      ForkParented(s, st);
    } else if KernelStep(st) {
      KernelParented(s, st);
    } else if FaultStep(st) {
      FaultAside(s, st);
      AsideParented(s, Do(s, st).0, st.p);
    } else {
      OtherAside(s, st);
      AsideParented(s, Do(s, st).0, st.p);
    }
  }

  lemma KernelParented(s: State, st: Step)
    requires TypeOk(s) && Enabled(s, st) && Parented(s) && KernelStep(st)
    ensures Parented(Do(s, st).0)
  {
    hide TypeOk;
  }

  lemma {:induction false} RunParented(ss: seq<State>, sts: seq<Step>, ls: seq<Label>, i: nat)
    requires IsRun(ss, sts, ls) && i < |ss|
    ensures Inv(ss[i]) && Parented(ss[i])
  {
    hide Inv, Init, Do, Enabled, TypeOk, Parented;
    var es := RunRefinesEager(ss, sts, ls);
    if i == 0 {
      InitParented(ss[0]);
    } else {
      RunParented(ss, sts, ls, i - 1);
      assert Goes(ss[i - 1], sts[i - 1], ls[i - 1], ss[i]);
      StepParented(ss[i - 1], sts[i - 1]);
    }
  }

  lemma InitParented(s: State)
    requires Init(s)
    ensures Parented(s)
  {
    hide InitMaps;
  }

  // ---------------------------------------------------------------- entries and pages

  /** The page is on the free list or inside kfree. */
  ghost predicate Loose(s: State, pa: Pa) {
    pa in s.k.free || exists a :: a in Transit(s) && Transit(s)[a] == pa
  }

  lemma OwnedNotLoose(s: State, t: Token)
    requires Inv(s) && t in Own(s)
    ensures !Loose(s, Own(s)[t]) && Own(s)[t] in s.k.refcnt && s.k.refcnt[Own(s)[t]] >= 1
  {
    hide Own, Transit, TypeOk, EntriesOk, HoldOk, CopyOk, ForkOk, Count;
    var pa := Own(s)[t];
    assert PageConsistent(s.k, Own(s), Transit(s), pa);
    CountPositive(Own(s), pa);
    assert forall a :: a in Transit(s) ==> Transit(s)[a] in Transit(s).Values;
  }

  /** Each entry is counted, or is the child's entry that the parent at work is about to count and
      has counted itself, or its page has been dropped. */
  lemma EntryIs(s: State, p: Pid, v: Vpn)
    requires Inv(s) && Parented(s) && p in s.procs && v in s.procs[p].pt && !InWindow(s.procs[p], v)
    ensures var pr := s.procs[p];
      || (Pte(p, v) in Own(s) && Own(s)[Pte(p, v)] == pr.pt[v].pa)
      || (pr.pc.Embryo? && pr.pc.uncounted == Some(v) && pr.pc.parent in s.procs && !pr.pt[v].w
          && s.procs[pr.pc.parent].pc == ForkIncref(p, v)
          && Pte(pr.pc.parent, v) in Own(s) && Own(s)[Pte(pr.pc.parent, v)] == pr.pt[v].pa
          && v in s.procs[pr.pc.parent].pt && !s.procs[pr.pc.parent].pt[v].w)
  {
    hide Own, Transit, Consistent, EntriesOk, HoldOk, CopyOk, TypeOk;
    var pr := s.procs[p];
    if Counted(pr, v) {
      assert PageOf(s, Pte(p, v)) == Some(pr.pt[v].pa);
    } else {
      var q := pr.pc.parent;
      assert Copying(s.procs[q].pc, p, Some(v));
      assert ForkOk(s, q);
      assert Counted(s.procs[q], v);
      assert PageOf(s, Pte(q, v)) == Some(pr.pt[v].pa);
    }
  }

  /** A page is loose exactly when its counter is not positive. */
  lemma LooseIs(s: State, pa: Pa)
    requires Inv(s) && pa in s.k.refcnt
    ensures Loose(s, pa) <==> s.k.refcnt[pa] <= 0
  {
    hide Own, Transit, TypeOk, EntriesOk, HoldOk, CopyOk, ForkOk, Count;
    assert PageConsistent(s.k, Own(s), Transit(s), pa);
    assert forall a :: a in Transit(s) ==> Transit(s)[a] in Transit(s).Values;
    if pa in Transit(s).Values {
      var a :| a in Transit(s) && Transit(s)[a] == pa;
    }
  }

  lemma EntryManaged(s: State, p: Pid, v: Vpn)
    requires Inv(s) && p in s.procs && v in s.procs[p].pt
    ensures s.procs[p].pt[v].pa in s.k.refcnt
  {
    hide Own, Transit, Consistent, EntriesOk, HoldOk, CopyOk, ForkOk, LocalOk, ChildOk;
    assert PagesOk(s, s.procs[p]);
  }

  /** In every state of every run, an entry maps a page that is free or being freed if and only if
      its process has just dropped the page in uvmunmap, is about to clear the entry, and the page's
      counter is not positive: the reference was the last one and nobody has been given the page. */
  lemma MappedNotFree(ss: seq<State>, sts: seq<Step>, ls: seq<Label>, i: nat, p: Pid, v: Vpn)
    requires IsRun(ss, sts, ls) && i < |ss| && p in ss[i].procs && v in ss[i].procs[p].pt
    ensures var s, pa := ss[i], ss[i].procs[p].pt[v].pa;
      pa in s.k.refcnt && (Loose(s, pa) <==> InWindow(s.procs[p], v) && s.k.refcnt[pa] <= 0)
  {
    hide Inv, IsRun, Own, Loose, Parented;
    RunParented(ss, sts, ls, i);
    EntryManaged(ss[i], p, v);
    LooseIs(ss[i], ss[i].procs[p].pt[v].pa);
    if !InWindow(ss[i].procs[p], v) {
      EntryIs(ss[i], p, v);
      if Pte(p, v) in Own(ss[i]) && Own(ss[i])[Pte(p, v)] == ss[i].procs[p].pt[v].pa {
        OwnedNotLoose(ss[i], Pte(p, v));
      } else {
        OwnedNotLoose(ss[i], Pte(ss[i].procs[p].pc.parent, v));
      }
    }
  }

  lemma EntryPrivate(s: State, p: Pid, v: Vpn, q: Pid, w: Vpn)
    requires Inv(s) && Parented(s) && p in s.procs && v in s.procs[p].pt && s.procs[p].pt[v].w
    requires !InWindow(s.procs[p], v)
    requires q in s.procs && w in s.procs[q].pt && !InWindow(s.procs[q], w)
    requires s.procs[q].pt[w].pa == s.procs[p].pt[v].pa
    ensures q == p && w == v
  {
    hide Inv, Own, Parented, TypeOk, LocalOk, PagesOk, ChildOk, HoldOk, CopyOk, ForkOk;
    EntryIs(s, p, v);
    EntryIs(s, q, w);
    CountedEntry(s, p, v);
    Parts(s, p);
    assert Sole(Own(s), Pte(p, v));
  }

  lemma CountedEntry(s: State, p: Pid, v: Vpn)
    requires Pte(p, v) in Own(s)
    ensures p in s.procs && Counted(s.procs[p], v) && Own(s)[Pte(p, v)] == s.procs[p].pt[v].pa
  {
    assert PageOf(s, Pte(p, v)).Some?;
  }

  /** In every state of every run a writable entry maps a page with counter 1 and is not
      copy-on-write, and no other entry maps that page, counted or not: outside the moment between
      kfree and the clearing of an entry, for either of them. */
  lemma WritableIsPrivate(ss: seq<State>, sts: seq<Step>, ls: seq<Label>, i: nat, p: Pid, v: Vpn)
    requires IsRun(ss, sts, ls) && i < |ss| && p in ss[i].procs && v in ss[i].procs[p].pt
    requires ss[i].procs[p].pt[v].w && !InWindow(ss[i].procs[p], v)
    ensures var s := ss[i];
      var l := s.procs[p].pt[v];
      && l.pa in s.k.refcnt && s.k.refcnt[l.pa] == 1 && !l.cow
      && (forall q, w :: q in s.procs && w in s.procs[q].pt && !InWindow(s.procs[q], w) && s.procs[q].pt[w].pa == l.pa ==>
            q == p && w == v)
  {
    hide Inv, IsRun, Own, Parented;
    RunParented(ss, sts, ls, i);
    EntryIs(ss[i], p, v);
    CountedEntry(ss[i], p, v);
    PrivateOf(ss[i], p, v);
    forall q, w | q in ss[i].procs && w in ss[i].procs[q].pt && !InWindow(ss[i].procs[q], w)
      && ss[i].procs[q].pt[w].pa == ss[i].procs[p].pt[v].pa
      ensures q == p && w == v
    {
      EntryPrivate(ss[i], p, v, q, w);
    }
  }

  // ---------------------------------------------------------------- inside the window

  /** A run goes on with any step that is enabled. */
  lemma Extend(ss: seq<State>, sts: seq<Step>, ls: seq<Label>, st: Step)
    requires IsRun(ss, sts, ls) && Enabled(ss[|sts|], st)
    ensures TypeOk(ss[|sts|])
    ensures IsRun(ss + [Do(ss[|sts|], st).0], sts + [st], ls + [Do(ss[|sts|], st).1])
  {
    hide Init, Do, Enabled, TypeOk;
    RunNeverStuck(ss, sts, ls);
    var n := |sts|;
    var ss', sts', ls' := ss + [Do(ss[n], st).0], sts + [st], ls + [Do(ss[n], st).1];
    forall i | 0 <= i < |sts'|
      ensures Goes(ss'[i], sts'[i], ls'[i], ss'[i + 1])
    {
      if i < n {
        assert ss'[i] == ss[i] && ss'[i + 1] == ss[i + 1] && sts'[i] == sts[i] && ls'[i] == ls[i];
      }
    }
  }

  /** The process is about to drop the page of entry 0, which it alone refers to. */
  ghost predicate Dropping(s: State, pc: Pc, pa: Pa, counter: int) {
    && !s.halted && INIT in s.procs && 0 in s.procs[INIT].pt && s.procs[INIT].pt[0].pa == pa && s.procs[INIT].pc == pc
    && pa in s.k.refcnt && s.k.refcnt[pa] == counter
  }

  lemma ShrinkBegins(s: State)
    requires Init(s) && s.procs[INIT].np > 0
    ensures Enabled(s, Sbrk(INIT, 0)) && TypeOk(s) && INIT in s.procs && 0 in s.procs[INIT].pt
    ensures Dropping(Do(s, Sbrk(INIT, 0)).0, Unmap(0, s.procs[INIT].np, false), s.procs[INIT].pt[0].pa, 1)
  {
    hide TypeOk;
    assert TypeOk(s) by {
      InitInv(s);
      InvTypeOk(s);
    }
  }

  lemma ShrinkDrops(s: State, np: nat, pa: Pa)
    requires TypeOk(s) && Dropping(s, Unmap(0, np, false), pa, 1) && np > 0
    ensures Enabled(s, DoUnmap(INIT)) && Dropping(Do(s, DoUnmap(INIT)).0, UnmapPush(0, np, false), pa, 0)
  {
    hide TypeOk;
  }

  lemma ShrinkFrees(s: State, np: nat, pa: Pa)
    requires TypeOk(s) && Dropping(s, UnmapPush(0, np, false), pa, 0)
    ensures Enabled(s, DoPush(INIT)) && var s' := Do(s, DoPush(INIT)).0;
      Dropping(s', UnmapClear(0, np, false), pa, 0) && s'.k.free == [pa] + s.k.free
  {
    hide TypeOk;
  }

  lemma ShrinkLoses(s: State, np: nat, pa: Pa)
    requires TypeOk(s) && Dropping(s, UnmapClear(0, np, false), pa, 0) && s.k.free != [] && s.k.free[0] == pa
    ensures Enabled(s, KernelAlloc) && var s' := Do(s, KernelAlloc).0;
      Dropping(s', UnmapClear(0, np, false), pa, 1) && pa in s'.kern
  {
    hide TypeOk;
  }

  /** The exception is real: from every start in which the process has a page, it gives the
      page back with sbrk, uvmunmap frees it, and the kernel gives it to somebody else while the
      entry still maps it. */
  lemma FreedWhileMapped(s: State) returns (ss: seq<State>, sts: seq<Step>, ls: seq<Label>, pa: Pa)
    requires Init(s) && s.procs[INIT].np > 0
    ensures IsRun(ss, sts, ls) && |ss| == 5 && ss[0] == s
    ensures forall i :: 3 <= i < 5 ==>
      INIT in ss[i].procs && 0 in ss[i].procs[INIT].pt && InWindow(ss[i].procs[INIT], 0) && ss[i].procs[INIT].pt[0].pa == pa
    ensures pa in ss[3].k.free && pa in ss[4].kern
  {
    hide Init, Do, Enabled, TypeOk;
    ShrinkBegins(s);
    var np := s.procs[INIT].np;
    pa := s.procs[INIT].pt[0].pa;
    ss, sts, ls := [s], [], [];
    Extend(ss, sts, ls, Sbrk(INIT, 0));
    ss, sts, ls := ss + [Do(s, Sbrk(INIT, 0)).0], sts + [Sbrk(INIT, 0)], ls + [Do(s, Sbrk(INIT, 0)).1];
    RunNeverStuck(ss, sts, ls);
    ShrinkDrops(ss[1], np, pa);
    Extend(ss, sts, ls, DoUnmap(INIT));
    ss, sts, ls := ss + [Do(ss[1], DoUnmap(INIT)).0], sts + [DoUnmap(INIT)], ls + [Do(ss[1], DoUnmap(INIT)).1];
    RunNeverStuck(ss, sts, ls);
    ShrinkFrees(ss[2], np, pa);
    Extend(ss, sts, ls, DoPush(INIT));
    ss, sts, ls := ss + [Do(ss[2], DoPush(INIT)).0], sts + [DoPush(INIT)], ls + [Do(ss[2], DoPush(INIT)).1];
    RunNeverStuck(ss, sts, ls);
    ShrinkLoses(ss[3], np, pa);
    Extend(ss, sts, ls, KernelAlloc);
    ss, sts, ls := ss + [Do(ss[3], KernelAlloc).0], sts + [KernelAlloc], ls + [Do(ss[3], KernelAlloc).1];
  }

  // ---------------------------------------------------------------- panics

  /** uvmcopy's mappages finds no memory after the child has got a page. */
  ghost predicate ForkFails(s: State, st: Step) {
    st.DoForkPage? && !st.mapped && st.p in s.procs && s.procs[st.p].pc.ForkPage? && s.procs[st.p].pc.i > 0
  }

  /** Init exits, or is killed because a store of its own cannot be repaired. */
  ghost predicate InitDies(s: State, st: Step) {
    match st
    case Exit(p) => p == INIT
    case DoTest(p) =>
      && p == INIT && p in s.procs && s.procs[p].pc.FaultTest? && s.procs[p].pc.why.Trap?
      && var v := s.procs[p].pc.v; !(v in s.procs[p].pt && s.procs[p].pt[v].u && s.procs[p].pt[v].cow)
    case DoAlloc(p, _) => p == INIT && p in s.procs && s.procs[p].pc.FaultAlloc? && s.procs[p].pc.why.Trap? && s.k.free == []
    case _ => false
  }

  lemma HaltsOnly(s: State, st: Step)
    requires TypeOk(s) && Enabled(s, st)
    ensures Do(s, st).0.halted <==> ForkFails(s, st) || InitDies(s, st)
  {
    hide TypeOk;
  }

  /** In any run the machine has panicked if and only if some fork ran out of memory with a page
      already in the child, which is what `Vm.Fork` proves of the page tables, or init has died. */
  lemma {:induction false} HaltsExactly(ss: seq<State>, sts: seq<Step>, ls: seq<Label>)
    requires IsRun(ss, sts, ls)
    ensures ss[|sts|].halted <==> exists j :: 0 <= j < |sts| && (ForkFails(ss[j], sts[j]) || InitDies(ss[j], sts[j]))
    decreases |sts|
  {
    hide Init, Do, Enabled, TypeOk, ForkFails, InitDies;
    NotHalted(ss[0]);
    if |sts| > 0 {
      var n := |sts| - 1;
      assert Goes(ss[n], sts[n], ls[n], ss[n + 1]);
      HaltsOnly(ss[n], sts[n]);
      EnabledRuns(ss[n], sts[n]);
      var ss', sts' := ss[..n + 1], sts[..n];
      HaltsExactly(ss', sts', ls[..n]);
      forall j | 0 <= j < n
        ensures !ForkFails(ss[j], sts[j]) && !InitDies(ss[j], sts[j])
      {
        assert ss'[j] == ss[j] && sts'[j] == sts[j];
      }
    }
  }

  lemma NotHalted(s: State)
    requires Init(s)
    ensures !s.halted
  {
  }

  lemma EnabledRuns(s: State, st: Step)
    requires Enabled(s, st)
    ensures !s.halted
  {
  }
}
