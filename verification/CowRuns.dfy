/** Runs of the copy-on-write machine, and what holds in all of them. */
module CowRuns {
  import opened Frames
  import opened Lists
  import opened CowMachine
  import opened Params
  import opened CowSteps

  /** The state after kinit, kvminit and userinit: one process, whose pages are its own; pages
      that the kernel uses; and every other page on the free list, with counter -1. */
  ghost predicate Init(s: State) {
    && !s.halted && s.kpush == {} && s.procs.Keys == {INIT}
    && (forall pa :: pa in s.k.refcnt ==> Managed(s, pa))
    && InitProc(s, s.procs[INIT])
    && (forall pa :: pa in s.kern ==>
          pa in s.k.refcnt && s.k.refcnt[pa] == 1 && pa !in s.k.free && !InitMaps(s.procs[INIT], pa))
    && NoRepeat(s.k.free)
    && (forall pa :: pa in s.k.free ==> pa in s.k.refcnt)
    && (forall pa :: pa in s.k.refcnt && pa !in s.kern && !InitMaps(s.procs[INIT], pa) ==>
          s.k.refcnt[pa] == -1 && pa in s.k.free)
  }

  ghost predicate InitMaps(pr: Proc, pa: Pa) {
    exists v :: v in pr.pt && pr.pt[v].pa == pa
  }

  ghost predicate InitProc(s: State, pr: Proc) {
    && pr.pc == User && UpTo(pr.pt, pr.np)
    && (forall v :: v in pr.pt ==>
          pr.pt[v].pa in s.k.refcnt && s.k.refcnt[pr.pt[v].pa] == 1 && pr.pt[v].pa !in s.k.free && !pr.pt[v].cow)
    && (forall v, w :: v in pr.pt && w in pr.pt && pr.pt[v].pa == pr.pt[w].pa ==> v == w)
  }

  /** Such a state exists: page 1 belongs to the process, page 2 to the kernel, page 3 is free. */
  lemma InitExists() returns (s: State)
    ensures Init(s) && s.procs[INIT].np > 0 && s.k.free != []
  {
    var page: Page := seq(PGSIZE, _ => 0);
    var pr := Proc(User, map[0 := Leaf(1, true, true, false, true)], 1);
    s := State(map[INIT := pr], Kmem(map[1 := 1, 2 := 1, 3 := -1], [3]), map[1 := page, 2 := page, 3 := page],
               {2}, {}, false);
    assert forall pa :: InitMaps(pr, pa) <==> pa == 1 by {
      assert 0 in pr.pt && pr.pt[0].pa == 1;
    }
  }

  lemma InitTokens(s: State)
    requires Init(s)
    ensures forall t :: t in Own(s) ==>
      Sole(Own(s), t) && Own(s)[t] in s.k.refcnt && s.k.refcnt[Own(s)[t]] == 1 && Own(s)[t] !in s.k.free
    ensures forall pa :: pa in s.k.refcnt && (forall t :: t in Own(s) ==> Own(s)[t] != pa) ==>
      s.k.refcnt[pa] == -1 && pa in s.k.free
    ensures Transit(s) == map[]
  {
    hide Own, Transit;
    var pr := s.procs[INIT];
    assert forall t :: t in Own(s) ==>
      (t.Pte? && t.p == INIT && t.v in pr.pt && Own(s)[t] == pr.pt[t.v].pa)
      || (t.Kernel? && t.pa in s.kern && Own(s)[t] == t.pa);
    forall pa | pa in s.k.refcnt && forall t :: t in Own(s) ==> Own(s)[t] != pa
      ensures s.k.refcnt[pa] == -1 && pa in s.k.free
    {
      assert forall v :: v in pr.pt ==> PageOf(s, Pte(INIT, v)) == Some(pr.pt[v].pa);
      assert PageOf(s, Kernel(pa)) == if pa in s.kern then Some(pa) else None;
    }
    assert forall a :: PushOf(s, a) == None;
  }

  lemma InitConsistent(s: State)
    requires Init(s)
    ensures Consistent(s.k, Own(s), Transit(s))
  {
    hide Own, Transit, Count, InitProc, InitMaps, Sole;
    InitTokens(s);
    forall pa | pa in s.k.refcnt
      ensures PageConsistent(s.k, Own(s), Transit(s), pa)
    {
      CountPositive(Own(s), pa);
      if t :| t in Own(s) && Own(s)[t] == pa {
        SoleIffCountOne(Own(s), t);
      }
    }
  }

  lemma InitOne(s: State)
    requires Init(s)
    ensures INIT in s.procs && OneOk(s, INIT)
  {
    hide Own, Transit, Sole, InitMaps;
    InitTokens(s);
    assert forall v :: v in s.procs[INIT].pt ==> PageOf(s, Pte(INIT, v)).Some?;
  }

  lemma InitKernel(s: State)
    requires Init(s)
    ensures forall pa :: pa in s.kern ==> Managed(s, pa) && Sole(Own(s), Kernel(pa))
    ensures s.procs.Keys == {INIT} && forall pa :: pa in s.k.refcnt ==> Managed(s, pa)
  {
    hide Own, Transit, Sole, InitMaps, InitProc;
    InitTokens(s);
    assert forall pa :: pa in s.kern ==> PageOf(s, Kernel(pa)).Some?;
  }

  lemma InitInv(s: State)
    requires Init(s)
    ensures Inv(s)
  {
    hide Own, Transit, Consistent, Sole, Init, Managed, LocalOk, PagesOk, ChildOk, EntriesOk, HoldOk, CopyOk, ForkOk;
    InitConsistent(s);
    InitOne(s);
    InitKernel(s);
  }

  /** A run: states ss, the steps sts between them and their labels ls. */
  ghost predicate IsRun(ss: seq<State>, sts: seq<Step>, ls: seq<Label>) {
    && |ss| == |sts| + 1 == |ls| + 1
    && Init(ss[0])
    && forall i :: 0 <= i < |sts| ==> Goes(ss[i], sts[i], ls[i], ss[i + 1])
  }

  ghost predicate Goes(s: State, st: Step, l: Label, s': State) {
    Enabled(s, st) && TypeOk(s) && Do(s, st) == (s', l)
  }

  /** A run of the reference model, beside the run ss. */
  ghost predicate EagerRun(es: seq<Eager>, ss: seq<State>, ls: seq<Label>) {
    && |es| == |ss| == |ls| + 1
    && (forall i :: 0 <= i < |es| ==> Shows(ss[i], es[i]))
    && (forall i :: 0 <= i < |ls| ==> EagerStep(es[i], ls[i], es[i + 1]))
  }

  /** Copy-on-write refines eager copying: for every run there is a run of the model in which
      fork copies every page, with the same labels, such that at every moment programs see the
      same memory; and the invariant holds in every state. */
  lemma {:induction false} RunRefinesEager(ss: seq<State>, sts: seq<Step>, ls: seq<Label>) returns (es: seq<Eager>)
    requires IsRun(ss, sts, ls)
    ensures EagerRun(es, ss, ls)
    ensures forall i :: 0 <= i < |ss| ==> Inv(ss[i])
    decreases |sts|
  {
    hide Inv, Shows, EagerStep, Do, Init, Enabled, TypeOk;
    InitInv(ss[0]);
    if |sts| == 0 {
      var e0 := EagerStart(ss[0]);
      es := [e0];
    } else {
      var n := |sts| - 1;
      assert Goes(ss[n], sts[n], ls[n], ss[n + 1]);
      var es0 := RunRefinesEager(ss[..n + 1], sts[..n], ls[..n]);
      assert ss[..n + 1][n] == ss[n];
      var e' := StepKeeps(ss[n], sts[n], es0[n]);
      es := es0 + [e'];
      assert forall i :: 0 <= i < n ==> ls[..n][i] == ls[i];
      assert forall i :: 0 <= i <= n ==> ss[..n + 1][i] == ss[i];
    }
  }

  /** What programs see at the start. */
  lemma EagerStart(s: State) returns (e: Eager)
    requires Init(s)
    ensures Shows(s, e)
  {
    hide InitMaps;
    assert forall pa :: pa in s.k.refcnt ==> Managed(s, pa);
    var m := StartSpace(s, s.procs[INIT]);
    e := map[INIT := m];
    hide ShowsProc, InitProc;
  }

  lemma StartSpace(s: State, pr: Proc) returns (m: Space)
    requires UpTo(pr.pt, pr.np) && forall v :: v in pr.pt ==> pr.pt[v].pa in s.mem
    ensures ShowsProc(s, pr, m)
  {
    m := map v: Vpn | v in pr.pt && pr.pt[v].pa in s.mem ::
      EPage(s.mem[pr.pt[v].pa], pr.pt[v].u, pr.pt[v].w || pr.pt[v].cow, pr.pt[v].x);
  }

  /** A step that the guards allow is never undefined: no page or entry it needs is missing. */
  lemma RunNeverStuck(ss: seq<State>, sts: seq<Step>, ls: seq<Label>)
    requires IsRun(ss, sts, ls)
    ensures TypeOk(ss[|sts|])
  {
    hide Inv, Shows, EagerStep, Do, Init, Enabled, TypeOk;
    var es := RunRefinesEager(ss, sts, ls);
    InvTypeOk(ss[|sts|]);
  }

  lemma CountersOf(s: State, pa: Pa)
    requires Inv(s) && pa in s.k.refcnt
    ensures Count(Own(s), pa) > 0 ==> s.k.refcnt[pa] == Count(Own(s), pa) && pa !in s.k.free
    ensures pa in s.k.free ==> NoRepeat(s.k.free) && forall t :: t in Own(s) ==> Own(s)[t] != pa
    ensures Count(Own(s), pa) > 0 || pa in s.k.free || exists a :: a in Transit(s) && Transit(s)[a] == pa
  {
    hide Own, Transit, TypeOk, EntriesOk, HoldOk, CopyOk, ForkOk, Count;
    assert PageConsistent(s.k, Own(s), Transit(s), pa);
    CountPositive(Own(s), pa);
  }

  /** In every state of every run a counter is the number of references to its page, a page on the
      free list is there once and nobody refers to it, and every page is referred to, free, or
      inside kfree. */
  lemma CountersExact(ss: seq<State>, sts: seq<Step>, ls: seq<Label>, i: nat, pa: Pa)
    requires IsRun(ss, sts, ls) && i < |ss| && pa in ss[i].k.refcnt
    ensures var s := ss[i];
      && (Count(Own(s), pa) > 0 ==> s.k.refcnt[pa] == Count(Own(s), pa) && pa !in s.k.free)
      && (pa in s.k.free ==> NoRepeat(s.k.free) && forall t :: t in Own(s) ==> Own(s)[t] != pa)
      && (Count(Own(s), pa) > 0 || pa in s.k.free || exists a :: a in Transit(s) && Transit(s)[a] == pa)
  {
    hide Inv, Own, Transit, Count, IsRun, NoRepeat;
    var es := RunRefinesEager(ss, sts, ls);
    CountersOf(ss[i], pa);
  }

  lemma PrivateOf(s: State, p: Pid, v: Vpn)
    requires Inv(s) && p in s.procs && Counted(s.procs[p], v) && s.procs[p].pt[v].w
    ensures s.procs[p].pt[v].pa in s.k.refcnt && s.k.refcnt[s.procs[p].pt[v].pa] == 1 && !s.procs[p].pt[v].cow
    ensures forall q, w :: q in s.procs && Counted(s.procs[q], w) && s.procs[q].pt[w].pa == s.procs[p].pt[v].pa ==>
      q == p && w == v
  {
    hide Inv, TypeOk, Own, LocalOk, PagesOk, ChildOk, HoldOk, CopyOk, ForkOk;
    Parts(s, p);
    CounterDecides(s, p, v);
    forall q, w | q in s.procs && Counted(s.procs[q], w) && s.procs[q].pt[w].pa == s.procs[p].pt[v].pa
      ensures q == p && w == v
    {
      assert PageOf(s, Pte(q, w)) == Some(s.procs[q].pt[w].pa);
    }
  }

  lemma SourceOf(s: State, p: Pid)
    requires Inv(s) && p in s.procs && s.procs[p].pc.FaultCopy?
    ensures var pr := s.procs[p];
      && pr.pc.v in pr.pt && pr.pt[pr.pc.v].pa in s.k.refcnt && s.k.refcnt[pr.pt[pr.pc.v].pa] >= 1
      && pr.pt[pr.pc.v].pa !in s.k.free && pr.pt[pr.pc.v].pa != pr.pc.mem
      && pr.pc.mem in s.mem && pr.pt[pr.pc.v].pa in s.mem
      && SamePrefix(s.mem[pr.pc.mem], s.mem[pr.pt[pr.pc.v].pa], pr.pc.k)
  {
    hide Inv, TypeOk, Own, ForkOk, ChildOk, SamePrefix, Count;
    var pr := s.procs[p];
    Parts(s, p);
    CounterDecides(s, p, pr.pc.v);
    assert PageOf(s, Pte(p, pr.pc.v)) == Some(pr.pt[pr.pc.v].pa);
    assert PageOf(s, Hold(p)) == Some(pr.pc.mem);
    CountPositive(Own(s), pr.pt[pr.pc.v].pa);
    CountersOf(s, pr.pt[pr.pc.v].pa);
  }

  /** While handle_cow_fault copies a page, in any interleaving, the source is still counted and
      not free, and what has been copied equals the source as it is now. */
  lemma CopySourceAlive(ss: seq<State>, sts: seq<Step>, ls: seq<Label>, i: nat, p: Pid)
    requires IsRun(ss, sts, ls) && i < |ss| && p in ss[i].procs && ss[i].procs[p].pc.FaultCopy?
    ensures var s, pr := ss[i], ss[i].procs[p];
      pr.pc.v in pr.pt &&
      var pa := pr.pt[pr.pc.v].pa;
      && pa in s.k.refcnt && s.k.refcnt[pa] >= 1 && pa !in s.k.free && pa != pr.pc.mem
      && pr.pc.mem in s.mem && pa in s.mem && SamePrefix(s.mem[pr.pc.mem], s.mem[pa], pr.pc.k)
  {
    hide Inv, Own, IsRun, SamePrefix;
    var es := RunRefinesEager(ss, sts, ls);
    SourceOf(ss[i], p);
  }
}
