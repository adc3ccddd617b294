/** What every step of `CowMachine` keeps, and how the eager model follows it. */
module CowSteps {
  import opened Frames
  import opened CowMachine
  import opened Params

  // ---------------------------------------------------------------- framing

  predicate Touched(t: Token, ps: set<Pid>, kernel: bool) {
    match t
    case Pte(p, _) => p in ps
    case Hold(p) => p in ps
    case Kernel(_) => kernel
  }

  /** A page that the touched tokens already referred to, or that nobody did. */
  ghost predicate Inherited(s: State, pa: Pa, ps: set<Pid>, kernel: bool) {
    || (exists u :: u in Own(s) && Touched(u, ps, kernel) && Own(s)[u] == pa)
    || (forall u :: u in Own(s) ==> Own(s)[u] != pa)
  }

  /** A step from s to s' that changes only the processes `ps` and, if `kernel`, the pages of
      the rest of the kernel. */
  ghost predicate Frame(s: State, s': State, ps: set<Pid>, kernel: bool) {
    && SameProcs(s, s', ps)
    && (kernel || s'.kern == s.kern)
    && s'.k.refcnt.Keys == s.k.refcnt.Keys
    && (forall pa :: pa in s'.k.refcnt ==> Managed(s', pa))
    && (forall t :: t in Own(s') && Touched(t, ps, kernel) ==> Inherited(s, Own(s')[t], ps, kernel))
    && (forall t :: t in Own(s) && !Touched(t, ps, kernel) ==> SameContents(s, s', Own(s)[t]))
  }

  ghost predicate SameProcs(s: State, s': State, ps: set<Pid>) {
    && (forall q :: q !in ps ==> (q in s'.procs <==> q in s.procs))
    && (forall q :: q !in ps && q in s.procs ==> s'.procs[q] == s.procs[q])
    && (forall c :: c in ps && c in s.procs && s.procs[c].pc.Embryo? ==> s.procs[c].pc.parent in ps)
  }

  ghost predicate SameContents(s: State, s': State, pa: Pa) {
    pa in s.mem && pa in s'.mem && s'.mem[pa] == s.mem[pa]
  }

  lemma OtherToken(s: State, s': State, ps: set<Pid>, kernel: bool, t: Token)
    requires Inv(s) && Frame(s, s', ps, kernel) && !Touched(t, ps, kernel)
    ensures t in Own(s') <==> t in Own(s)
    ensures t in Own(s) ==> Own(s')[t] == Own(s)[t]
    ensures Sole(Own(s), t) ==> Sole(Own(s'), t)
  {
    hide Inv, Counted, Held, Own;
    assert PageOf(s', t) == PageOf(s, t);
    if Sole(Own(s), t) {
      forall u | u in Own(s') && Own(s')[u] == Own(s')[t]
        ensures u == t
      {
        if !Touched(u, ps, kernel) {
          assert PageOf(s', u) == PageOf(s, u);
        }
      }
    }
  }

  lemma OtherEntry(s: State, s': State, ps: set<Pid>, kernel: bool, q: Pid, v: Vpn)
    requires Inv(s) && Frame(s, s', ps, kernel) && q in s.procs && q !in ps && Counted(s.procs[q], v)
    ensures SameContents(s, s', s.procs[q].pt[v].pa)
    ensures Sole(Own(s), Pte(q, v)) ==> Sole(Own(s'), Pte(q, v))
  {
    hide Inv, Sole, Own;
    assert PageOf(s, Pte(q, v)).Some?;
    OtherToken(s, s', ps, kernel, Pte(q, v));
  }

  lemma OtherTypeOk(s: State, s': State, ps: set<Pid>, kernel: bool, q: Pid)
    requires Inv(s) && Frame(s, s', ps, kernel) && q in s.procs && q !in ps
    ensures LocalOk(s.procs[q]) && PagesOk(s', s.procs[q]) && ChildOk(s', s.procs[q])
  {
    hide LocalOk, Own, Consistent, Held, Pushing, EntriesOk, HoldOk, CopyOk, Inherited;
    assert PagesOk(s, s.procs[q]) && ChildOk(s, s.procs[q]) && ForkOk(s, q);
  }

  lemma OtherEntriesOk(s: State, s': State, ps: set<Pid>, kernel: bool, q: Pid)
    requires Inv(s) && Frame(s, s', ps, kernel) && q in s.procs && q !in ps
    ensures q in s'.procs && EntriesOk(s', q)
  {
    hide Own, Consistent, PagesOk, ChildOk, HoldOk, CopyOk, Inherited, Sole, ForkOk, SameContents;
    var pr := s.procs[q];
    assert EntriesOk(s, q) && LocalOk(pr);
    forall v | Counted(pr, v) && Sole(Own(s), Pte(q, v))
      ensures Sole(Own(s'), Pte(q, v))
    {
      OtherEntry(s, s', ps, kernel, q, v);
    }
  }

  lemma OtherHoldOk(s: State, s': State, ps: set<Pid>, kernel: bool, q: Pid)
    requires Inv(s) && Frame(s, s', ps, kernel) && q in s.procs && q !in ps
    ensures q in s'.procs && HoldOk(s', q) && CopyOk(s', q)
  {
    hide Own, Consistent, PagesOk, ChildOk, EntriesOk, Inherited, Sole, ForkOk, SamePrefix;
    var pr := s.procs[q];
    assert HoldOk(s, q) && LocalOk(pr) && CopyOk(s, q);
    OtherToken(s, s', ps, kernel, Hold(q));
    if pr.pc.FaultCopy? {
      assert PageOf(s, Hold(q)) == Some(pr.pc.mem);
      assert SameContents(s, s', Own(s)[Hold(q)]);
      OtherEntry(s, s', ps, kernel, q, pr.pc.v);
    }
  }

  lemma OtherForkOk(s: State, s': State, ps: set<Pid>, kernel: bool, q: Pid)
    requires Inv(s) && Frame(s, s', ps, kernel) && q in s.procs && q !in ps
    ensures q in s'.procs && ForkOk(s', q)
  {
    hide Own, Consistent, PagesOk, ChildOk, EntriesOk, HoldOk, CopyOk, Inherited, Sole, LocalOk;
    assert ForkOk(s, q);
  }

  lemma OtherShows(s: State, s': State, ps: set<Pid>, kernel: bool, q: Pid, m: Space)
    requires Inv(s) && Frame(s, s', ps, kernel) && q in s.procs && q !in ps && Visible(s.procs[q])
    requires ShowsProc(s, s.procs[q], m)
    ensures ShowsProc(s', s.procs[q], m)
  {
    hide Own, Consistent, PagesOk, ChildOk, EntriesOk, HoldOk, CopyOk, Inherited, Sole, ForkOk, Frame;
    var pr := s.procs[q];
    assert LocalOk(pr);
    forall v | 0 <= v < pr.np
      ensures ShowsPage(s', pr.pt[v], m[v])
    {
      assert ShowsPage(s, pr.pt[v], m[v]);
      OtherEntry(s, s', ps, kernel, q, v);
    }
  }

  /** A process in ps keeps the invariant. */
  ghost predicate OneOk(s: State, p: Pid)
    requires p in s.procs
  {
    && LocalOk(s.procs[p]) && PagesOk(s, s.procs[p]) && ChildOk(s, s.procs[p])
    && EntriesOk(s, p) && HoldOk(s, p) && CopyOk(s, p) && ForkOk(s, p)
  }

  lemma Framed(s: State, s': State, ps: set<Pid>, kernel: bool)
    requires Inv(s) && Frame(s, s', ps, kernel)
    requires Consistent(s'.k, Own(s'), Transit(s'))
    requires forall p :: p in ps && p in s'.procs ==> OneOk(s', p)
    requires kernel ==> forall pa :: pa in s'.kern ==> Managed(s', pa) && Sole(Own(s'), Kernel(pa))
    ensures Inv(s')
  {
    hide Own, Consistent, LocalOk, PagesOk, ChildOk, EntriesOk, HoldOk, CopyOk, ForkOk, Inherited, SameContents, Sole;
    forall q | q in s.procs && q !in ps
      ensures OneOk(s', q)
    {
      OtherTypeOk(s, s', ps, kernel, q);
      OtherEntriesOk(s, s', ps, kernel, q);
      OtherHoldOk(s, s', ps, kernel, q);
      OtherForkOk(s, s', ps, kernel, q);
    }
    if !kernel {
      forall pa | pa in s'.kern
        ensures Managed(s', pa) && Sole(Own(s'), Kernel(pa))
      {
        assert Managed(s, pa);
        OtherToken(s, s', ps, kernel, Kernel(pa));
      }
    }
  }

  /** The memory shown after a step that touches ps: what it was, except for ps. */
  lemma FramedShows(s: State, s': State, ps: set<Pid>, kernel: bool, e: Eager, e': Eager)
    requires Inv(s) && Frame(s, s', ps, kernel) && Shows(s, e)
    requires forall q :: q !in ps ==> (q in e' <==> q in e) && (q in e ==> e'[q] == e[q])
    requires forall p :: p in ps ==> (p in e' <==> p in s'.procs && Visible(s'.procs[p]))
    requires forall p :: p in ps && p in e' ==> ShowsProc(s', s'.procs[p], e'[p])
    ensures Shows(s', e')
  {
    hide Own, Consistent, Inv, Inherited, SameContents, ShowsProc, Visible;
    forall q | q in e && q !in ps
      ensures ShowsProc(s', s'.procs[q], e'[q])
    {
      OtherShows(s, s', ps, kernel, q, e[q]);
    }
  }

  // ---------------------------------------------------------------- steps without a reference change

  /** pr' refers to the same pages as pr. */
  ghost predicate SameRefs(pr: Proc, pr': Proc) {
    && (forall v :: v in pr'.pt ==> v in pr.pt && pr'.pt[v].pa == pr.pt[v].pa)
    && (forall v :: Counted(pr', v) <==> Counted(pr, v))
    && Held(pr') == Held(pr)
    && Pushing(pr') == Pushing(pr)
  }

  lemma SameRefsSameOwn(s: State, s': State, p: Pid, pr': Proc)
    requires p in s.procs && s' == At(s, p, pr').(k := s'.k, mem := s'.mem) && SameRefs(s.procs[p], pr')
    ensures Own(s') == Own(s) && Transit(s') == Transit(s)
  {
    hide Own, Transit, Held, Pushing;
    assert forall t :: PageOf(s', t) == PageOf(s, t);
    assert forall a :: PushOf(s', a) == PushOf(s, a);
  }

  predicate Fresh(pc: Pc) {
    pc.FaultCopy? || pc.GrowMap? || pc.GrowDrop?
  }

  predicate Forking(pc: Pc) {
    pc.ForkPage? || pc.ForkIncref? || pc.Embryo?
  }

  /** Every writable entry of pr' was writable before or is the only reference to its page. */
  ghost predicate NewSoles(s: State, p: Pid, pr': Proc)
    requires p in s.procs
  {
    var pr := s.procs[p];
    && (forall v :: Counted(pr', v) && pr'.pt[v].w ==>
          !pr'.pt[v].cow && ((v in pr.pt && pr.pt[v].w) || Sole(Own(s), Pte(p, v))))
    && (pr'.pc.FaultUpgrade? ==> Sole(Own(s), Pte(p, pr'.pc.v)))
    && (Fresh(pr'.pc) ==> Fresh(pr.pc))
  }

  /** Only pages that p alone refers to have changed. */
  ghost predicate OwnWrites(s: State, s': State, p: Pid) {
    && (forall pa :: pa in s'.k.refcnt ==> Managed(s', pa))
    && (forall t :: t in Own(s) && !Touched(t, {p}, false) ==> SameContents(s, s', Own(s)[t]))
  }

  ghost predicate Calm(s: State, s': State, p: Pid, pr': Proc) {
    && p in s.procs && s' == At(s, p, pr').(mem := s'.mem)
    && SameRefs(s.procs[p], pr') && LocalOk(pr') && NewSoles(s, p, pr') && OwnWrites(s, s', p)
    && !s.procs[p].pc.Embryo? && !Forking(pr'.pc)
  }

  lemma CalmOne(s: State, s': State, p: Pid, pr': Proc)
    requires Inv(s) && Calm(s, s', p, pr') && CopyOk(s', p)
    ensures OneOk(s', p)
  {
    hide Own, Transit, Consistent, Sole, LocalOk, CopyOk;
    SameRefsSameOwn(s, s', p, pr');
    assert PagesOk(s, s.procs[p]) && HoldOk(s, p) && EntriesOk(s, p);
  }

  lemma Parts(s: State, p: Pid)
    requires Inv(s) && p in s.procs
    ensures TypeOk(s) && OneOk(s, p)
  {
    hide LocalOk, PagesOk, ChildOk, EntriesOk, HoldOk, CopyOk, ForkOk, Own, Transit, Consistent;
  }

  lemma OwnedPages(s: State)
    requires Inv(s)
    ensures forall t :: t in Own(s) ==> Managed(s, Own(s)[t])
  {
    hide LocalOk, PagesOk, ChildOk, EntriesOk, HoldOk, CopyOk, ForkOk, Own, Transit, Sole;
  }

  lemma CalmKeeps(s: State, s': State, p: Pid, pr': Proc)
    requires Inv(s) && Calm(s, s', p, pr') && CopyOk(s', p)
    ensures Inv(s') && Frame(s, s', {p}, false)
  {
    hide Own, Transit, Consistent, Sole, LocalOk, PagesOk, ChildOk, EntriesOk, HoldOk, CopyOk, ForkOk, SameRefs, NewSoles;
    CalmOne(s, s', p, pr');
    SameRefsSameOwn(s, s', p, pr');
    Framed(s, s', {p}, false);
  }

  /** A calm step that changes no page. */
  lemma QuietIsCalm(s: State, p: Pid, pr': Proc)
    requires Inv(s) && p in s.procs && !s.procs[p].pc.Embryo? && !Forking(pr'.pc) && !pr'.pc.FaultCopy?
    requires SameRefs(s.procs[p], pr') && LocalOk(pr') && NewSoles(s, p, pr')
    ensures var s' := At(s, p, pr'); Calm(s, s', p, pr') && CopyOk(s', p)
  {
    hide Own, LocalOk, PagesOk, ChildOk, EntriesOk, HoldOk, ForkOk, SameRefs, NewSoles, Consistent;
    OwnedPages(s);
  }

  /** The program sees the same pages in pr' as in pr. */
  ghost predicate SameLook(pr: Proc, pr': Proc) {
    && Visible(pr') == Visible(pr)
    && pr'.np == pr.np
    && forall v :: 0 <= v < pr.np && v in pr.pt ==> v in pr'.pt && SameLeaf(pr.pt[v], pr'.pt[v])
  }

  predicate SameLeaf(l: Leaf, l': Leaf) {
    l'.pa == l.pa && l'.u == l.u && l'.x == l.x && (l'.w || l'.cow) == (l.w || l.cow)
  }

  lemma QuietShows(s: State, s': State, p: Pid, pr': Proc, e: Eager)
    requires Inv(s) && Frame(s, s', {p}, false) && Shows(s, e)
    requires p in s.procs && s' == At(s, p, pr') && SameLook(s.procs[p], pr')
    ensures Shows(s', e)
  {
    hide Own, Consistent, Inv, Frame, Visible;
    FramedShows(s, s', {p}, false, e, e);
  }

  /** A step of p that changes neither a reference nor a page, nor what the program sees. */
  lemma Silent(s: State, p: Pid, pr': Proc, e: Eager)
    requires Inv(s) && p in s.procs && !s.procs[p].pc.Embryo? && Shows(s, e)
    requires SameRefs(s.procs[p], pr') && LocalOk(pr') && NewSoles(s, p, pr') && SameLook(s.procs[p], pr')
    requires !Forking(pr'.pc) && !pr'.pc.FaultCopy?
    ensures var s' := At(s, p, pr'); Inv(s') && Shows(s', e)
  {
    hide *;
    var s' := At(s, p, pr');
    QuietIsCalm(s, p, pr');
    CalmKeeps(s, s', p, pr');
    QuietShows(s, s', p, pr', e);
  }

  /** Program counters at which a process refers to pages through its page table alone. */
  predicate Plain(pc: Pc) {
    || pc.User? || pc.CopyMove? || pc.FaultTest? || pc.FaultCount? || pc.FaultUpgrade?
    || pc.FaultAlloc? || pc.Grow? || (pc.Unmap? && !pc.exiting)
  }

  lemma PlainRefs(pr: Proc, pr': Proc)
    requires Plain(pr.pc) && Plain(pr'.pc) && pr'.pt == pr.pt && pr'.np == pr.np
    ensures SameRefs(pr, pr') && SameLook(pr, pr') && !Forking(pr'.pc) && !pr'.pc.FaultCopy? && !Fresh(pr'.pc)
  {
  }

  lemma PlainCounted(pr: Proc)
    requires Plain(pr.pc) || pr.pc.User?
    ensures Visible(pr) && forall v :: v in pr.pt ==> Counted(pr, v)
  {
  }

  lemma PlainSoles(s: State, p: Pid, pr': Proc)
    requires Inv(s) && p in s.procs && Plain(s.procs[p].pc) && Plain(pr'.pc) && pr'.pt == s.procs[p].pt
    requires pr'.pc.FaultUpgrade? ==> Sole(Own(s), Pte(p, pr'.pc.v))
    ensures NewSoles(s, p, pr')
  {
    hide Own, Consistent, LocalOk, PagesOk, ChildOk, HoldOk, CopyOk, ForkOk, Sole;
    assert EntriesOk(s, p);
  }

  /** A step from one such program counter to another. */
  lemma Turn(s: State, p: Pid, pc: Pc, e: Eager)
    requires Inv(s) && p in s.procs && Shows(s, e)
    requires Plain(s.procs[p].pc) && Plain(pc) && LocalOk(s.procs[p].(pc := pc))
    requires pc.FaultUpgrade? ==> Sole(Own(s), Pte(p, pc.v))
    ensures var s' := Goto(s, p, pc); Inv(s') && Shows(s', e)
  {
    hide Inv, Shows, SameRefs, SameLook, NewSoles, LocalOk, Own, Sole;
    var pr' := s.procs[p].(pc := pc);
    PlainRefs(s.procs[p], pr');
    PlainSoles(s, p, pr');
    Silent(s, p, pr', e);
  }

  /** In a state that shows e, the tests on the entry decide exactly MayStore. */
  lemma LookMayStore(s: State, p: Pid, v: Vpn, e: Eager)
    requires Shows(s, e) && p in s.procs && Visible(s.procs[p]) && UpTo(s.procs[p].pt, s.procs[p].np)
    ensures p in e
    ensures MayStore(e, p, v) <==>
      v in s.procs[p].pt && s.procs[p].pt[v].u && (s.procs[p].pt[v].w || s.procs[p].pt[v].cow)
  {
    hide Visible;
    assert ShowsProc(s, s.procs[p], e[p]);
  }

  lemma StoreFaultKeeps(s: State, p: Pid, v: Vpn, e: Eager)
    requires Inv(s) && Enabled(s, StoreFault(p, v)) && Shows(s, e)
    ensures var (s', l) := StoreFaultStep(s, p, v); Inv(s') && EagerStep(e, l, e) && Shows(s', e)
  {
    hide Own, Consistent, Shows, Sole, PagesOk, ChildOk, HoldOk, CopyOk, ForkOk, EntriesOk;
    assert LocalOk(s.procs[p]);
    Turn(s, p, FaultTest(v, Trap), e);
  }

  lemma CopyoutKeeps(s: State, p: Pid, v: Vpn, off: nat, data: seq<Byte>, e: Eager)
    requires Inv(s) && Enabled(s, Copyout(p, v, off, data)) && Shows(s, e)
    ensures var (s', l) := CopyoutStep(s, p, v, off, data); Inv(s') && EagerStep(e, l, e) && Shows(s', e)
  {
    hide Own, Consistent, Shows, Sole, PagesOk, ChildOk, HoldOk, CopyOk, ForkOk;
    var pr := s.procs[p];
    assert LocalOk(pr) && EntriesOk(s, p);
    LookMayStore(s, p, v, e);
    if v in pr.pt {
      var pc := if pr.pt[v].cow then FaultTest(v, CopyOut(off, data)) else CopyMove(v, off, data);
      Turn(s, p, pc, e);
    }
  }

  lemma LeaveKeeps(s: State, p: Pid, e: Eager)
    requires Inv(s) && p in s.procs && Plain(s.procs[p].pc) && UpTo(s.procs[p].pt, s.procs[p].np) && Shows(s, e)
    ensures var s' := Leave(s, p); Inv(s') && Shows(s', e - {p})
    ensures p in e
  {
    hide Own, Consistent, Sole, PagesOk, ChildOk, HoldOk, CopyOk, ForkOk, Frame, ShowsProc, Inv;
    var pr := s.procs[p];
    var pr' := Proc(Unmap(0, pr.np, true), pr.pt, 0);
    Parts(s, p);
    QuietIsCalm(s, p, pr');
    CalmKeeps(s, Leave(s, p), p, pr');
    FramedShows(s, Leave(s, p), {p}, false, e, e - {p});
  }

  lemma FailedKeeps(s: State, p: Pid, v: Vpn, why: Cause, oom: bool, e: Eager) returns (e': Eager)
    requires Inv(s) && p in s.procs && Plain(s.procs[p].pc) && UpTo(s.procs[p].pt, s.procs[p].np) && Shows(s, e)
    requires !oom ==> !MayStore(e, p, v)
    ensures var (s', l) := Failed(s, p, v, why, oom); Inv(s') && EagerStep(e, l, e') && Shows(s', e')
  {
    hide Inv, Shows;
    LeaveKeeps(s, p, e);
    match why
    case Trap =>
      if p == INIT {
        e' := e;
        HaltedKeeps(s, e);
      } else {
        e' := e - {p};
      }
    case CopyOut(_, _) =>
      e' := e;
      Turn(s, p, User, e);
  }

  lemma TestKeeps(s: State, p: Pid, e: Eager) returns (e': Eager)
    requires Inv(s) && Enabled(s, DoTest(p)) && Shows(s, e)
    ensures var (s', l) := TestStep(s, p); Inv(s') && EagerStep(e, l, e') && Shows(s', e')
  {
    hide Own, Consistent, Shows, Sole, PagesOk, ChildOk, HoldOk, CopyOk, ForkOk, MayStore, Failed;
    var pr := s.procs[p];
    var FaultTest(v, why) := pr.pc;
    assert LocalOk(pr) && EntriesOk(s, p);
    LookMayStore(s, p, v, e);
    if v !in pr.pt || !pr.pt[v].u || !pr.pt[v].cow {
      e' := FailedKeeps(s, p, v, why, false, e);
    } else {
      e' := e;
      Turn(s, p, FaultCount(v, why), e);
    }
  }

  /** The counter test of handle_cow_fault, made without holding any lock on the page table,
      decides whether the faulting entry is the only reference. */
  lemma CounterDecides(s: State, p: Pid, v: Vpn)
    requires Inv(s) && p in s.procs && Counted(s.procs[p], v)
    ensures s.procs[p].pt[v].pa in s.k.refcnt
    ensures s.k.refcnt[s.procs[p].pt[v].pa] == 1 <==> Sole(Own(s), Pte(p, v))
    ensures s.k.refcnt[s.procs[p].pt[v].pa] == Count(Own(s), s.procs[p].pt[v].pa)
  {
    hide LocalOk, PagesOk, ChildOk, EntriesOk, HoldOk, CopyOk, ForkOk, Own, Transit, Count, Sole;
    var pa := s.procs[p].pt[v].pa;
    assert PageOf(s, Pte(p, v)) == Some(pa);
    assert PageConsistent(s.k, Own(s), Transit(s), pa);
    CountPositive(Own(s), pa);
    SoleIffCountOne(Own(s), Pte(p, v));
  }

  lemma CountKeeps(s: State, p: Pid, e: Eager)
    requires Inv(s) && Enabled(s, DoCount(p)) && Shows(s, e)
    ensures var (s', l) := CountStep(s, p); Inv(s') && EagerStep(e, l, e) && Shows(s', e)
  {
    hide Own, Consistent, Shows, Sole, PagesOk, ChildOk, HoldOk, CopyOk, ForkOk, EntriesOk;
    var pr := s.procs[p];
    assert LocalOk(pr);
    CounterDecides(s, p, pr.pc.v);
    Turn(s, p, CountStep(s, p).0.procs[p].pc, e);
  }

  lemma UpgradeLocal(pr: Proc, pr': Proc)
    requires LocalOk(pr) && pr.pc.FaultUpgrade?
    requires pr' == pr.(pc := Handled(pr.pc.v, pr.pc.why), pt := pr.pt[pr.pc.v := pr.pt[pr.pc.v].(w := true, cow := false)])
    ensures LocalOk(pr') && SameRefs(pr, pr') && SameLook(pr, pr')
  {
  }

  lemma UpgradeKeeps(s: State, p: Pid, e: Eager)
    requires Inv(s) && Enabled(s, DoUpgrade(p)) && Shows(s, e)
    ensures var (s', l) := UpgradeStep(s, p); Inv(s') && EagerStep(e, l, e) && Shows(s', e)
  {
    hide Own, Consistent, Shows, Sole, PagesOk, ChildOk, HoldOk, CopyOk, ForkOk;
    var pr := s.procs[p];
    var pr' := UpgradeStep(s, p).0.procs[p];
    assert LocalOk(pr) && EntriesOk(s, p);
    UpgradeLocal(pr, pr');
    hide LocalOk, SameRefs, SameLook;
    Silent(s, p, pr', e);
  }

  // ---------------------------------------------------------------- steps that write a page

  predicate Mine(t: Token, p: Pid) {
    (t.Pte? || t.Hold?) && t.p == p
  }

  /** Writing a page that only the token t of p refers to disturbs no other reference. */
  lemma WriteSole(s: State, p: Pid, t: Token, page: Page)
    requires Inv(s) && p in s.procs && Mine(t, p) && Sole(Own(s), t) && |page| == PGSIZE
    ensures var s' := s.(mem := s.mem[Own(s)[t] := page]);
      && OwnWrites(s, s', p)
      && (forall u :: u in Own(s) && u != t ==> SameContents(s, s', Own(s)[u]))
  {
    hide LocalOk, PagesOk, ChildOk, EntriesOk, HoldOk, CopyOk, ForkOk, Own, Transit, Consistent;
    OwnedPages(s);
  }

  /** The page of entry v of p gets new contents, and p goes back to user code. */
  ghost function Written(s: State, p: Pid, v: Vpn, page: Page): State
    requires p in s.procs && v in s.procs[p].pt
  {
    Goto(s, p, User).(mem := s.mem[s.procs[p].pt[v].pa := page])
  }

  /** The entry v is the only reference to its page, and so are the pages of the others. */
  lemma WritableEntry(s: State, p: Pid, v: Vpn)
    requires Inv(s) && p in s.procs && Counted(s.procs[p], v) && s.procs[p].pt[v].w
    ensures Sole(Own(s), Pte(p, v)) && Own(s)[Pte(p, v)] == s.procs[p].pt[v].pa
    ensures forall w :: Counted(s.procs[p], w) ==> Pte(p, w) in Own(s) && Own(s)[Pte(p, w)] == s.procs[p].pt[w].pa
  {
    hide LocalOk, PagesOk, ChildOk, HoldOk, CopyOk, ForkOk, Own, Transit, Consistent;
    assert EntriesOk(s, p);
    forall w | Counted(s.procs[p], w)
      ensures Pte(p, w) in Own(s) && Own(s)[Pte(p, w)] == s.procs[p].pt[w].pa
    {
      assert PageOf(s, Pte(p, w)).Some?;
    }
  }

  lemma UserOk(pr: Proc)
    requires UpTo(pr.pt, pr.np)
    ensures LocalOk(pr.(pc := User))
  {
  }

  lemma WrittenFrame(s: State, p: Pid, v: Vpn, page: Page)
    requires Inv(s) && p in s.procs && Plain(s.procs[p].pc) && UpTo(s.procs[p].pt, s.procs[p].np)
    requires Counted(s.procs[p], v) && s.procs[p].pt[v].w && |page| == PGSIZE
    ensures var s' := Written(s, p, v, page); Inv(s') && Frame(s, s', {p}, false)
  {
    hide Inv, Own, Sole, SameRefs, SameLook, NewSoles, Frame, LocalOk;
    var pr, s' := s.procs[p], Written(s, p, v, page);
    var pr' := pr.(pc := User);
    UserOk(pr);
    WritableEntry(s, p, v);
    WriteSole(s, p, Pte(p, v), page);
    PlainRefs(pr, pr');
    PlainSoles(s, p, pr');
    CalmKeeps(s, s', p, pr');
  }

  lemma WrittenOthers(s: State, p: Pid, v: Vpn, page: Page, w: Vpn)
    requires Inv(s) && p in s.procs && |page| == PGSIZE && v != w
    requires Counted(s.procs[p], v) && s.procs[p].pt[v].w && Counted(s.procs[p], w)
    ensures SameContents(s, Written(s, p, v, page), s.procs[p].pt[w].pa)
  {
    hide Inv, Own;
    WritableEntry(s, p, v);
    WriteSole(s, p, Pte(p, v), page);
    assert Own(s)[Pte(p, w)] == s.procs[p].pt[w].pa;
  }

  lemma WrittenShows(s: State, p: Pid, v: Vpn, page: Page, m: Space, m': Space)
    requires Inv(s) && p in s.procs && Plain(s.procs[p].pc) && UpTo(s.procs[p].pt, s.procs[p].np)
    requires v in s.procs[p].pt && s.procs[p].pt[v].w && |page| == PGSIZE && ShowsProc(s, s.procs[p], m)
    requires m' == m[v := m[v].(data := page)]
    ensures ShowsProc(Written(s, p, v, page), s.procs[p].(pc := User), m')
  {
    hide Inv, Own, Plain, Sole;
    var s', pr := Written(s, p, v, page), s.procs[p];
    forall w | 0 <= w < pr.np
      ensures ShowsPage(s', pr.pt[w], m'[w])
    {
      assert ShowsPage(s, pr.pt[w], m[w]);
      if w != v {
        PlainCounted(pr);
        WrittenOthers(s, p, v, page, w);
      }
    }
  }

  lemma WrittenKeeps(s: State, p: Pid, v: Vpn, page: Page, e: Eager, e': Eager)
    requires Inv(s) && p in s.procs && Plain(s.procs[p].pc) && UpTo(s.procs[p].pt, s.procs[p].np) && Shows(s, e)
    requires v in s.procs[p].pt && s.procs[p].pt[v].w && |page| == PGSIZE
    requires p in e && v in e[p] && e' == e[p := e[p][v := e[p][v].(data := page)]]
    ensures Inv(Written(s, p, v, page)) && Shows(Written(s, p, v, page), e')
  {
    hide Inv, Own, Frame, Visible, Plain, ShowsProc;
    var s' := Written(s, p, v, page);
    PlainCounted(s.procs[p]);
    PlainCounted(s'.procs[p]);
    WrittenFrame(s, p, v, page);
    WrittenShows(s, p, v, page, e[p], e'[p]);
    FramedShows(s, s', {p}, false, e, e');
  }

  /** A store by the program or by copyout, through a writable entry. */
  lemma SplicedKeeps(s: State, p: Pid, v: Vpn, off: nat, data: seq<Byte>, e: Eager) returns (e': Eager)
    requires Inv(s) && p in s.procs && Plain(s.procs[p].pc) && UpTo(s.procs[p].pt, s.procs[p].np) && Shows(s, e)
    requires v in s.procs[p].pt && s.procs[p].pt[v].u && s.procs[p].pt[v].w && off + |data| <= PGSIZE
    requires Managed(s, s.procs[p].pt[v].pa)
    ensures var s' := Written(s, p, v, Splice(s.mem[s.procs[p].pt[v].pa], off, data));
      Inv(s') && EagerStep(e, Stored(p, v, off, data), e') && Shows(s', e')
  {
    hide Inv;
    LookMayStore(s, p, v, e);
    assert ShowsPage(s, s.procs[p].pt[v], e[p][v]);
    assert e[p][v].data == s.mem[s.procs[p].pt[v].pa];
    hide Shows;
    var page := Splice(s.mem[s.procs[p].pt[v].pa], off, data);
    e' := e[p := e[p][v := e[p][v].(data := page)]];
    WrittenKeeps(s, p, v, page, e, e');
  }

  lemma StoreKeeps(s: State, p: Pid, v: Vpn, off: nat, b: Byte, e: Eager) returns (e': Eager)
    requires Inv(s) && Enabled(s, Store(p, v, off, b)) && Shows(s, e)
    ensures var (s', l) := StoreStep(s, p, v, off, b); Inv(s') && EagerStep(e, l, e') && Shows(s', e')
  {
    hide Own, Consistent, Shows, Sole, ChildOk, HoldOk, CopyOk, ForkOk, EntriesOk;
    assert LocalOk(s.procs[p]) && PagesOk(s, s.procs[p]);
    e' := SplicedKeeps(s, p, v, off, [b], e);
    assert Goto(s, p, User).procs == s.procs;
  }

  lemma CopyMoveKeeps(s: State, p: Pid, e: Eager) returns (e': Eager)
    requires Inv(s) && Enabled(s, DoCopyMove(p)) && Shows(s, e)
    ensures var (s', l) := CopyMoveStep(s, p); Inv(s') && EagerStep(e, l, e') && Shows(s', e')
  {
    hide Own, Consistent, Shows, Sole, ChildOk, HoldOk, CopyOk, ForkOk, EntriesOk, MayStore;
    var pr := s.procs[p];
    var CopyMove(v, off, data) := pr.pc;
    assert LocalOk(pr) && PagesOk(s, pr);
    LookMayStore(s, p, v, e);
    if pr.pt[v].u && pr.pt[v].w {
      e' := SplicedKeeps(s, p, v, off, data, e);
    } else {
      e' := e;
      Turn(s, p, User, e);
    }
  }

  // ---------------------------------------------------------------- copying the faulting page

  /** The target of the copy is referred to by p alone, and it is not one of p's mapped pages. */
  lemma CopyTarget(s: State, p: Pid, page: Page)
    requires Inv(s) && p in s.procs && s.procs[p].pc.FaultCopy? && |page| == PGSIZE
    ensures var s' := s.(mem := s.mem[s.procs[p].pc.mem := page]);
      && OwnWrites(s, s', p)
      && (forall v :: Counted(s.procs[p], v) ==> SameContents(s, s', s.procs[p].pt[v].pa))
  {
    hide Inv, TypeOk, Own, LocalOk, PagesOk, ChildOk, EntriesOk, CopyOk, ForkOk, Sole;
    var pr := s.procs[p];
    Parts(s, p);
    assert PageOf(s, Hold(p)) == Some(pr.pc.mem);
    WriteSole(s, p, Hold(p), page);
    forall v | Counted(pr, v)
      ensures SameContents(s, s.(mem := s.mem[pr.pc.mem := page]), pr.pt[v].pa)
    {
      assert PageOf(s, Pte(p, v)) == Some(pr.pt[v].pa);
    }
  }

  lemma CopyByteLocal(pr: Proc, pr': Proc)
    requires LocalOk(pr) && pr.pc.FaultCopy? && pr.pc.k < PGSIZE && pr' == pr.(pc := pr.pc.(k := pr.pc.k + 1))
    ensures LocalOk(pr') && SameRefs(pr, pr') && SameLook(pr, pr') && Counted(pr, pr.pc.v) && pr'.pc.FaultCopy?
    ensures Visible(pr) && forall v :: v in pr.pt ==> Counted(pr, v)
  {
  }

  /** While p copies, nobody else can change the source or the target. */
  lemma CopyByteCalm(s: State, p: Pid)
    requires Inv(s) && Enabled(s, DoCopyByte(p))
    ensures var s' := CopyByteStep(s, p).0; Calm(s, s', p, s'.procs[p]) && CopyOk(s', p)
  {
    hide Inv, Own, ChildOk, ForkOk, LocalOk, SameRefs, Sole;
    Parts(s, p);
    var pr, s' := s.procs[p], CopyByteStep(s, p).0;
    hide TypeOk;
    CopyByteLocal(pr, s'.procs[p]);
    CopyTarget(s, p, s'.mem[pr.pc.mem]);
  }

  lemma WriteShows(s: State, s': State, p: Pid, pr': Proc, e: Eager)
    requires Inv(s) && Frame(s, s', {p}, false) && Shows(s, e)
    requires p in s.procs && p in s'.procs && s'.procs[p] == pr' && SameLook(s.procs[p], pr')
    requires forall v :: 0 <= v < pr'.np && v in pr'.pt ==> SameContents(s, s', pr'.pt[v].pa)
    ensures Shows(s', e)
  {
    hide Own, Consistent, Inv, Frame, Visible;
    FramedShows(s, s', {p}, false, e, e);
  }

  lemma CopyByteKeeps(s: State, p: Pid, e: Eager)
    requires Inv(s) && Enabled(s, DoCopyByte(p)) && Shows(s, e)
    ensures var (s', l) := CopyByteStep(s, p); Inv(s') && EagerStep(e, l, e) && Shows(s', e)
  {
    hide Inv, Own, ChildOk, ForkOk, LocalOk, SameRefs, SameLook, Sole, Calm, CopyOk, Shows, Counted;
    Parts(s, p);
    var pr, s' := s.procs[p], CopyByteStep(s, p).0;
    hide TypeOk, Enabled;
    CopyByteLocal(pr, s'.procs[p]);
    CopyByteCalm(s, p);
    CalmKeeps(s, s', p, s'.procs[p]);
    CopyTarget(s, p, s'.mem[pr.pc.mem]);
    WriteShows(s, s', p, s'.procs[p], e);
  }

  // ---------------------------------------------------------------- kalloc

  ghost predicate Allocated(s: State, s': State, p: Pid, pc: Pc) {
    && p in s.procs && Plain(s.procs[p].pc) && s.k.free != []
    && (pc.FaultCopy? || pc.GrowMap?) && pc.mem == s.k.free[0]
    && exists junk :: |junk| == PGSIZE && s' == Goto(s, p, pc).(k := Kalloc(s.k), mem := s.mem[pc.mem := junk])
  }

  lemma AllocTokens(s: State, s': State, p: Pid, pc: Pc)
    requires Allocated(s, s', p, pc)
    ensures Hold(p) !in Own(s) && Own(s') == Own(s)[Hold(p) := pc.mem] && Transit(s') == Transit(s)
  {
    hide Own, Transit;
    assert PageOf(s, Hold(p)) == None;
    assert forall t :: t != Hold(p) ==> PageOf(s', t) == PageOf(s, t);
    assert forall a :: PushOf(s', a) == PushOf(s, a);
  }

  lemma AllocOwn(s: State, s': State, p: Pid, pc: Pc)
    requires Inv(s) && Allocated(s, s', p, pc)
    ensures Hold(p) !in Own(s) && Own(s') == Own(s)[Hold(p) := pc.mem] && Transit(s') == Transit(s)
    ensures Consistent(s'.k, Own(s'), Transit(s')) && Sole(Own(s'), Hold(p))
    ensures forall u :: u in Own(s) ==> Own(s)[u] != pc.mem
    ensures pc.mem in s.k.refcnt
  {
    hide LocalOk, PagesOk, ChildOk, EntriesOk, HoldOk, CopyOk, ForkOk, Own, Transit, Sole, PageConsistent;
    AllocTokens(s, s', p, pc);
    KallocKeeps(s.k, Own(s), Transit(s), Hold(p));
  }

  lemma AllocFrame(s: State, s': State, p: Pid, pc: Pc)
    requires Inv(s) && Allocated(s, s', p, pc)
    ensures Frame(s, s', {p}, false)
  {
    hide LocalOk, PagesOk, ChildOk, EntriesOk, HoldOk, CopyOk, ForkOk, Own, Transit, Sole, Consistent;
    AllocOwn(s, s', p, pc);
    OwnedPages(s);
  }

  lemma AllocLocal(pr: Proc, pr': Proc)
    requires LocalOk(pr) && pr' == pr.(pc := pr'.pc)
    requires
      || (pr.pc.FaultAlloc? && pr'.pc.FaultCopy? && pr'.pc == FaultCopy(pr.pc.v, pr.pc.why, pr'.pc.mem, 0))
      || (pr.pc.Grow? && pr.pc.cur < pr.pc.target && pr'.pc.GrowMap?
          && pr'.pc == GrowMap(pr.pc.cur, pr.pc.target, pr'.pc.mem))
    ensures LocalOk(pr') && SameLook(pr, pr') && forall v :: Counted(pr', v) <==> Counted(pr, v)
  {
  }

  lemma AllocManaged(s: State, s': State, p: Pid, pc: Pc)
    requires Inv(s) && Allocated(s, s', p, pc)
    ensures forall pa :: Managed(s, pa) ==> Managed(s', pa)
    ensures Managed(s', pc.mem)
  {
    hide Own, LocalOk, PagesOk, ChildOk, EntriesOk, HoldOk, CopyOk, ForkOk;
  }

  lemma AllocOne(s: State, s': State, p: Pid, pc: Pc)
    requires Inv(s) && Allocated(s, s', p, pc) && LocalOk(s'.procs[p])
    requires pc.FaultCopy? ==> pc.k == 0
    ensures OneOk(s', p)
  {
    hide Inv, LocalOk, Own, Sole, TypeOk, Consistent;
    Parts(s, p);
    AllocOwn(s, s', p, pc);
    AllocManaged(s, s', p, pc);
    SoleInsert(Own(s), Hold(p), pc.mem);
    assert forall v :: Counted(s'.procs[p], v) <==> Counted(s.procs[p], v);
  }

  lemma AllocKeeps(s: State, p: Pid, junk: Page, e: Eager) returns (e': Eager)
    requires Inv(s) && Enabled(s, DoAlloc(p, junk)) && Shows(s, e)
    ensures var (s', l) := AllocStep(s, p, junk); Inv(s') && EagerStep(e, l, e') && Shows(s', e')
    ensures var l := AllocStep(s, p, junk).1; l.KilledOom? || l.RefusedOom? ==> s.k.free == []
  {
    hide Inv, Shows, Own, Frame, OneOk, SameLook, Failed;
    hide PagesOk, ChildOk, EntriesOk, HoldOk, CopyOk, ForkOk, Consistent;
    Parts(s, p);
    var pr, s' := s.procs[p], AllocStep(s, p, junk).0;
    assert LocalOk(pr);
    if s.k.free != [] {
      e' := e;
      AllocLocal(pr, s'.procs[p]);
      var pc := s'.procs[p].pc;
      AllocFrame(s, s', p, pc);
      AllocOwn(s, s', p, pc);
      AllocOne(s, s', p, pc);
      Framed(s, s', {p}, false);
      AllocShows(s, s', p, pc, e);
    } else if pr.pc.FaultAlloc? {
      e' := FailedKeeps(s, p, pr.pc.v, pr.pc.why, true, e);
    } else {
      e' := e;
      Turn(s, p, s'.procs[p].pc, e);
    }
  }

  lemma AllocShows(s: State, s': State, p: Pid, pc: Pc, e: Eager)
    requires Inv(s) && Allocated(s, s', p, pc) && Shows(s, e) && Frame(s, s', {p}, false)
    requires LocalOk(s.procs[p]) && SameLook(s.procs[p], s'.procs[p])
    ensures Shows(s', e)
  {
    hide Inv, Own, Shows, LocalOk, SameLook, Frame;
    AllocOwn(s, s', p, pc);
    var pr := s.procs[p];
    forall v | 0 <= v < pr.np && v in pr.pt
      ensures SameContents(s, s', pr.pt[v].pa)
    {
      OwnedPages(s);
      assert PageOf(s, Pte(p, v)) == Some(pr.pt[v].pa);
    }
    WriteShows(s, s', p, s'.procs[p], e);
  }

  // ---------------------------------------------------------------- the new page replaces the shared one

  lemma RemapTokens(s: State, p: Pid)
    requires TypeOk(s) && Enabled(s, DoRemap(p))
    ensures var s', pc := RemapStep(s, p).0, s.procs[p].pc;
      && Pte(p, pc.v) in Own(s) && Hold(p) in Own(s) && Own(s)[Hold(p)] == pc.mem
      && Own(s)[Pte(p, pc.v)] == s.procs[p].pt[pc.v].pa
      && Own(s') == Own(s)[Pte(p, pc.v) := pc.mem][Hold(p) := s.procs[p].pt[pc.v].pa]
      && Transit(s') == Transit(s)
  {
    hide Own, Transit, PagesOk, ChildOk;
    var s', pr := RemapStep(s, p).0, s.procs[p];
    assert LocalOk(pr);
    assert PageOf(s, Hold(p)) == Some(pr.pc.mem);
    assert PageOf(s, Pte(p, pr.pc.v)) == Some(pr.pt[pr.pc.v].pa);
    assert PageOf(s', Hold(p)) == Some(pr.pt[pr.pc.v].pa);
    assert PageOf(s', Pte(p, pr.pc.v)) == Some(pr.pc.mem);
    assert forall t :: t != Hold(p) && t != Pte(p, pr.pc.v) ==> PageOf(s', t) == PageOf(s, t);
    assert forall a :: PushOf(s', a) == PushOf(s, a);
  }

  lemma RemapOwn(s: State, p: Pid)
    requires Inv(s) && Enabled(s, DoRemap(p))
    ensures var s' := RemapStep(s, p).0;
      && Consistent(s'.k, Own(s'), Transit(s'))
      && Sole(Own(s'), Pte(p, s.procs[p].pc.v))
      && (forall v :: v != s.procs[p].pc.v && Sole(Own(s), Pte(p, v)) ==> Sole(Own(s'), Pte(p, v)))
  {
    hide Inv, TypeOk, Own, Transit, LocalOk, PagesOk, ChildOk, EntriesOk, CopyOk, ForkOk, Consistent;
    Parts(s, p);
    RemapTokens(s, p);
    assert Consistent(s.k, Own(s), Transit(s)) by {
      InvConsistent(s);
    }
    ExchangeKeeps(s.k, Own(s), Transit(s), Pte(p, s.procs[p].pc.v), Hold(p));
  }

  lemma InvConsistent(s: State)
    requires Inv(s)
    ensures Consistent(s.k, Own(s), Transit(s))
  {
    hide Own, Transit, Consistent, TypeOk;
  }

  lemma RemapLocal(pr: Proc, pr': Proc)
    requires LocalOk(pr) && Remapped(pr, pr')
    ensures LocalOk(pr') && Visible(pr) && Visible(pr') && FaultEntry(pr, pr.pc.v)
    ensures forall v :: v in pr.pt ==> v in pr'.pt && Counted(pr, v) && Counted(pr', v)
    ensures forall v :: Counted(pr, v) || Counted(pr', v) ==> v in pr.pt
  {
  }

  /** handle_cow_fault points entry v of pr at its new page. */
  ghost predicate Remapped(pr: Proc, pr': Proc) {
    && pr.pc.FaultCopy? && pr.pc.v in pr.pt && pr'.np == pr.np
    && pr'.pc == FaultDrop(pr.pc.v, pr.pc.why, pr.pt[pr.pc.v].pa)
    && pr'.pt == pr.pt[pr.pc.v := pr.pt[pr.pc.v].(pa := pr.pc.mem, w := true, cow := false)]
  }

  lemma RemapEntries(s: State, s': State, p: Pid)
    requires p in s.procs && p in s'.procs && s' == At(s, p, s'.procs[p]) && Remapped(s.procs[p], s'.procs[p])
    requires PagesOk(s, s.procs[p]) && EntriesOk(s, p)
    requires forall v :: Counted(s'.procs[p], v) ==> Counted(s.procs[p], v)
    requires Sole(Own(s'), Pte(p, s.procs[p].pc.v))
    requires forall v :: v != s.procs[p].pc.v && Sole(Own(s), Pte(p, v)) ==> Sole(Own(s'), Pte(p, v))
    ensures PagesOk(s', s'.procs[p]) && ChildOk(s', s'.procs[p]) && EntriesOk(s', p)
    ensures HoldOk(s', p) && CopyOk(s', p) && ForkOk(s', p)
  {
    hide Own, Sole;
    assert forall v :: Counted(s'.procs[p], v) ==> v in s'.procs[p].pt;
    hide Counted;
  }

  lemma RemapDone(s: State, p: Pid)
    requires TypeOk(s) && Enabled(s, DoRemap(p)) && LocalOk(s.procs[p])
    ensures var s' := RemapStep(s, p).0; p in s'.procs && s' == At(s, p, s'.procs[p]) && Remapped(s.procs[p], s'.procs[p])
  {
    hide TypeOk;
  }

  lemma RemapOne(s: State, p: Pid)
    requires Inv(s) && Enabled(s, DoRemap(p))
    ensures OneOk(RemapStep(s, p).0, p)
  {
    hide Inv, Own, LocalOk, Sole, Counted, TypeOk, EntriesOk, HoldOk, CopyOk, ForkOk, PagesOk, ChildOk;
    hide RemapStep, Remapped;
    Parts(s, p);
    hide Enabled;
    var s' := RemapStep(s, p).0;
    RemapDone(s, p);
    RemapOwn(s, p);
    RemapLocal(s.procs[p], s'.procs[p]);
    RemapEntries(s, s', p);
  }

  lemma RemapFrame(s: State, p: Pid)
    requires Inv(s) && Enabled(s, DoRemap(p))
    ensures Frame(s, RemapStep(s, p).0, {p}, false)
  {
    hide Own, Consistent, LocalOk, PagesOk, ChildOk, EntriesOk, HoldOk, CopyOk, ForkOk, Sole;
    RemapTokens(s, p);
    OwnedPages(s);
  }

  lemma RemapLook(s: State, s': State, p: Pid, m: Space)
    requires p in s.procs && p in s'.procs && s'.mem == s.mem && Remapped(s.procs[p], s'.procs[p])
    requires ShowsProc(s, s.procs[p], m) && FaultEntry(s.procs[p], s.procs[p].pc.v)
    requires s.procs[p].pc.mem in s.mem && s.procs[p].pt[s.procs[p].pc.v].pa in s.mem
    requires s.mem[s.procs[p].pc.mem] == s.mem[s.procs[p].pt[s.procs[p].pc.v].pa]
    ensures ShowsProc(s', s'.procs[p], m)
  {
    var pr, pr' := s.procs[p], s'.procs[p];
    forall v | 0 <= v < pr.np
      ensures v in pr'.pt && ShowsPage(s', pr'.pt[v], m[v])
    {
      assert ShowsPage(s, pr.pt[v], m[v]);
    }
  }

  /** The whole page has been copied. */
  lemma CopyComplete(s: State, p: Pid)
    requires Inv(s) && Enabled(s, DoRemap(p))
    ensures var pr := s.procs[p];
      && pr.pc.FaultCopy? && FaultEntry(pr, pr.pc.v) && Visible(pr) && LocalOk(pr)
      && pr.pc.mem in s.mem && pr.pt[pr.pc.v].pa in s.mem && s.mem[pr.pc.mem] == s.mem[pr.pt[pr.pc.v].pa]
  {
    hide Inv, Own, ChildOk, EntriesOk, ForkOk, HoldOk, TypeOk, UpTo;
    Parts(s, p);
  }

  lemma RemapShows(s: State, p: Pid, e: Eager)
    requires Inv(s) && Enabled(s, DoRemap(p)) && Shows(s, e)
    ensures Shows(RemapStep(s, p).0, e)
  {
    hide Inv, Own, LocalOk, ChildOk, EntriesOk, ForkOk, HoldOk, CopyOk, PagesOk, Frame, TypeOk, ShowsProc, Visible;
    hide FaultEntry, RemapStep, Remapped;
    Parts(s, p);
    hide Enabled;
    var s' := RemapStep(s, p).0;
    CopyComplete(s, p);
    RemapDone(s, p);
    RemapFrame(s, p);
    RemapLocal(s.procs[p], s'.procs[p]);
    assert ShowsProc(s, s.procs[p], e[p]);
    RemapLook(s, s', p, e[p]);
    FramedShows(s, s', {p}, false, e, e);
  }

  lemma RemapKeeps(s: State, p: Pid, e: Eager)
    requires Inv(s) && Enabled(s, DoRemap(p)) && Shows(s, e)
    ensures var (s', l) := RemapStep(s, p); Inv(s') && EagerStep(e, l, e) && Shows(s', e)
  {
    hide Inv, Own, Shows, Frame, OneOk, Consistent;
    Parts(s, p);
    RemapOne(s, p);
    RemapFrame(s, p);
    RemapOwn(s, p);
    Framed(s, RemapStep(s, p).0, {p}, false);
    RemapShows(s, p, e);
  }

  // ---------------------------------------------------------------- kfree

  /** p has moved to another program counter and the allocator has changed. */
  ghost predicate Moved(s: State, s': State, p: Pid) {
    p in s.procs && p in s'.procs && s' == Goto(s, p, s'.procs[p].pc).(k := s'.k)
  }

  lemma LoseHold(s: State, s': State, p: Pid)
    requires Moved(s, s', p) && Held(s.procs[p]).Some? && Held(s'.procs[p]) == None
    requires forall v :: Counted(s'.procs[p], v) <==> Counted(s.procs[p], v)
    ensures Hold(p) in Own(s) && Own(s)[Hold(p)] == Held(s.procs[p]).value && Own(s') == Own(s) - {Hold(p)}
  {
    hide Own, Held, Counted;
    assert PageOf(s, Hold(p)) == Held(s.procs[p]) && PageOf(s', Hold(p)) == None;
    assert forall t :: t != Hold(p) ==> PageOf(s', t) == PageOf(s, t);
  }

  lemma LoseEntry(s: State, s': State, p: Pid, v: Vpn)
    requires Moved(s, s', p) && Held(s'.procs[p]) == Held(s.procs[p])
    requires Counted(s.procs[p], v)
    requires forall w :: Counted(s'.procs[p], w) <==> Counted(s.procs[p], w) && w != v
    ensures Pte(p, v) in Own(s) && Own(s)[Pte(p, v)] == s.procs[p].pt[v].pa && Own(s') == Own(s) - {Pte(p, v)}
  {
    hide Own, Held, Counted;
    assert PageOf(s, Pte(p, v)).Some? && PageOf(s', Pte(p, v)) == None;
    assert forall t :: t != Pte(p, v) ==> PageOf(s', t) == PageOf(s, t);
  }

  lemma KeepTokens(s: State, s': State, p: Pid)
    requires Moved(s, s', p) && Held(s'.procs[p]) == Held(s.procs[p])
    requires forall w :: Counted(s'.procs[p], w) <==> Counted(s.procs[p], w)
    ensures Own(s') == Own(s)
  {
    hide Own, Held, Counted;
    assert forall t :: PageOf(s', t) == PageOf(s, t);
  }

  lemma MovedTransit(s: State, s': State, p: Pid)
    requires Moved(s, s', p)
    ensures ByProc(p) in Transit(s) <==> Pushing(s.procs[p]).Some?
    ensures ByProc(p) in Transit(s) ==> Transit(s)[ByProc(p)] == Pushing(s.procs[p]).value
    ensures Pushing(s'.procs[p]) == None ==> Transit(s') == Transit(s) - {ByProc(p)}
    ensures Pushing(s'.procs[p]).Some? ==> Transit(s') == Transit(s)[ByProc(p) := Pushing(s'.procs[p]).value]
  {
    hide Transit, Pushing;
    assert PushOf(s, ByProc(p)) == Pushing(s.procs[p]) && PushOf(s', ByProc(p)) == Pushing(s'.procs[p]);
    assert forall a :: a != ByProc(p) ==> PushOf(s', a) == PushOf(s, a);
  }

  /** The first critical section of kfree, run by p on the page of its token t. */
  ghost predicate Dropped(s: State, s': State, p: Pid, t: Token) {
    && Moved(s, s', p) && Mine(t, p) && t in Own(s) && Own(s)[t] in s.k.refcnt
    && s'.k == Decref(s.k, Own(s)[t])
    && Own(s') == Own(s) - {t}
    && ByProc(p) !in Transit(s)
    && Transit(s') == (if s'.k.refcnt[Own(s)[t]] > 0 then Transit(s) else Transit(s)[ByProc(p) := Own(s)[t]])
  }

  lemma DroppedOwn(s: State, s': State, p: Pid, t: Token)
    requires Inv(s) && Dropped(s, s', p, t)
    ensures Consistent(s'.k, Own(s'), Transit(s'))
  {
    hide Inv, Own, Transit, Consistent, Sole;
    InvConsistent(s);
    DecrefKeeps(s.k, Own(s), Transit(s), t, ByProc(p));
  }

  lemma DroppedFrame(s: State, s': State, p: Pid, t: Token)
    requires Inv(s) && Dropped(s, s', p, t) && !s.procs[p].pc.Embryo?
    ensures Frame(s, s', {p}, false)
    ensures forall u :: u in Own(s') && Sole(Own(s), u) ==> Sole(Own(s'), u)
    ensures forall pa :: Managed(s, pa) ==> Managed(s', pa)
  {
    hide LocalOk, PagesOk, ChildOk, EntriesOk, HoldOk, CopyOk, ForkOk, Own, Transit, Consistent, PageOf;
    OwnedPages(s);
  }

  /** The second critical section of kfree, run by p. */
  ghost predicate Pushed(s: State, s': State, p: Pid) {
    && Moved(s, s', p) && Pushing(s.procs[p]).Some?
    && s'.k == Push(s.k, Pushing(s.procs[p]).value)
    && Own(s') == Own(s) && ByProc(p) in Transit(s) && Transit(s)[ByProc(p)] == Pushing(s.procs[p]).value
    && Transit(s') == Transit(s) - {ByProc(p)}
  }

  lemma PushedFrame(s: State, s': State, p: Pid)
    requires Inv(s) && Pushed(s, s', p) && !s.procs[p].pc.Embryo?
    ensures Consistent(s'.k, Own(s'), Transit(s')) && Frame(s, s', {p}, false)
    ensures forall pa :: Managed(s, pa) ==> Managed(s', pa)
  {
    hide LocalOk, PagesOk, ChildOk, EntriesOk, HoldOk, CopyOk, ForkOk, Own, Transit, Consistent, PageOf, Sole;
    OwnedPages(s);
    PushKeeps(s.k, Own(s), Transit(s), ByProc(p));
  }

  /** After kfree has handled a page: the state of p itself, and what programs see. */
  lemma FreedKeeps(s: State, s': State, p: Pid, e: Eager)
    requires Inv(s) && p in s.procs && !s.procs[p].pc.Embryo? && Shows(s, e)
    requires Consistent(s'.k, Own(s'), Transit(s')) && Frame(s, s', {p}, false)
    requires Moved(s, s', p)
    requires forall pa :: Managed(s, pa) ==> Managed(s', pa)
    requires forall u :: u in Own(s') && Sole(Own(s), u) ==> Sole(Own(s'), u)
    requires forall v :: Counted(s'.procs[p], v) ==> Counted(s.procs[p], v)
    requires LocalOk(s'.procs[p]) && SameLook(s.procs[p], s'.procs[p])
    requires Held(s'.procs[p]) == None && (Pushing(s'.procs[p]).Some? ==> Managed(s, Pushing(s'.procs[p]).value))
    requires !Forking(s'.procs[p].pc) && !s'.procs[p].pc.FaultUpgrade?
    ensures Inv(s') && Shows(s', e)
  {
    hide Inv, Own, Transit, Consistent, Frame, Sole, LocalOk, SameLook, Shows;
    Parts(s, p);
    FreedOne(s, s', p);
    Framed(s, s', {p}, false);
    WriteShowsSame(s, s', p, e);
  }

  lemma FreedOne(s: State, s': State, p: Pid)
    requires Inv(s) && p in s.procs
    requires Moved(s, s', p)
    requires forall pa :: Managed(s, pa) ==> Managed(s', pa)
    requires forall u :: u in Own(s') && Sole(Own(s), u) ==> Sole(Own(s'), u)
    requires forall v :: Counted(s'.procs[p], v) ==> Counted(s.procs[p], v)
    requires LocalOk(s'.procs[p])
    requires Held(s'.procs[p]) == None && (Pushing(s'.procs[p]).Some? ==> Managed(s, Pushing(s'.procs[p]).value))
    requires !Forking(s'.procs[p].pc) && !s'.procs[p].pc.FaultUpgrade?
    ensures OneOk(s', p)
  {
    hide Inv, TypeOk, Own, Sole, LocalOk, Managed, Pushing;
    Parts(s, p);
    forall v | Counted(s'.procs[p], v)
      ensures Pte(p, v) in Own(s')
    {
      assert PageOf(s', Pte(p, v)).Some?;
    }
  }

  lemma WriteShowsSame(s: State, s': State, p: Pid, e: Eager)
    requires Inv(s) && Frame(s, s', {p}, false) && Shows(s, e) && p in s.procs
    requires Moved(s, s', p) && SameLook(s.procs[p], s'.procs[p]) && PagesOk(s, s.procs[p])
    ensures Shows(s', e)
  {
    hide Inv, Own, Frame, SameLook, Shows;
    WriteShows(s, s', p, s'.procs[p], e);
  }

  // Two users of kfree: the fault handler and uvmalloc, which hold the page by a pointer.

  lemma DropLocal(pr: Proc, pc: Pc, last: bool)
    requires LocalOk(pr)
    requires
      || (pr.pc.FaultDrop?
          && pc == if last then FaultPush(pr.pc.v, pr.pc.why, pr.pc.old_pa) else Handled(pr.pc.v, pr.pc.why))
      || (pr.pc.GrowDrop? && pc == if last then GrowPush(pr.pc.cur, pr.pc.mem) else Unmap(pr.np, pr.pc.cur, false))
    ensures var pr' := pr.(pc := pc);
      && LocalOk(pr') && SameLook(pr, pr') && Held(pr') == None && Held(pr).Some? && Pushing(pr) == None
      && Pushing(pr') == (if last then Held(pr) else None) && !Forking(pc) && !pc.FaultUpgrade?
      && (forall v :: Counted(pr', v) <==> Counted(pr, v))
  {
  }

  lemma DropTokens(s: State, p: Pid)
    requires Inv(s) && Enabled(s, DoDrop(p))
    ensures var s' := DropStep(s, p).0; p in s'.procs && Dropped(s, s', p, Hold(p))
  {
    hide Inv, Own, Transit, LocalOk, ChildOk, EntriesOk, HoldOk, CopyOk, ForkOk, Counted, Handled;
    Parts(s, p);
    var pr, s' := s.procs[p], DropStep(s, p).0;
    hide TypeOk;
    var pa := Held(pr).value;
    DropLocal(pr, s'.procs[p].pc, s'.k.refcnt[pa] <= 0);
    hide Held, Pushing;
    LoseHold(s, s', p);
    MovedTransit(s, s', p);
  }

  lemma DropKeeps(s: State, p: Pid, e: Eager)
    requires Inv(s) && Enabled(s, DoDrop(p)) && Shows(s, e)
    ensures var (s', l) := DropStep(s, p); Inv(s') && EagerStep(e, l, e) && Shows(s', e)
  {
    hide Inv, Own, Transit, LocalOk, ChildOk, EntriesOk, HoldOk, CopyOk, ForkOk, Counted, Handled, Frame, Sole, Shows,
      Consistent, SameLook;
    Parts(s, p);
    DropTokens(s, p);
    var pr, s' := s.procs[p], DropStep(s, p).0;
    DropLocal(pr, s'.procs[p].pc, s'.k.refcnt[Held(pr).value] <= 0);
    hide Enabled, TypeOk;
    DroppedOwn(s, s', p, Hold(p));
    DroppedFrame(s, s', p, Hold(p));
    FreedKeeps(s, s', p, e);
  }

  lemma PushLocal(pr: Proc, pc: Pc)
    requires LocalOk(pr)
    requires
      || (pr.pc.FaultPush? && pc == Handled(pr.pc.v, pr.pc.why))
      || (pr.pc.GrowPush? && pc == Unmap(pr.np, pr.pc.cur, false))
      || (pr.pc.UnmapPush? && pc == UnmapClear(pr.pc.cur, pr.pc.hi, pr.pc.exiting))
    ensures var pr' := pr.(pc := pc);
      && LocalOk(pr') && SameLook(pr, pr') && Held(pr') == Held(pr) == None && Pushing(pr).Some? && Pushing(pr') == None
      && !Forking(pc) && !pc.FaultUpgrade? && (forall v :: Counted(pr', v) <==> Counted(pr, v))
  {
  }

  lemma ListedKeeps(s: State, p: Pid, e: Eager)
    requires Inv(s) && Enabled(s, DoPush(p)) && Shows(s, e)
    ensures var (s', l) := PushStep(s, p); Inv(s') && EagerStep(e, l, e) && Shows(s', e)
  {
    hide Inv, Own, Transit, LocalOk, ChildOk, EntriesOk, HoldOk, CopyOk, ForkOk, Counted, Handled, Frame, Sole, Shows,
      Consistent, SameLook;
    Parts(s, p);
    var pr, s' := s.procs[p], PushStep(s, p).0;
    hide TypeOk;
    PushLocal(pr, s'.procs[p].pc);
    hide Enabled, Held, Pushing;
    KeepTokens(s, s', p);
    MovedTransit(s, s', p);
    PushedFrame(s, s', p);
    FreedKeeps(s, s', p, e);
  }

  lemma UnmapLocal(pr: Proc, pc: Pc, last: bool)
    requires LocalOk(pr) && pr.pc.Unmap? && pr.pc.cur < pr.pc.hi
    requires pc == if last then UnmapPush(pr.pc.cur, pr.pc.hi, pr.pc.exiting)
                   else UnmapClear(pr.pc.cur, pr.pc.hi, pr.pc.exiting)
    ensures var pr' := pr.(pc := pc);
      && LocalOk(pr') && SameLook(pr, pr') && Held(pr') == Held(pr) == None && Pushing(pr) == None
      && Counted(pr, pr.pc.cur) && Pushing(pr') == (if last then Some(pr.pt[pr.pc.cur].pa) else None)
      && !Forking(pc) && !pc.FaultUpgrade? && (forall v :: Counted(pr', v) <==> Counted(pr, v) && v != pr.pc.cur)
  {
  }

  lemma UnmapKeeps(s: State, p: Pid, e: Eager)
    requires Inv(s) && Enabled(s, DoUnmap(p)) && Shows(s, e)
    ensures var (s', l) := UnmapStep(s, p); Inv(s') && EagerStep(e, l, e) && Shows(s', e)
  {
    hide Inv, Own, Transit, LocalOk, ChildOk, EntriesOk, HoldOk, CopyOk, ForkOk, Frame, Sole, Shows, Consistent, SameLook;
    Parts(s, p);
    var pr, s' := s.procs[p], UnmapStep(s, p).0;
    var t := Pte(p, pr.pc.cur);
    UnmapLocal(pr, s'.procs[p].pc, s'.procs[p].pc.UnmapPush?);
    hide TypeOk, Enabled, Held, Pushing, Counted;
    LoseEntry(s, s', p, pr.pc.cur);
    MovedTransit(s, s', p);
    DroppedOwn(s, s', p, t);
    DroppedFrame(s, s', p, t);
    FreedKeeps(s, s', p, e);
  }

  lemma ClearLocal(pr: Proc, pr': Proc)
    requires LocalOk(pr) && pr.pc.UnmapClear?
    requires pr' == pr.(pc := Unmap(pr.pc.cur + 1, pr.pc.hi, pr.pc.exiting), pt := pr.pt - {pr.pc.cur})
    ensures LocalOk(pr') && SameRefs(pr, pr') && SameLook(pr, pr')
  {
  }

  lemma ClearKeeps(s: State, p: Pid, e: Eager)
    requires Inv(s) && Enabled(s, DoClear(p)) && Shows(s, e)
    ensures var (s', l) := ClearStep(s, p); Inv(s') && EagerStep(e, l, e) && Shows(s', e)
  {
    hide Inv, Own, LocalOk, ChildOk, HoldOk, CopyOk, ForkOk, Sole, Shows, SameLook;
    Parts(s, p);
    var pr, pr' := s.procs[p], ClearStep(s, p).0.procs[p];
    ClearLocal(pr, pr');
    hide TypeOk, Enabled, SameRefs;
    Silent(s, p, pr', e);
  }

  lemma UnmapDoneKeeps(s: State, p: Pid, e: Eager)
    requires Inv(s) && Enabled(s, DoUnmapDone(p)) && Shows(s, e)
    ensures var (s', l) := UnmapDoneStep(s, p); Inv(s') && EagerStep(e, l, e) && Shows(s', e)
  {
    hide Inv, Own, Shows, PagesOk, ChildOk, EntriesOk, HoldOk, CopyOk, ForkOk, Sole;
    Parts(s, p);
    assert LocalOk(s.procs[p]);
    hide TypeOk;
    if s.procs[p].pc.exiting {
      GoneKeeps(s, p, e);
    } else {
      Turn(s, p, User, e);
    }
  }

  /** The last step of an exit: the process has no page left. */
  lemma GoneKeeps(s: State, p: Pid, e: Eager)
    requires Inv(s) && p in s.procs && Shows(s, e)
    requires s.procs[p].pt == map[] && s.procs[p].pc.Unmap? && s.procs[p].pc.exiting
    ensures var s' := s.(procs := s.procs - {p}); Inv(s') && Shows(s', e)
  {
    hide Inv, Own, Transit, Sole, Consistent, ShowsProc, TypeOk;
    var s' := s.(procs := s.procs - {p});
    InvConsistent(s);
    GoneFrame(s, p);
    Framed(s, s', {p}, false);
    FramedShows(s, s', {p}, false, e, e);
  }

  lemma GoneFrame(s: State, p: Pid)
    requires Inv(s) && p in s.procs
    requires s.procs[p].pt == map[] && s.procs[p].pc.Unmap?
    ensures var s' := s.(procs := s.procs - {p});
      Own(s') == Own(s) && Transit(s') == Transit(s) && Frame(s, s', {p}, false)
  {
    hide Own, Transit, Sole, Consistent, LocalOk, PagesOk, ChildOk, EntriesOk, HoldOk, CopyOk, ForkOk;
    var s' := s.(procs := s.procs - {p});
    assert forall t :: PageOf(s', t) == PageOf(s, t);
    assert forall a :: PushOf(s', a) == PushOf(s, a);
    hide PageOf, PushOf;
    OwnedPages(s);
  }

  // ---------------------------------------------------------------- sbrk

  lemma ShrinkLocal(pr: Proc, target: Vpn)
    requires LocalOk(pr) && pr.pc.User? && target < pr.np
    ensures var pr' := Proc(Unmap(target, pr.np, false), pr.pt, target);
      && LocalOk(pr') && SameRefs(pr, pr') && Visible(pr') && Visible(pr) && !Fresh(pr'.pc)
      && (forall v :: Counted(pr', v) ==> Counted(pr, v))
  {
  }

  lemma ShrinkCalm(s: State, p: Pid, target: Vpn)
    requires Inv(s) && p in s.procs && s.procs[p].pc.User? && target < s.procs[p].np
    ensures var s' := At(s, p, Proc(Unmap(target, s.procs[p].np, false), s.procs[p].pt, target));
      Inv(s') && Frame(s, s', {p}, false)
  {
    hide Inv, Own, LocalOk, ChildOk, HoldOk, CopyOk, ForkOk, Sole, Visible, Counted, PagesOk, TypeOk, Frame, Calm;
    var pr := s.procs[p];
    var pr' := Proc(Unmap(target, pr.np, false), pr.pt, target);
    Parts(s, p);
    ShrinkLocal(pr, target);
    hide SameRefs;
    QuietIsCalm(s, p, pr');
    CalmKeeps(s, At(s, p, pr'), p, pr');
  }

  lemma ShrinkKeeps(s: State, p: Pid, target: Vpn, e: Eager) returns (e': Eager)
    requires Inv(s) && p in s.procs && s.procs[p].pc.User? && target < s.procs[p].np && Shows(s, e)
    ensures var s' := At(s, p, Proc(Unmap(target, s.procs[p].np, false), s.procs[p].pt, target));
      Inv(s') && EagerStep(e, Shrank(p, target), e') && Shows(s', e')
  {
    hide Inv, Own, LocalOk, ChildOk, HoldOk, CopyOk, ForkOk, Sole, Visible, Counted, PagesOk, TypeOk, Frame;
    hide SameRefs, EntriesOk, Restricts, ShowsProc;
    var pr := s.procs[p];
    var pr' := Proc(Unmap(target, pr.np, false), pr.pt, target);
    var s' := At(s, p, pr');
    Parts(s, p);
    ShrinkLocal(pr, target);
    ShrinkCalm(s, p, target);
    assert ShowsProc(s, pr, e[p]);
    var m: Space := map v: Vpn | v in e[p] && v < target :: e[p][v];
    e' := e[p := m];
    ShrinkSpace(s, pr, e[p], target, m);
    ShrinkShows(s, pr, pr', target, e[p], m);
    SameMemShows(s, s', pr', m);
    FramedShows(s, s', {p}, false, e, e');
  }

  lemma ShrinkSpace(s: State, pr: Proc, m: Space, target: Vpn, m': Space)
    requires ShowsProc(s, pr, m) && target < pr.np && m' == map v: Vpn | v in m && v < target :: m[v]
    ensures Restricts(m, target, m')
  {
  }

  lemma SameMemShows(s: State, s': State, pr: Proc, m: Space)
    requires ShowsProc(s, pr, m) && s'.mem == s.mem
    ensures ShowsProc(s', pr, m)
  {
  }

  lemma ShrinkShows(s: State, pr: Proc, pr': Proc, target: Vpn, m: Space, m': Space)
    requires ShowsProc(s, pr, m) && target < pr.np && pr'.pt == pr.pt && pr'.np == target
    requires (forall v: Vpn :: v in m' <==> v in m && v < target) && forall v :: v in m' ==> m'[v] == m[v]
    ensures ShowsProc(s, pr', m')
  {
  }

  lemma SbrkKeeps(s: State, p: Pid, target: Vpn, e: Eager) returns (e': Eager)
    requires Inv(s) && Enabled(s, Sbrk(p, target)) && Shows(s, e)
    ensures var (s', l) := SbrkStep(s, p, target); Inv(s') && EagerStep(e, l, e') && Shows(s', e')
  {
    hide Inv, Own, Shows, PagesOk, ChildOk, EntriesOk, HoldOk, CopyOk, ForkOk, Sole;
    Parts(s, p);
    assert LocalOk(s.procs[p]);
    if target >= s.procs[p].np {
      e' := e;
      Turn(s, p, Grow(s.procs[p].np, target), e);
    } else {
      e' := ShrinkKeeps(s, p, target, e);
    }
  }

  lemma GrowMapTokens(s: State, s': State, p: Pid, pr': Proc)
    requires p in s.procs && LocalOk(s.procs[p]) && s.procs[p].pc.GrowMap?
    requires pr' == Mapped(s.procs[p]) && s' == At(s, p, pr')
    ensures var cur, mem := s.procs[p].pc.cur, s.procs[p].pc.mem;
      && Hold(p) in Own(s) && Own(s)[Hold(p)] == mem && Pte(p, cur) !in Own(s)
      && Own(s') == (Own(s) - {Hold(p)})[Pte(p, cur) := mem] && Transit(s') == Transit(s)
  {
    hide Own, Transit;
    var pr := s.procs[p];
    assert PageOf(s, Hold(p)) == Some(pr.pc.mem) && PageOf(s', Hold(p)) == None;
    assert PageOf(s, Pte(p, pr.pc.cur)) == None && PageOf(s', Pte(p, pr.pc.cur)) == Some(pr.pc.mem);
    assert forall t :: t != Hold(p) && t != Pte(p, pr.pc.cur) ==> PageOf(s', t) == PageOf(s, t);
    assert forall a :: PushOf(s', a) == PushOf(s, a);
  }

  lemma MappedLocal(pr: Proc)
    requires LocalOk(pr) && pr.pc.GrowMap?
    ensures LocalOk(Mapped(pr)) && SameLook(pr, Mapped(pr))
    ensures forall v :: Counted(Mapped(pr), v) <==> Counted(pr, v) || v == pr.pc.cur
    ensures Held(pr) == Some(pr.pc.mem) && Held(Mapped(pr)) == None && Pushing(Mapped(pr)) == None
  {
  }

  lemma GrowMapOwn(s: State, s': State, p: Pid)
    requires Inv(s) && p in s.procs && s.procs[p].pc.GrowMap? && s' == At(s, p, Mapped(s.procs[p]))
    ensures Consistent(s'.k, Own(s'), Transit(s')) && Sole(Own(s'), Pte(p, s.procs[p].pc.cur))
    ensures forall u :: u in Own(s') && Sole(Own(s), u) ==> Sole(Own(s'), u)
    ensures Frame(s, s', {p}, false)
  {
    hide Inv, TypeOk, Own, Transit, LocalOk, PagesOk, ChildOk, EntriesOk, CopyOk, ForkOk, Consistent, PageOf, Mapped;
    Parts(s, p);
    InvConsistent(s);
    OwnedPages(s);
    GrowMapTokens(s, s', p, s'.procs[p]);
    RenameKeeps(s.k, Own(s), Transit(s), Hold(p), Pte(p, s.procs[p].pc.cur));
    assert forall pa :: pa in s'.k.refcnt ==> Managed(s', pa) by {
      InvManaged(s);
    }
  }

  lemma InvManaged(s: State)
    requires Inv(s)
    ensures forall pa :: pa in s.k.refcnt ==> Managed(s, pa)
  {
    hide Own, Transit, Consistent, LocalOk, PagesOk, ChildOk;
  }

  lemma GrowMapOne(s: State, s': State, p: Pid)
    requires Inv(s) && p in s.procs && s.procs[p].pc.GrowMap? && s' == At(s, p, Mapped(s.procs[p]))
    ensures OneOk(s', p)
  {
    hide Inv, TypeOk, Own, Sole, LocalOk, Counted, Held, Pushing, SameLook, Frame, Consistent;
    var pr := s.procs[p];
    Parts(s, p);
    MappedLocal(pr);
    GrowMapOwn(s, s', p);
    forall v | Counted(s'.procs[p], v)
      ensures Pte(p, v) in Own(s')
    {
      assert PageOf(s', Pte(p, v)).Some?;
    }
  }

  lemma GrowMapFailLocal(pr: Proc)
    requires LocalOk(pr) && pr.pc.GrowMap?
    ensures var pr' := pr.(pc := GrowDrop(pr.pc.cur, pr.pc.mem)); LocalOk(pr') && SameRefs(pr, pr') && SameLook(pr, pr')
  {
  }

  lemma GrowMapKeeps(s: State, p: Pid, mapped: bool, e: Eager)
    requires Inv(s) && Enabled(s, DoGrowMap(p, mapped)) && Shows(s, e)
    ensures var (s', l) := GrowMapStep(s, p, mapped); Inv(s') && EagerStep(e, l, e) && Shows(s', e)
  {
    hide Inv, Own, Transit, LocalOk, ChildOk, HoldOk, CopyOk, ForkOk, Sole, Shows, SameLook, SameRefs, Frame,
      Consistent, Mapped;
    Parts(s, p);
    var pr, s' := s.procs[p], GrowMapStep(s, p, mapped).0;
    hide TypeOk;
    if mapped {
      MappedLocal(pr);
      GrowMapOwn(s, s', p);
      GrowMapOne(s, s', p);
      Framed(s, s', {p}, false);
      QuietShows(s, s', p, Mapped(pr), e);
    } else {
      GrowMapFailLocal(pr);
      Silent(s, p, s'.procs[p], e);
    }
  }

  lemma GrowDoneLocal(pr: Proc)
    requires LocalOk(pr) && pr.pc.Grow? && pr.pc.cur == pr.pc.target
    ensures var pr' := pr.(pc := User, np := pr.pc.target);
      LocalOk(pr') && SameRefs(pr, pr') && Visible(pr) && Visible(pr') && UpTo(pr'.pt, pr'.np) && pr.np <= pr'.np
    ensures Writable(pr.pt, pr.np)
  {
  }

  lemma GrowDoneKeeps(s: State, p: Pid, e: Eager) returns (e': Eager)
    requires Inv(s) && Enabled(s, DoGrowDone(p)) && Shows(s, e)
    ensures var (s', l) := GrowDoneStep(s, p); Inv(s') && EagerStep(e, l, e') && Shows(s', e')
  {
    hide Inv, Own, LocalOk, ChildOk, HoldOk, CopyOk, ForkOk, Sole, Visible, TypeOk, ShowsProc;
    var pr, s' := s.procs[p], GrowDoneStep(s, p).0;
    var pr' := s'.procs[p];
    Parts(s, p);
    GrowDoneLocal(pr);
    hide Enabled, SameRefs;
    GrowDoneCalm(s, p);
    hide EntriesOk, Counted, Frame;
    e' := GrownSpace(s, s', pr, pr', p, e);
    FramedShows(s, s', {p}, false, e, e');
  }

  lemma GrowDoneCalm(s: State, p: Pid)
    requires Inv(s) && Enabled(s, DoGrowDone(p))
    ensures var s' := GrowDoneStep(s, p).0; Inv(s') && Frame(s, s', {p}, false)
  {
    hide Inv, Own, LocalOk, ChildOk, HoldOk, CopyOk, ForkOk, Sole, Visible, TypeOk, Frame, Calm, PagesOk;
    var pr, s' := s.procs[p], GrowDoneStep(s, p).0;
    Parts(s, p);
    GrowDoneLocal(pr);
    hide Enabled, SameRefs;
    QuietIsCalm(s, p, s'.procs[p]);
    CalmKeeps(s, s', p, s'.procs[p]);
  }

  lemma GrownSpace(s: State, s': State, pr: Proc, pr': Proc, p: Pid, e: Eager) returns (e': Eager)
    requires s'.mem == s.mem && p in e && ShowsProc(s, pr, e[p]) && PagesOk(s, pr') && pr'.pt == pr.pt
    requires UpTo(pr'.pt, pr'.np) && pr.np <= pr'.np
    requires forall v :: v in pr.pt && pr.np <= v ==> pr.pt[v].u && (pr.pt[v].w || pr.pt[v].cow)
    ensures EagerStep(e, Grew(p, pr'.np), e') && p in e' && ShowsProc(s', pr', e'[p]) && e' == e[p := e'[p]]
  {
    var m: Space := map v: Vpn | v in pr'.pt ::
      EPage(s.mem[pr'.pt[v].pa], pr'.pt[v].u, pr'.pt[v].w || pr'.pt[v].cow, pr'.pt[v].x);
    e' := e[p := m];
    forall v | v in e[p]
      ensures m[v] == e[p][v]
    {
      assert ShowsPage(s, pr.pt[v], e[p][v]);
    }
  }

  // ---------------------------------------------------------------- fork

  /** A step of fork, by the parent p on itself and the child c, that changes no counter. */
  ghost predicate Pair(s: State, s': State, p: Pid, c: Pid) {
    && p in s.procs && p in s'.procs && p != c && !s.procs[p].pc.Embryo?
    && (c in s.procs ==> s.procs[c].pc.Embryo? && s.procs[c].pc.parent == p)
    && s' == s.(procs := s'.procs)
    && (forall q :: q != p && q != c ==> (q in s'.procs <==> q in s.procs))
    && (forall q :: q != p && q != c && q in s.procs ==> s'.procs[q] == s.procs[q])
    && SameRefs(s.procs[p], s'.procs[p])
    && (if c in s.procs && c in s'.procs then SameCounted(s.procs[c], s'.procs[c])
        else (c in s.procs ==> NoRefs(s.procs[c])) && (c in s'.procs ==> NoRefs(s'.procs[c])))
  }

  ghost predicate NoRefs(pr: Proc) {
    Held(pr) == None && Pushing(pr) == None && forall v :: !Counted(pr, v)
  }

  ghost predicate SameCounted(pr: Proc, pr': Proc) {
    && Held(pr') == Held(pr) && Pushing(pr') == Pushing(pr)
    && (forall v :: Counted(pr', v) <==> Counted(pr, v))
    && (forall v :: Counted(pr, v) ==> pr'.pt[v].pa == pr.pt[v].pa)
  }

  lemma PairTokens(s: State, s': State, p: Pid, c: Pid)
    requires Pair(s, s', p, c)
    ensures Own(s') == Own(s) && Transit(s') == Transit(s)
  {
    hide Own, Transit, Held, Pushing;
    assert forall v :: Counted(s'.procs[p], v) ==> v in s'.procs[p].pt;
    hide Counted;
    assert forall t :: PageOf(s', t) == PageOf(s, t);
    assert forall a :: PushOf(s', a) == PushOf(s, a);
  }

  lemma PairFrame(s: State, s': State, p: Pid, c: Pid)
    requires Inv(s) && Pair(s, s', p, c)
    ensures Frame(s, s', {p, c}, false) && Consistent(s'.k, Own(s'), Transit(s'))
  {
    hide Inv, Own, Transit, Consistent, SameRefs, SameCounted, NoRefs;
    PairTokens(s, s', p, c);
    OwnedPages(s);
    InvManaged(s);
    InvConsistent(s);
  }

  lemma PairKeeps(s: State, s': State, p: Pid, c: Pid, e: Eager, e': Eager)
    requires Inv(s) && Pair(s, s', p, c) && Shows(s, e)
    requires OneOk(s', p) && (c in s'.procs ==> OneOk(s', c))
    requires forall q :: q != p && q != c ==> (q in e' <==> q in e) && (q in e ==> e'[q] == e[q])
    requires p in e' <==> Visible(s'.procs[p])
    requires c in e' <==> c in s'.procs && Visible(s'.procs[c])
    requires p in e' ==> ShowsProc(s', s'.procs[p], e'[p])
    requires c in e' ==> ShowsProc(s', s'.procs[c], e'[c])
    ensures Inv(s') && Shows(s', e')
  {
    hide Inv, Own, Transit, Consistent, Frame, OneOk, ShowsProc, Visible, SameRefs, SameCounted, NoRefs;
    PairFrame(s, s', p, c);
    Framed(s, s', {p, c}, false);
    FramedShows(s, s', {p, c}, false, e, e');
  }

  lemma SameLookShows(s: State, s': State, pr: Proc, pr': Proc, m: Space)
    requires ShowsProc(s, pr, m) && SameLook(pr, pr') && s'.mem == s.mem
    ensures ShowsProc(s', pr', m)
  {
    hide Visible;
    assert forall v :: 0 <= v < pr.np ==> ShowsPage(s, pr.pt[v], m[v]);
  }

  lemma ForkLocal(pr: Proc, p: Pid, c: Pid)
    requires LocalOk(pr) && pr.pc.User?
    ensures var pr', ch := pr.(pc := ForkPage(c, 0)), Proc(Embryo(p, None), map[], 0);
      LocalOk(pr') && SameRefs(pr, pr') && SameLook(pr, pr') && LocalOk(ch) && NoRefs(ch) && !Visible(ch) && Visible(pr)
  {
  }

  lemma ForkOne(s: State, p: Pid, c: Pid)
    requires Inv(s) && Enabled(s, Fork(p, c))
    ensures var s' := ForkStep(s, p, c).0; Pair(s, s', p, c) && OneOk(s', p) && OneOk(s', c)
  {
    hide Inv, Own, Transit, LocalOk, Sole, NoRefs, Visible;
    Parts(s, p);
    var pr, s' := s.procs[p], ForkStep(s, p, c).0;
    hide TypeOk;
    ForkLocal(pr, p, c);
    PairTokens(s, s', p, c);
  }

  lemma ForkKeeps(s: State, p: Pid, c: Pid, e: Eager)
    requires Inv(s) && Enabled(s, Fork(p, c)) && Shows(s, e)
    ensures var (s', l) := ForkStep(s, p, c); Inv(s') && EagerStep(e, l, e) && Shows(s', e)
  {
    hide Inv, Own, Transit, LocalOk, NoRefs, Visible, OneOk, Pair, ShowsProc, SameRefs;
    var pr, s' := s.procs[p], ForkStep(s, p, c).0;
    Parts(s, p);
    assert LocalOk(pr) by {
      assert OneOk(s, p);
    }
    ForkLocal(pr, p, c);
    ForkOne(s, p, c);
    SameLookShows(s, s', pr, s'.procs[p], e[p]);
    PairKeeps(s, s', p, c, e, e);
  }

  lemma ForkPageLocal(pr: Proc, p: Pid)
    requires LocalOk(pr) && pr.pc.ForkPage? && pr.pc.i < pr.np
    ensures var i, c := pr.pc.i, pr.pc.child;
      var pr' := pr.(pc := ForkIncref(c, i), pt := pr.pt[i := Share(pr.pt[i])]);
      LocalOk(pr') && SameRefs(pr, pr') && SameLook(pr, pr') && Visible(pr) && Held(pr') == None && Pushing(pr') == None
    ensures var i := pr.pc.i;
      var pr' := pr.(pc := User, pt := pr.pt[i := Share(pr.pt[i])]);
      LocalOk(pr') && SameRefs(pr, pr') && SameLook(pr, pr')
  {
  }

  lemma ForkChildLocal(ch: Proc, p: Pid, i: Vpn, l: Leaf)
    requires ch.pc == Embryo(p, None) && LocalOk(ch) && UpTo(ch.pt, i)
    ensures var ch' := ch.(pc := Embryo(p, Some(i)), pt := ch.pt[i := l]);
      LocalOk(ch') && SameCounted(ch, ch') && UpTo(ch'.pt, i + 1) && Held(ch') == None && Pushing(ch') == None
    ensures i == 0 ==> NoRefs(ch)
  {
  }

  /** What is known between the parent p and the child c in the middle of a fork. */
  ghost predicate ForkPair(s: State, p: Pid, c: Pid, i: Vpn, uncounted: Option<Vpn>) {
    && p in s.procs && c in s.procs && p != c
    && LocalOk(s.procs[p]) && LocalOk(s.procs[c])
    && i <= s.procs[p].np && UpTo(s.procs[p].pt, s.procs[p].np)
    && CopyOf(s, p, c, uncounted, if uncounted == None then i else i + 1)
    && s.procs[p].pc == (if uncounted == None then ForkPage(c, i) else ForkIncref(c, i))
  }

  lemma ForkParts(s: State, p: Pid)
    requires Inv(s) && p in s.procs && (s.procs[p].pc.ForkPage? || s.procs[p].pc.ForkIncref?)
    ensures var pc := s.procs[p].pc;
      && ForkPair(s, p, pc.child, pc.i, if pc.ForkPage? then None else Some(pc.i))
      && (pc.ForkIncref? ==> pc.i < s.procs[p].np)
  {
    hide Inv, TypeOk, Own, PagesOk, EntriesOk, HoldOk, CopyOk;
    Parts(s, p);
    assert LocalOk(s.procs[s.procs[p].pc.child]) by {
      Parts(s, s.procs[p].pc.child);
    }
  }

  lemma SharePair(s: State, p: Pid, c: Pid, i: Vpn)
    requires ForkPair(s, p, c, i, None) && i < s.procs[p].np
    ensures Pair(s, SharePage(s, p, c, i), p, c)
  {
    hide LocalOk, NoRefs, SameCounted, SameRefs, SameLook, Visible;
    ForkPageLocal(s.procs[p], p);
    ForkChildLocal(s.procs[c], p, i, Share(s.procs[p].pt[i]));
  }

  lemma ShareParent(s: State, p: Pid, c: Pid, i: Vpn)
    requires Inv(s) && ForkPair(s, p, c, i, None) && i < s.procs[p].np
    ensures OneOk(SharePage(s, p, c, i), p)
  {
    hide Inv, TypeOk, Own, LocalOk, Sole, NoRefs, Visible, SameCounted, SameLook, Held, Pushing, Pair;
    var s' := SharePage(s, p, c, i);
    Parts(s, p);
    SharePair(s, p, c, i);
    PairTokens(s, s', p, c);
    ForkPageLocal(s.procs[p], p);
    ForkChildLocal(s.procs[c], p, i, Share(s.procs[p].pt[i]));
  }

  lemma ShareChild(s: State, p: Pid, c: Pid, i: Vpn)
    requires Inv(s) && ForkPair(s, p, c, i, None) && i < s.procs[p].np
    ensures OneOk(SharePage(s, p, c, i), c)
  {
    hide Inv, TypeOk, Own, LocalOk, Sole, NoRefs, Visible, SameCounted, SameLook, SameRefs, Held, Pushing;
    Parts(s, p);
    assert PagesOk(s, s.procs[p]);
    hide EntriesOk;
    Parts(s, c);
    ForkPageLocal(s.procs[p], p);
    ForkChildLocal(s.procs[c], p, i, Share(s.procs[p].pt[i]));
    assert EntriesOk(SharePage(s, p, c, i), c) by {
      ShareEntries(s, p, c, i);
    }
  }

  lemma ShareEntries(s: State, p: Pid, c: Pid, i: Vpn)
    requires ForkPair(s, p, c, i, None) && i < s.procs[p].np
    ensures EntriesOk(SharePage(s, p, c, i), c)
  {
    hide Own, Sole, LocalOk;
  }

  lemma ForkPageMapped(s: State, p: Pid, e: Eager)
    requires Inv(s) && Enabled(s, DoForkPage(p, true)) && Shows(s, e)
    ensures var (s', l) := ForkPageStep(s, p, true); Inv(s') && EagerStep(e, l, e) && Shows(s', e)
  {
    hide Inv, Own, ShowsProc, OneOk, Pair, NoRefs, SameCounted, Held, Pushing, SameRefs, SameLook, LocalOk;
    Parts(s, p);
    ForkParts(s, p);
    var pr := s.procs[p];
    var c, i := pr.pc.child, pr.pc.i;
    var s' := SharePage(s, p, c, i);
    hide TypeOk, Enabled;
    ForkPageLocal(pr, p);
    SharePair(s, p, c, i);
    ShareParent(s, p, c, i);
    ShareChild(s, p, c, i);
    SameLookShows(s, s', pr, s'.procs[p], e[p]);
    PairKeeps(s, s', p, c, e, e);
  }

  lemma HaltedKeeps(s: State, e: Eager)
    requires Inv(s) && Shows(s, e)
    ensures var s' := s.(halted := true); Inv(s') && Shows(s', e)
  {
    hide Inv, Own, Transit, Consistent, ShowsProc, Sole;
    var s' := s.(halted := true);
    assert forall t :: PageOf(s', t) == PageOf(s, t);
    assert forall a :: PushOf(s', a) == PushOf(s, a);
    hide PageOf, PushOf;
    assert Own(s') == Own(s) && Transit(s') == Transit(s);
    OwnedPages(s);
    InvManaged(s);
    InvConsistent(s);
    Framed(s, s', {}, false);
    FramedShows(s, s', {}, false, e, e);
  }

  lemma UndonePair(s: State, p: Pid, c: Pid)
    requires ForkPair(s, p, c, 0, None) && 0 < s.procs[p].np
    ensures Pair(s, ForkUndone(s, p, c), p, c)
  {
    hide LocalOk, NoRefs, SameCounted, SameRefs, SameLook, Visible;
    ForkPageLocal(s.procs[p], p);
    ForkChildLocal(s.procs[c], p, 0, Share(s.procs[p].pt[0]));
  }

  lemma UndoneOne(s: State, p: Pid, c: Pid)
    requires Inv(s) && ForkPair(s, p, c, 0, None) && 0 < s.procs[p].np
    ensures OneOk(ForkUndone(s, p, c), p)
  {
    hide Inv, TypeOk, Own, LocalOk, Sole, NoRefs, Visible, SameCounted, SameLook, Held, Pushing, Pair;
    Parts(s, p);
    UndonePair(s, p, c);
    PairTokens(s, ForkUndone(s, p, c), p, c);
    ForkPageLocal(s.procs[p], p);
  }

  lemma UndoneKeeps(s: State, p: Pid, c: Pid, e: Eager)
    requires Inv(s) && ForkPair(s, p, c, 0, None) && 0 < s.procs[p].np && Shows(s, e)
    ensures var s' := ForkUndone(s, p, c); Inv(s') && Shows(s', e)
  {
    hide Inv, Own, ShowsProc, OneOk, Pair, NoRefs, SameCounted, Held, Pushing, SameRefs, SameLook, LocalOk;
    var s' := ForkUndone(s, p, c);
    ForkPageLocal(s.procs[p], p);
    UndonePair(s, p, c);
    UndoneOne(s, p, c);
    SameLookShows(s, s', s.procs[p], s'.procs[p], e[p]);
    PairKeeps(s, s', p, c, e, e);
  }

  lemma ForkPageFailed(s: State, p: Pid, e: Eager)
    requires Inv(s) && Enabled(s, DoForkPage(p, false)) && Shows(s, e)
    ensures var (s', l) := ForkPageStep(s, p, false); Inv(s') && EagerStep(e, l, e) && Shows(s', e)
  {
    hide Inv, Own, Shows, OneOk, LocalOk, CopyOf;
    Parts(s, p);
    ForkParts(s, p);
    hide TypeOk;
    if s.procs[p].pc.i > 0 {
      HaltedKeeps(s, e);
    } else {
      UndoneKeeps(s, p, s.procs[p].pc.child, e);
    }
  }

  lemma OneMoreToken(s: State, s': State, t: Token, pa: Pa)
    requires PageOf(s, t) == None && PageOf(s', t) == Some(pa) && forall u :: u != t ==> PageOf(s', u) == PageOf(s, u)
    requires forall a :: PushOf(s', a) == PushOf(s, a)
    ensures t !in Own(s) && Own(s') == Own(s)[t := pa] && Transit(s') == Transit(s)
  {
    hide Own, Transit, PageOf, PushOf;
  }

  lemma CountPageTokens(s: State, p: Pid, c: Pid, i: Vpn)
    requires ForkPair(s, p, c, i, Some(i)) && i < s.procs[p].np && s.procs[p].pt[i].pa in s.k.refcnt
    ensures var s', pa := CountPage(s, p, c, i), s.procs[p].pt[i].pa;
      && Pte(c, i) !in Own(s) && Pte(p, i) in Own(s) && Own(s)[Pte(p, i)] == pa
      && Own(s') == Own(s)[Pte(c, i) := pa] && Transit(s') == Transit(s)
  {
    hide Own, Transit, LocalOk;
    var pr, s' := s.procs[p], CountPage(s, p, c, i);
    assert PageOf(s, Pte(p, i)) == Some(pr.pt[i].pa);
    assert PageOf(s, Pte(c, i)) == None && PageOf(s', Pte(c, i)) == Some(pr.pt[i].pa);
    assert forall t :: t != Pte(c, i) ==> PageOf(s', t) == PageOf(s, t);
    assert forall a :: PushOf(s', a) == PushOf(s, a);
    hide PageOf, PushOf, CountPage;
    OneMoreToken(s, s', Pte(c, i), pr.pt[i].pa);
  }

  lemma CountPageFrame(s: State, p: Pid, c: Pid, i: Vpn)
    requires Inv(s) && ForkPair(s, p, c, i, Some(i)) && i < s.procs[p].np
    ensures s.procs[p].pt[i].pa in s.k.refcnt
    ensures var s' := CountPage(s, p, c, i);
      && Consistent(s'.k, Own(s'), Transit(s')) && Frame(s, s', {p, c}, false)
      && (forall u :: Sole(Own(s), u) && u != Pte(p, i) ==> Sole(Own(s'), u))
  {
    hide Inv, TypeOk, Own, Transit, Consistent, LocalOk, PageOf, EntriesOk, HoldOk, CopyOk, ForkOk;
    Parts(s, p);
    CountPageTokens(s, p, c, i);
    OwnedPages(s);
    InvManaged(s);
    InvConsistent(s);
    IncrefKeeps(s.k, Own(s), Transit(s), Pte(c, i), s.procs[p].pt[i].pa);
  }

  lemma CountPageLocal(pr: Proc, ch: Proc, p: Pid)
    requires LocalOk(pr) && pr.pc.ForkIncref? && LocalOk(ch) && ch.pc == Embryo(p, Some(pr.pc.i))
    ensures var pr', ch' := pr.(pc := ForkPage(pr.pc.child, pr.pc.i + 1)), ch.(pc := Embryo(p, None));
      && LocalOk(pr') && LocalOk(ch') && SameLook(pr, pr') && Visible(pr)
      && Held(ch') == None && Pushing(ch') == None && Held(pr') == None && Pushing(pr') == None
      && (forall v :: v in pr.pt ==> Counted(pr, v))
  {
  }

  lemma CountPageOne(s: State, p: Pid, c: Pid, i: Vpn)
    requires Inv(s) && ForkPair(s, p, c, i, Some(i)) && i < s.procs[p].np && s.procs[p].pt[i].pa in s.k.refcnt
    ensures var s' := CountPage(s, p, c, i); OneOk(s', p) && OneOk(s', c)
  {
    hide Inv, TypeOk, Own, LocalOk, Sole, Held, Pushing, Frame, Consistent, SameLook, Visible;
    var s' := CountPage(s, p, c, i);
    Parts(s, p);
    Parts(s, c);
    CountPageLocal(s.procs[p], s.procs[c], p);
    CountPageFrame(s, p, c, i);
    assert forall pa :: Managed(s, pa) ==> Managed(s', pa);
  }

  lemma ForkIncrefKeeps(s: State, p: Pid, e: Eager)
    requires Inv(s) && Enabled(s, DoForkIncref(p)) && Shows(s, e)
    ensures var (s', l) := ForkIncrefStep(s, p); Inv(s') && EagerStep(e, l, e) && Shows(s', e)
  {
    hide Inv, Own, LocalOk, ShowsProc, OneOk, Consistent, Frame, Sole, SameLook, Held, Pushing, Counted;
    Parts(s, p);
    ForkParts(s, p);
    var pr := s.procs[p];
    var c, i := pr.pc.child, pr.pc.i;
    hide TypeOk;
    CountPageFrame(s, p, c, i);
    var s' := CountPage(s, p, c, i);
    CountPageLocal(pr, s.procs[c], p);
    CountPageOne(s, p, c, i);
    Framed(s, s', {p, c}, false);
    SameLookShows(s, s', pr, s'.procs[p], e[p]);
    FramedShows(s, s', {p, c}, false, e, e);
  }

  lemma BornLocal(pr: Proc, ch: Proc, p: Pid)
    requires LocalOk(pr) && pr.pc.ForkPage? && pr.pc.i == pr.np && ch.pc == Embryo(p, None) && UpTo(ch.pt, pr.np)
    ensures var pr', ch' := pr.(pc := User), ch.(pc := User, np := pr.np);
      && LocalOk(pr') && LocalOk(ch') && SameRefs(pr, pr') && SameLook(pr, pr') && SameCounted(ch, ch')
      && Visible(pr) && Visible(ch') && !Visible(ch) && Held(ch') == None && Pushing(ch') == None
  {
  }

  lemma BornPair(s: State, p: Pid, c: Pid)
    requires p in s.procs && ForkPair(s, p, c, s.procs[p].np, None)
    ensures Pair(s, Born(s, p, c), p, c)
  {
    hide LocalOk, NoRefs, SameCounted, SameRefs, SameLook, Visible, Held, Pushing;
    BornLocal(s.procs[p], s.procs[c], p);
  }

  lemma BornOne(s: State, p: Pid, c: Pid)
    requires Inv(s) && p in s.procs && ForkPair(s, p, c, s.procs[p].np, None)
    ensures var s' := Born(s, p, c); OneOk(s', p) && OneOk(s', c)
  {
    hide Inv, TypeOk, Own, Transit, LocalOk, Sole, Visible, SameLook, Held, Pushing, Pair;
    BornPair(s, p, c);
    PairTokens(s, Born(s, p, c), p, c);
    Parts(s, p);
    Parts(s, c);
    BornLocal(s.procs[p], s.procs[c], p);
  }

  /** fork returns: the child's memory is a copy of the parent's. */
  lemma ForkDoneKeeps(s: State, p: Pid, e: Eager) returns (e': Eager)
    requires Inv(s) && Enabled(s, DoForkDone(p)) && Shows(s, e)
    ensures var (s', l) := ForkDoneStep(s, p); Inv(s') && EagerStep(e, l, e') && Shows(s', e')
  {
    hide Inv, Own, LocalOk, ShowsProc, OneOk, Pair, SameCounted, SameRefs, SameLook, Visible, Held, Pushing;
    Parts(s, p);
    ForkParts(s, p);
    var pr := s.procs[p];
    var c := pr.pc.child;
    var s' := Born(s, p, c);
    hide TypeOk;
    BornLocal(pr, s.procs[c], p);
    BornPair(s, p, c);
    BornOne(s, p, c);
    e' := e[c := e[p]];
    SameLookShows(s, s', pr, s'.procs[p], e[p]);
    BornShows(s, s', pr, s'.procs[c], e[p]);
    PairKeeps(s, s', p, c, e, e');
  }

  lemma BornShows(s: State, s': State, pr: Proc, ch: Proc, m: Space)
    requires ShowsProc(s, pr, m) && s'.mem == s.mem && ch.np == pr.np
    requires forall j :: 0 <= j < pr.np ==> j in pr.pt && j in ch.pt && ch.pt[j] == pr.pt[j]
    ensures ShowsProc(s', ch, m)
  {
    assert forall v :: 0 <= v < pr.np ==> ShowsPage(s, pr.pt[v], m[v]);
  }

  // ---------------------------------------------------------------- the rest of the kernel

  lemma KernelAllocKeeps(s: State, e: Eager)
    requires Inv(s) && Enabled(s, KernelAlloc) && Shows(s, e)
    ensures var s' := KernelAllocStep(s); Inv(s') && Shows(s', e)
  {
    hide Inv, Own, Transit, Consistent, ShowsProc;
    var pa, s' := s.k.free[0], KernelAllocStep(s);
    assert pa in s.k.refcnt && Kernel(pa) !in Own(s) by {
      KernelNew(s);
    }
    assert forall t :: t != Kernel(pa) ==> PageOf(s', t) == PageOf(s, t);
    assert forall a :: PushOf(s', a) == PushOf(s, a);
    assert PageOf(s', Kernel(pa)) == Some(pa);
    hide PageOf, PushOf;
    assert Own(s') == Own(s)[Kernel(pa) := pa] && Transit(s') == Transit(s);
    InvConsistent(s);
    KallocKeeps(s.k, Own(s), Transit(s), Kernel(pa));
    KernelFrame(s, s', pa);
    KernelSoles(s);
    SoleInsert(Own(s), Kernel(pa), pa);
    hide Sole, Frame;
    InvManaged(s);
    Framed(s, s', {}, true);
    FramedShows(s, s', {}, true, e, e);
  }

  lemma KernelNew(s: State)
    requires Inv(s) && s.k.free != []
    ensures s.k.free[0] in s.k.refcnt && Kernel(s.k.free[0]) !in Own(s)
  {
    hide TypeOk, Own, Transit, EntriesOk, HoldOk, CopyOk, ForkOk, Sole;
    var pa := s.k.free[0];
    assert Kernel(pa) in Own(s) ==> Own(s)[Kernel(pa)] == pa;
    assert pa in s.k.free;
    assert PageConsistent(s.k, Own(s), Transit(s), pa);
    CountPositive(Own(s), pa);
  }

  lemma KernelSoles(s: State)
    requires Inv(s)
    ensures forall pa :: pa in s.kern ==> Managed(s, pa) && Sole(Own(s), Kernel(pa))
  {
    hide Own, Transit, Consistent, LocalOk, PagesOk, ChildOk, EntriesOk, HoldOk, CopyOk, ForkOk, Sole;
  }

  /** A step of the kernel on the page pa, which it alone refers to or nobody did. */
  lemma KernelFrame(s: State, s': State, pa: Pa)
    requires Inv(s) && s'.procs == s.procs && s'.mem == s.mem && s'.k.refcnt.Keys == s.k.refcnt.Keys
    requires forall t :: t in Own(s') && t.Kernel? ==>
      (t in Own(s) && Own(s')[t] == Own(s)[t]) || (forall u :: u in Own(s) ==> Own(s)[u] != Own(s')[t])
    ensures Frame(s, s', {}, true)
  {
    hide Inv, Own, Consistent;
    OwnedPages(s);
    InvManaged(s);
  }

  lemma KernelFreeTokens(s: State, pa: Pa)
    requires TypeOk(s) && Enabled(s, KernelFree(pa))
    ensures var s' := KernelFreeStep(s, pa);
      && Kernel(pa) in Own(s) && Own(s)[Kernel(pa)] == pa
      && Own(s') == Own(s) - {Kernel(pa)} && Transit(s') == Transit(s)[ByKernel(pa) := pa]
  {
    hide Own, Transit;
    var s' := KernelFreeStep(s, pa);
    hide TypeOk;
    assert forall t :: t != Kernel(pa) ==> PageOf(s', t) == PageOf(s, t);
    assert forall a :: a != ByKernel(pa) ==> PushOf(s', a) == PushOf(s, a);
    assert PageOf(s', Kernel(pa)) == None && PageOf(s, Kernel(pa)) == Some(pa) && PushOf(s', ByKernel(pa)) == Some(pa);
    hide PageOf, PushOf;
  }

  lemma KernelFreeKeeps(s: State, pa: Pa, e: Eager)
    requires Inv(s) && Enabled(s, KernelFree(pa)) && Shows(s, e)
    ensures TypeOk(s)
    ensures var s' := KernelFreeStep(s, pa); Inv(s') && Shows(s', e)
  {
    hide Inv, Own, Transit, Consistent, ShowsProc;
    InvTypeOk(s);
    var s' := KernelFreeStep(s, pa);
    hide TypeOk;
    KernelSoles(s);
    KernelIdle(s, pa);
    KernelFreeTokens(s, pa);
    hide PageOf, PushOf;
    InvConsistent(s);
    DecrefKeeps(s.k, Own(s), Transit(s), Kernel(pa), ByKernel(pa));
    KernelFrame(s, s', pa);
    assert forall q :: q in s'.kern ==> Sole(Own(s'), Kernel(q));
    hide Sole, Frame;
    InvManaged(s);
    Framed(s, s', {}, true);
    FramedShows(s, s', {}, true, e, e);
  }

  lemma InvTypeOk(s: State)
    requires Inv(s)
    ensures TypeOk(s)
  {
    hide TypeOk, Own, Transit, Consistent;
  }

  /** A page that the kernel uses is not being freed by it. */
  lemma KernelIdle(s: State, pa: Pa)
    requires Inv(s) && pa in s.kern
    ensures ByKernel(pa) !in Transit(s) && pa in s.k.refcnt
  {
    hide TypeOk, Own, Transit, EntriesOk, HoldOk, CopyOk, ForkOk, Sole;
    assert ByKernel(pa) in Transit(s) ==> Transit(s)[ByKernel(pa)] == pa;
    assert PageOf(s, Kernel(pa)) == Some(pa);
    assert PageConsistent(s.k, Own(s), Transit(s), pa);
    CountPositive(Own(s), pa);
  }

  lemma KernelPushKeeps(s: State, pa: Pa, e: Eager)
    requires Inv(s) && Enabled(s, KernelPush(pa)) && Shows(s, e)
    ensures var s' := s.(k := Push(s.k, pa), kpush := s.kpush - {pa}); Inv(s') && Shows(s', e)
  {
    hide Inv, Own, Transit, Consistent, ShowsProc;
    var s' := s.(k := Push(s.k, pa), kpush := s.kpush - {pa});
    KernelSoles(s);
    assert forall t :: PageOf(s', t) == PageOf(s, t);
    assert forall a :: a != ByKernel(pa) ==> PushOf(s', a) == PushOf(s, a);
    assert PushOf(s, ByKernel(pa)) == Some(pa) && PushOf(s', ByKernel(pa)) == None;
    hide PageOf, PushOf;
    assert Own(s') == Own(s) && Transit(s') == Transit(s) - {ByKernel(pa)};
    InvConsistent(s);
    PushKeeps(s.k, Own(s), Transit(s), ByKernel(pa));
    KernelFrame(s, s', pa);
    hide Sole, Frame;
    InvManaged(s);
    Framed(s, s', {}, true);
    FramedShows(s, s', {}, true, e, e);
  }

  // ---------------------------------------------------------------- whole runs

  lemma FaultStepKeeps(s: State, st: Step, e: Eager) returns (e': Eager)
    requires Inv(s) && Enabled(s, st) && Shows(s, e)
    requires st.DoTest? || st.DoCount? || st.DoUpgrade? || st.DoAlloc? || st.DoCopyByte? || st.DoRemap?
      || st.DoDrop? || st.DoPush?
    ensures TypeOk(s)
    ensures var (s', l) := Do(s, st); Inv(s') && EagerStep(e, l, e') && Shows(s', e')
  {
    hide Inv, TypeOk, Enabled, Shows, EagerStep;
    hide TestStep, CountStep, UpgradeStep, AllocStep, CopyByteStep, RemapStep, DropStep, PushStep;
    InvTypeOk(s);
    e' := e;
    match st
    case DoTest(p) => e' := TestKeeps(s, p, e);
    case DoCount(p) => CountKeeps(s, p, e);
    case DoUpgrade(p) => UpgradeKeeps(s, p, e);
    case DoAlloc(p, junk) => e' := AllocKeeps(s, p, junk, e);
    case DoCopyByte(p) => CopyByteKeeps(s, p, e);
    case DoRemap(p) => RemapKeeps(s, p, e);
    case DoDrop(p) => DropKeeps(s, p, e);
    case DoPush(p) => ListedKeeps(s, p, e);
  }

  lemma ForkStepKeeps(s: State, st: Step, e: Eager) returns (e': Eager)
    requires Inv(s) && Enabled(s, st) && Shows(s, e)
    requires st.Fork? || st.DoForkPage? || st.DoForkIncref? || st.DoForkDone?
      || st.KernelAlloc? || st.KernelFree? || st.KernelPush?
    ensures TypeOk(s)
    ensures var (s', l) := Do(s, st); Inv(s') && EagerStep(e, l, e') && Shows(s', e')
  {
    hide Inv, TypeOk, Enabled, Shows;
    hide ForkStep, ForkPageStep, ForkIncrefStep, ForkDoneStep, KernelAllocStep, KernelFreeStep;
    InvTypeOk(s);
    e' := e;
    match st
    case Fork(p, c) => ForkKeeps(s, p, c, e);
    case DoForkPage(p, mapped) =>
      if mapped {
        ForkPageMapped(s, p, e);
      } else {
        ForkPageFailed(s, p, e);
      }
    case DoForkIncref(p) => ForkIncrefKeeps(s, p, e);
    case DoForkDone(p) => e' := ForkDoneKeeps(s, p, e);
    case KernelAlloc => KernelAllocKeeps(s, e);
    case KernelFree(pa) => KernelFreeKeeps(s, pa, e);
    case KernelPush(pa) => KernelPushKeeps(s, pa, e);
  }

  lemma ExitKeeps(s: State, p: Pid, e: Eager) returns (e': Eager)
    requires Inv(s) && Enabled(s, Exit(p)) && Shows(s, e)
    ensures TypeOk(s) && var (s', l) := Do(s, Exit(p)); Inv(s') && EagerStep(e, l, e') && Shows(s', e')
  {
    hide Inv, Own, Shows, PagesOk, ChildOk, EntriesOk, HoldOk, CopyOk, ForkOk, TypeOk;
    InvTypeOk(s);
    if p == INIT {
      e' := e;
      HaltedKeeps(s, e);
    } else {
      Parts(s, p);
      assert LocalOk(s.procs[p]);
      LeaveKeeps(s, p, e);
      e' := e - {p};
    }
  }

  lemma UserStepKeeps(s: State, st: Step, e: Eager) returns (e': Eager)
    requires Inv(s) && Enabled(s, st) && Shows(s, e)
    requires st.Store? || st.StoreFault? || st.Copyout? || st.DoCopyMove? || st.Sbrk? || st.DoGrowMap? || st.DoGrowDone?
      || st.DoUnmap? || st.DoClear? || st.DoUnmapDone? || st.Exit?
    ensures TypeOk(s)
    ensures var (s', l) := Do(s, st); Inv(s') && EagerStep(e, l, e') && Shows(s', e')
  {
    hide Inv, TypeOk, Enabled, Shows, EagerStep, Leave;
    hide StoreStep, StoreFaultStep, CopyoutStep, CopyMoveStep, SbrkStep, GrowMapStep, GrowDoneStep,
      UnmapStep, ClearStep, UnmapDoneStep;
    InvTypeOk(s);
    e' := e;
    match st
    case Store(p, v, off, b) => e' := StoreKeeps(s, p, v, off, b, e);
    case StoreFault(p, v) => StoreFaultKeeps(s, p, v, e);
    case Copyout(p, v, off, data) => CopyoutKeeps(s, p, v, off, data, e);
    case DoCopyMove(p) => e' := CopyMoveKeeps(s, p, e);
    case Sbrk(p, target) => e' := SbrkKeeps(s, p, target, e);
    case DoGrowMap(p, mapped) => GrowMapKeeps(s, p, mapped, e);
    case DoGrowDone(p) => e' := GrowDoneKeeps(s, p, e);
    case DoUnmap(p) => UnmapKeeps(s, p, e);
    case DoClear(p) => ClearKeeps(s, p, e);
    case DoUnmapDone(p) => UnmapDoneKeeps(s, p, e);
    case Exit(p) => e' := ExitKeeps(s, p, e);
  }

  /** Every step keeps the invariant, and the eager model can follow it. */
  lemma StepKeeps(s: State, st: Step, e: Eager) returns (e': Eager)
    requires Inv(s) && Enabled(s, st) && Shows(s, e)
    ensures TypeOk(s)
    ensures var (s', l) := Do(s, st); Inv(s') && EagerStep(e, l, e') && Shows(s', e')
  {
    hide Inv, TypeOk, Enabled, Shows, EagerStep, Do;
    if st.Store? || st.StoreFault? || st.Copyout? || st.DoCopyMove? || st.Sbrk? || st.DoGrowMap? || st.DoGrowDone?
      || st.DoUnmap? || st.DoClear? || st.DoUnmapDone? || st.Exit?
    {
      e' := UserStepKeeps(s, st, e);
    } else if st.Fork? || st.DoForkPage? || st.DoForkIncref? || st.DoForkDone?
      || st.KernelAlloc? || st.KernelFree? || st.KernelPush? {
      e' := ForkStepKeeps(s, st, e);
    } else {
      e' := FaultStepKeeps(s, st, e);
    }
  }
}
