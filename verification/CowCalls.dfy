/** What stores, copyout, fork, sbrk and faults do to the memory that programs see, told by the steps
    of a run: by the call that a process makes and the bytes that it and the others read before
    and after it. */
module CowCalls {
  import opened Frames
  import opened CowMachine
  import opened CowSteps
  import opened CowRuns
  import opened Params

  // ---------------------------------------------------------------- what programs see

  ghost predicate Sees(s: State, p: Pid, v: Vpn) {
    p in s.procs && Visible(s.procs[p]) && v < s.procs[p].np && v in s.procs[p].pt && s.procs[p].pt[v].pa in s.mem
  }

  /** The byte that process p reads at offset o of page v. */
  ghost function Byte(s: State, p: Pid, v: Vpn, o: nat): Option<Byte> {
    if Sees(s, p, v) && o < |s.mem[s.procs[p].pt[v].pa]| then Some(s.mem[s.procs[p].pt[v].pa][o]) else None
  }

  /** Process p has page v, and may store to it, if need be after a copy-on-write fault. */
  ghost predicate May(s: State, p: Pid, v: Vpn) {
    Sees(s, p, v) && s.procs[p].pt[v].u && (s.procs[p].pt[v].w || s.procs[p].pt[v].cow)
  }

  ghost predicate Same(s: State, s': State, q: Pid) {
    && (forall w: Vpn, o: nat :: Byte(s', q, w, o) == Byte(s, q, w, o))
    && (forall w: Vpn :: May(s', q, w) == May(s, q, w))
  }

  /** Nobody but p sees a difference. */
  ghost predicate SameElse(s: State, s': State, p: Pid) {
    forall q :: q != p ==> Same(s, s', q)
  }

  ghost function ByteIn(e: Eager, p: Pid, v: Vpn, o: nat): Option<Byte> {
    if p in e && v in e[p] && o < |e[p][v].data| then Some(e[p][v].data[o]) else None
  }

  lemma SeenIs(s: State, e: Eager, p: Pid, v: Vpn)
    requires Shows(s, e)
    ensures Sees(s, p, v) <==> p in e && v in e[p]
    ensures Sees(s, p, v) ==> e[p][v].data == s.mem[s.procs[p].pt[v].pa]
    ensures May(s, p, v) <==> MayStore(e, p, v)
    ensures forall o: nat :: Byte(s, p, v, o) == ByteIn(e, p, v, o)
  {
    hide Visible;
    if p in e {
      assert ShowsProc(s, s.procs[p], e[p]);
    }
  }

  /** Who is not in the difference of two memories sees no difference. */
  lemma SameSeen(s: State, s': State, e: Eager, e': Eager, q: Pid)
    requires Shows(s, e) && Shows(s', e') && (q in e' <==> q in e) && (q in e ==> e'[q] == e[q])
    ensures Same(s, s', q)
  {
    hide Shows, Sees, May, Byte;
    forall w: Vpn, o: nat
      ensures Byte(s', q, w, o) == Byte(s, q, w, o)
    {
      SeenIs(s, e, q, w);
      SeenIs(s', e', q, w);
    }
    forall w: Vpn
      ensures May(s', q, w) == May(s, q, w)
    {
      SeenIs(s, e, q, w);
      SeenIs(s', e', q, w);
    }
  }

  // ---------------------------------------------------------------- one step

  predicate Kernel(st: Step) {
    st.KernelAlloc? || st.KernelFree? || st.KernelPush?
  }

  /** Step st makes process q: it is the child of a fork that is done. */
  ghost predicate Bears(s: State, st: Step, q: Pid) {
    st.DoForkDone? && st.p in s.procs && s.procs[st.p].pc.ForkPage? && s.procs[st.p].pc.child == q
  }

  /** The label of a step names the process whose step it is. */
  lemma LabelActor(s: State, st: Step)
    requires TypeOk(s) && Enabled(s, st)
    ensures var l := Do(s, st).1;
      && (l.Tau? || (!Kernel(st) && l.p == st.p)) && (l.Forked? ==> Bears(s, st, l.c))
  {
    hide TypeOk;
  }

  /** A step changes what its own process sees, and makes the child of a finished fork; nobody else
      sees a difference. */
  lemma StepSame(s: State, st: Step, e: Eager, q: Pid) returns (e': Eager)
    requires Inv(s) && Enabled(s, st) && Shows(s, e)
    ensures TypeOk(s)
    ensures var (s', l) := Do(s, st); EagerStep(e, l, e') && Shows(s', e')
    ensures (Kernel(st) || q != st.p) && !Bears(s, st, q) ==> Same(s, Do(s, st).0, q)
  {
    hide Inv, TypeOk, Shows, Do, Enabled, Same, Bears;
    e' := StepKeeps(s, st, e);
    LabelActor(s, st);
    if (Kernel(st) || q != st.p) && !Bears(s, st, q) {
      SameSeen(s, Do(s, st).0, e, e', q);
    }
  }

  /** A step of somebody else leaves a process as it is. */
  lemma ProcSame(s: State, st: Step, q: Pid)
    requires Inv(s) && TypeOk(s) && Enabled(s, st) && q in s.procs && !s.procs[q].pc.Embryo? && (Kernel(st) || q != st.p)
    ensures var s' := Do(s, st).0; q in s'.procs && s'.procs[q] == s.procs[q]
  {
    hide TypeOk, Do, Enabled, Consistent, Own, EntriesOk, HoldOk, CopyOk;
    if st.DoForkPage? || st.DoForkIncref? || st.DoForkDone? || st.Fork? {
      Acts(s, st);
      assert st.Fork? || ForkOk(s, st.p);
      ForkSame(s, st, q);
    } else {
      OtherSame(s, st, q);
    }
  }

  lemma Acts(s: State, st: Step)
    requires Enabled(s, st) && !Kernel(st)
    ensures st.p in s.procs
  {
  }

  lemma ForkSame(s: State, st: Step, q: Pid)
    requires TypeOk(s) && Enabled(s, st) && q in s.procs && !s.procs[q].pc.Embryo? && !Kernel(st) && q != st.p
    requires st.DoForkPage? || st.DoForkIncref? || st.DoForkDone? || st.Fork?
    requires st.Fork? || (st.p in s.procs && ForkOk(s, st.p))
    ensures var s' := Do(s, st).0; q in s'.procs && s'.procs[q] == s.procs[q]
  {
    hide TypeOk;
  }

  lemma OtherSame(s: State, st: Step, q: Pid)
    requires TypeOk(s) && Enabled(s, st) && q in s.procs && (Kernel(st) || q != st.p)
    requires !(st.DoForkPage? || st.DoForkIncref? || st.DoForkDone? || st.Fork?)
    ensures var s' := Do(s, st).0; q in s'.procs && s'.procs[q] == s.procs[q]
  {
    hide TypeOk;
  }

  // ---------------------------------------------------------------- a process inside a call

  /** In handle_cow_fault, for entry v and that cause. */
  predicate Repairing(pc: Pc, v: Vpn, why: Cause) {
    && (pc.FaultTest? || pc.FaultCount? || pc.FaultUpgrade? || pc.FaultAlloc? || pc.FaultCopy? || pc.FaultDrop?
        || pc.FaultPush?)
    && pc.v == v && pc.why == why
  }

  /** A process at pc is inside the call that step st has begun. */
  predicate Serving(pc: Pc, st: Step) {
    match st
    case Copyout(_, v, off, data) => pc == CopyMove(v, off, data) || Repairing(pc, v, CopyOut(off, data))
    case StoreFault(_, v) => Repairing(pc, v, Trap)
    case Fork(_, c) => (pc.ForkPage? || pc.ForkIncref?) && pc.child == c
    case Sbrk(_, target) =>
      || ((pc.Grow? || pc.GrowMap?) && pc.target == target) || pc.GrowDrop? || pc.GrowPush?
      || ((pc.Unmap? || pc.UnmapPush? || pc.UnmapClear?) && !pc.exiting)
    case _ => false
  }

  predicate Killed(pc: Pc) {
    pc.Unmap? && pc.exiting
  }

  /** After a step of its own, a process is still in the call, or out of it. */
  ghost predicate GoesOn(s: State, a: Step, st: Step, p: Pid)
    requires TypeOk(s) && Enabled(s, a)
  {
    var (s', l) := Do(s, a);
    || s'.halted
    || (p in s'.procs && Serving(s'.procs[p].pc, st) && l.Tau?)
    || (p in s'.procs && s'.procs[p].pc.User?)
    || (p in s'.procs && Killed(s'.procs[p].pc) && st.StoreFault?)
  }

  lemma FaultGoesOn(s: State, a: Step, st: Step, p: Pid)
    requires TypeOk(s) && Enabled(s, a) && p in s.procs && !Kernel(a) && a.p == p && Serving(s.procs[p].pc, st)
    requires st.Copyout? || st.StoreFault?
    ensures GoesOn(s, a, st, p)
  {
    hide TypeOk;
  }

  lemma ForkGoesOn(s: State, a: Step, st: Step, p: Pid)
    requires TypeOk(s) && Enabled(s, a) && p in s.procs && !Kernel(a) && a.p == p && Serving(s.procs[p].pc, st)
    requires st.Fork? && ForkOk(s, p)
    ensures GoesOn(s, a, st, p)
  {
    hide TypeOk;
  }

  lemma SbrkGoesOn(s: State, a: Step, st: Step, p: Pid)
    requires TypeOk(s) && Enabled(s, a) && p in s.procs && !Kernel(a) && a.p == p && Serving(s.procs[p].pc, st) && st.Sbrk?
    ensures GoesOn(s, a, st, p)
  {
    hide TypeOk;
  }

  lemma OwnStep(s: State, a: Step, st: Step, p: Pid)
    requires Inv(s) && TypeOk(s) && Enabled(s, a) && p in s.procs && !Kernel(a) && a.p == p && Serving(s.procs[p].pc, st)
    ensures GoesOn(s, a, st, p)
  {
    hide TypeOk, Enabled, GoesOn, Consistent, Own, EntriesOk, HoldOk, CopyOk, ForkOk;
    if st.Fork? {
      ForkGoesOn(s, a, st, p);
    } else if st.Sbrk? {
      SbrkGoesOn(s, a, st, p);
    } else {
      FaultGoesOn(s, a, st, p);
    }
  }

  lemma CallBegins(s: State, st: Step)
    requires TypeOk(s) && Enabled(s, st) && (st.Copyout? || st.StoreFault? || st.Fork? || st.Sbrk?)
    ensures var (s', l) := Do(s, st);
      && st.p in s'.procs && (Serving(s'.procs[st.p].pc, st) || (st.Copyout? && s'.procs[st.p].pc.User?))
      && (!st.Sbrk? ==> l.Tau? || l.RefusedBad?)
  {
    hide TypeOk;
  }

  /** kalloc finds no page. */
  ghost predicate Exhausted(s: State, a: Step) {
    a.DoAlloc? && s.k.free == []
  }

  /** Process p reads data at offset off of page v, and every other byte as before. */
  ghost predicate Wrote(s: State, s': State, p: Pid, v: Vpn, off: nat, data: seq<Byte>) {
    && (forall w: Vpn :: May(s', p, w) == May(s, p, w))
    && forall w: Vpn, o: nat :: Byte(s', p, w, o) == Given(s, p, v, off, data, w, o)
  }

  ghost function Given(s: State, p: Pid, v: Vpn, off: nat, data: seq<Byte>, w: Vpn, o: nat): Option<Byte> {
    if w == v && off <= o < off + |data| then Some(data[o - off]) else Byte(s, p, w, o)
  }

  lemma WroteSeen(s: State, s': State, e: Eager, e': Eager, p: Pid, v: Vpn, off: nat, data: seq<Byte>)
    requires Shows(s, e) && Shows(s', e') && EagerStep(e, Stored(p, v, off, data), e')
    ensures Wrote(s, s', p, v, off, data)
  {
    hide Shows, Sees, May, Byte;
    forall w: Vpn
      ensures May(s', p, w) == May(s, p, w)
    {
      SeenIs(s, e, p, w);
      SeenIs(s', e', p, w);
    }
    forall w: Vpn, o: nat
      ensures Byte(s', p, w, o) == Given(s, p, v, off, data, w, o)
    {
      SeenIs(s, e, p, w);
      SeenIs(s', e', p, w);
    }
  }

  /** A store of its own process: the byte is there, and nobody sees any other difference. */
  lemma StoreLands(ss: seq<State>, sts: seq<Step>, ls: seq<Label>, i: nat)
    requires IsRun(ss, sts, ls) && i < |sts| && sts[i].Store?
    ensures var Store(p, v, off, b) := sts[i];
      && Wrote(ss[i], ss[i + 1], p, v, off, [b]) && Byte(ss[i + 1], p, v, off) == Some(b)
      && SameElse(ss[i], ss[i + 1], p)
  {
    hide Init, Inv, TypeOk, Shows, Same, Wrote;
    var es := RunRefinesEager(ss, sts, ls);
    assert Goes(ss[i], sts[i], ls[i], ss[i + 1]);
    var Store(p, v, off, b) := sts[i];
    assert EagerStep(es[i], ls[i], es[i + 1]);
    WroteSeen(ss[i], ss[i + 1], es[i], es[i + 1], p, v, off, [b]);
    assert Byte(ss[i + 1], p, v, off) == Some(b) by { WroteThere(ss[i], ss[i + 1], p, v, off, [b]); }
    var s, s' := ss[i], ss[i + 1];
    forall q | q != p
      ensures Same(s, s', q)
    {
      SameSeen(s, s', es[i], es[i + 1], q);
    }
  }

  lemma WroteThere(s: State, s': State, p: Pid, v: Vpn, off: nat, data: seq<Byte>)
    requires Wrote(s, s', p, v, off, data) && data != []
    ensures Byte(s', p, v, off) == Some(data[0])
  {
    hide Byte, May;
    assert Byte(s', p, v, off) == Given(s, p, v, off, data, v, off);
  }

  // ---------------------------------------------------------------- copyout

  /** A copyout of one page ends with the move, or because handle_cow_fault finds that it must not or
      cannot copy. */
  lemma CopyoutEnds(s: State, a: Step, p: Pid, v: Vpn, off: nat, data: seq<Byte>)
    requires TypeOk(s) && Enabled(s, a) && p in s.procs && !Kernel(a) && a.p == p
    requires Serving(s.procs[p].pc, Copyout(p, v, off, data))
    requires var s' := Do(s, a).0; p in s'.procs && s'.procs[p].pc.User?
    ensures a.DoCopyMove? || (a.DoTest? && !Shared(s.procs[p], v)) || Exhausted(s, a)
    ensures a.DoCopyMove? ==> s.procs[p].pc == CopyMove(v, off, data)
    ensures !a.DoCopyMove? ==>
      Repairing(s.procs[p].pc, v, CopyOut(off, data)) && (Do(s, a).1.RefusedBad? || Do(s, a).1.RefusedOom?)
    ensures a.DoTest? ==> s.procs[p].pc.FaultTest?
    ensures Exhausted(s, a) ==> s.procs[p].pc.FaultAlloc?
  {
    hide TypeOk;
  }

  predicate Shared(pr: Proc, v: Vpn) {
    v in pr.pt && pr.pt[v].u && pr.pt[v].cow
  }

  /** It moves the data exactly if the page may be stored to and there is memory for a copy. */
  lemma CopyoutLabel(s: State, a: Step, p: Pid, v: Vpn, off: nat, data: seq<Byte>)
    requires Inv(s) && TypeOk(s) && Enabled(s, a) && p in s.procs && !Kernel(a) && a.p == p
    requires Serving(s.procs[p].pc, Copyout(p, v, off, data))
    requires var s' := Do(s, a).0; p in s'.procs && s'.procs[p].pc.User?
    ensures var l := Do(s, a).1;
      if May(s, p, v) && !Exhausted(s, a) then l == Stored(p, v, off, data) else l.RefusedBad? || l.RefusedOom?
  {
    hide Consistent, Own, EntriesOk, HoldOk, CopyOk, ForkOk, Do, Enabled, Serving;
    CopyoutEnds(s, a, p, v, off, data);
    assert LocalOk(s.procs[p]) && PagesOk(s, s.procs[p]);
    if a.DoCopyMove? {
      MoveLabel(s, p, v, off, data);
    }
  }

  lemma MoveLabel(s: State, p: Pid, v: Vpn, off: nat, data: seq<Byte>)
    requires TypeOk(s) && Enabled(s, DoCopyMove(p)) && p in s.procs && s.procs[p].pc == CopyMove(v, off, data)
    ensures var l := Do(s, DoCopyMove(p)).1;
      if May(s, p, v) then l == Stored(p, v, off, data) else l.RefusedBad?
  {
    assert LocalOk(s.procs[p]) && PagesOk(s, s.procs[p]);
  }

  // ---------------------------------------------------------------- calls in runs

  /** Process p is in the kernel. */
  ghost predicate Away(s: State, p: Pid) {
    p in s.procs && !s.procs[p].pc.User? && !Killed(s.procs[p].pc) && !s.halted
  }

  /** Process p is in the kernel between the moments k and n. */
  ghost predicate AwayFrom(ss: seq<State>, p: Pid, k: nat, n: nat)
    requires n <= |ss|
  {
    forall m :: k < m < n ==> Away(ss[m], p)
  }

  ghost predicate Calls(st: Step) {
    st.Copyout? || st.StoreFault? || st.Fork? || st.Sbrk?
  }

  lemma SameTrans(s: State, s1: State, s2: State, q: Pid)
    requires Same(s, s1, q) && Same(s1, s2, q)
    ensures Same(s, s2, q)
  {
    hide Byte, May;
    forall w: Vpn, o: nat
      ensures Byte(s2, q, w, o) == Byte(s, q, w, o)
    {
      assert Byte(s1, q, w, o) == Byte(s, q, w, o);
    }
    forall w: Vpn
      ensures May(s2, q, w) == May(s, q, w)
    {
      assert May(s1, q, w) == May(s, q, w);
    }
  }

  /** The next moment of a process that is inside a call and stays in the kernel. */
  lemma ServeNext(s: State, a: Step, l: Label, s': State, e: Eager, st: Step)
    requires Inv(s) && Goes(s, a, l, s') && Shows(s, e) && Calls(st) && st.p in s.procs
    requires Serving(s.procs[st.p].pc, st) && Away(s', st.p)
    ensures Serving(s'.procs[st.p].pc, st) && Same(s, s', st.p)
  {
    hide Inv, TypeOk, Enabled, Do, Shows, Same, Serving;
    var p := st.p;
    var e' := StepSame(s, a, e, p);
    ServingKind(s.procs[p].pc, st);
    if Kernel(a) || a.p != p {
      ProcSame(s, a, p);
      NotBorn(s, a, p);
    } else {
      OwnStep(s, a, st, p);
      SameSeen(s, s', e, e', p);
    }
  }

  lemma ServingKind(pc: Pc, st: Step)
    requires Serving(pc, st)
    ensures !pc.Embryo? && !pc.User? && !Killed(pc)
  {
  }

  /** The child of a fork under way is not in a call of its own. */
  lemma NotBorn(s: State, a: Step, p: Pid)
    requires Inv(s) && p in s.procs && !s.procs[p].pc.Embryo?
    ensures !Bears(s, a, p)
  {
    hide Consistent, Own, EntriesOk, HoldOk, CopyOk, TypeOk;
    if a.DoForkDone? && a.p in s.procs {
      assert ForkOk(s, a.p);
    }
  }

  /** While a process is inside a call, what it sees stays as the first step has left it. */
  lemma {:induction false} Inside(ss: seq<State>, sts: seq<Step>, ls: seq<Label>, es: seq<Eager>, k: nat, n: nat)
    requires IsRun(ss, sts, ls) && EagerRun(es, ss, ls) && (forall i :: 0 <= i < |ss| ==> Inv(ss[i]))
    requires k < n < |ss| && Calls(sts[k]) && AwayFrom(ss, sts[k].p, k, n + 1)
    ensures sts[k].p in ss[n].procs && Serving(ss[n].procs[sts[k].p].pc, sts[k]) && Same(ss[k + 1], ss[n], sts[k].p)
    decreases n
  {
    hide Inv, TypeOk, Enabled, Do, Shows, Same, Serving, Init, EagerStep, Goes, Away;
    var st := sts[k];
    assert Away(ss[n], st.p);
    assert Goes(ss[n - 1], sts[n - 1], ls[n - 1], ss[n]);
    AwayThere(ss[n], st.p);
    if n == k + 1 {
      Starts(ss[k], st, ls[k], ss[n]);
      SameRefl(ss[n], st.p);
    } else {
      assert Away(ss[n - 1], st.p);
      AwayThere(ss[n - 1], st.p);
      Inside(ss, sts, ls, es, k, n - 1);
      ServeNext(ss[n - 1], sts[n - 1], ls[n - 1], ss[n], es[n - 1], st);
      SameTrans(ss[k + 1], ss[n - 1], ss[n], st.p);
    }
  }

  lemma SameRefl(s: State, p: Pid)
    ensures Same(s, s, p)
  {
  }

  lemma Starts(s: State, st: Step, l: Label, s': State)
    requires Goes(s, st, l, s') && Calls(st)
    ensures st.p in s'.procs && (Serving(s'.procs[st.p].pc, st) || (st.Copyout? && s'.procs[st.p].pc.User?))
  {
    hide TypeOk, Enabled, Do, Serving;
    CallBegins(s, st);
  }

  /** All but sbrk leave everything as it was with their first step. */
  lemma InsideSame(ss: seq<State>, sts: seq<Step>, ls: seq<Label>, es: seq<Eager>, k: nat, n: nat)
    requires IsRun(ss, sts, ls) && EagerRun(es, ss, ls) && (forall i :: 0 <= i < |ss| ==> Inv(ss[i]))
    requires k < n < |ss| && Calls(sts[k]) && !sts[k].Sbrk? && AwayFrom(ss, sts[k].p, k, n + 1)
    ensures sts[k].p in ss[n].procs && Serving(ss[n].procs[sts[k].p].pc, sts[k]) && Same(ss[k], ss[n], sts[k].p)
  {
    hide Inv, TypeOk, Enabled, Do, Shows, Same, Serving, Init, EagerStep, Goes, AwayFrom;
    Inside(ss, sts, ls, es, k, n);
    assert Goes(ss[k], sts[k], ls[k], ss[k + 1]);
    Begins(ss[k], sts[k], ls[k], ss[k + 1], es[k], es[k + 1]);
    SameTrans(ss[k], ss[k + 1], ss[n], sts[k].p);
  }

  lemma AwayThere(s: State, p: Pid)
    requires Away(s, p)
    ensures p in s.procs && !s.procs[p].pc.User?
  {
  }

  lemma Begins(s: State, st: Step, l: Label, s': State, e: Eager, e': Eager)
    requires Goes(s, st, l, s') && Calls(st) && !st.Sbrk? && Shows(s, e) && Shows(s', e') && EagerStep(e, l, e')
    ensures st.p in s'.procs && (Serving(s'.procs[st.p].pc, st) || (st.Copyout? && s'.procs[st.p].pc.User?))
    ensures Same(s, s', st.p)
  {
    hide TypeOk, Enabled, Do, Shows, Same, Serving;
    CallBegins(s, st);
    SameSeen(s, s', e, e', st.p);
  }

  /** Process p, which was in the kernel, is not any more: the step was its own. */
  lemma LastIsOwn(s: State, a: Step, l: Label, s': State, p: Pid)
    requires Inv(s) && Goes(s, a, l, s') && Away(s, p) && !s.procs[p].pc.Embryo?
    requires p in s'.procs && (s'.procs[p].pc.User? || Killed(s'.procs[p].pc))
    ensures !Kernel(a) && a.p == p
  {
    hide Inv, TypeOk, Enabled, Do;
    if Kernel(a) || a.p != p {
      ProcSame(s, a, p);
    }
  }

  lemma WroteAfter(s: State, s1: State, s2: State, p: Pid, v: Vpn, off: nat, data: seq<Byte>)
    requires Same(s, s1, p) && Wrote(s1, s2, p, v, off, data)
    ensures Wrote(s, s2, p, v, off, data)
  {
    hide Byte, May;
    forall w: Vpn
      ensures May(s2, p, w) == May(s, p, w)
    {
      assert May(s1, p, w) == May(s, p, w);
    }
    forall w: Vpn, o: nat
      ensures Byte(s2, p, w, o) == Given(s, p, v, off, data, w, o)
    {
      assert Byte(s2, p, w, o) == Given(s1, p, v, off, data, w, o);
      assert Byte(s1, p, w, o) == Byte(s, p, w, o);
    }
  }

  lemma MaySame(s: State, s': State, p: Pid, v: Vpn)
    requires Same(s, s', p)
    ensures May(s', p, v) == May(s, p, v)
  {
    hide Byte, May;
  }

  /** A copyout of one page, from the call to the return: the process reads exactly the data there, if
      the page may be stored to and, where it needs a copy, there was memory for it; otherwise it
      reads what it read before. */
  lemma CopyoutDone(ss: seq<State>, sts: seq<Step>, ls: seq<Label>, k: nat, n: nat)
    requires IsRun(ss, sts, ls) && k < n < |ss| && sts[k].Copyout? && AwayFrom(ss, sts[k].p, k, n)
    requires sts[k].p in ss[n].procs && ss[n].procs[sts[k].p].pc.User?
    ensures var Copyout(p, v, off, data) := sts[k];
      if May(ss[k], p, v) && !Exhausted(ss[n - 1], sts[n - 1]) then Wrote(ss[k], ss[n], p, v, off, data)
      else Same(ss[k], ss[n], p)
  {
    hide Inv, TypeOk, Enabled, Do, Shows, Same, Serving, Init, EagerStep, Wrote, May, Exhausted, Away;
    var es := RunRefinesEager(ss, sts, ls);
    var Copyout(p, v, off, data) := sts[k];
    var s, a, l, s' := ss[n - 1], sts[n - 1], ls[n - 1], ss[n];
    assert Goes(s, a, l, s');
    if n == k + 1 {
      Begins(s, a, l, s', es[k], es[n]);
      RefusedAtOnce(s, a, l, s');
    } else {
      InsideSame(ss, sts, ls, es, k, n - 1);
      assert Away(s, p);
      ServingKind(s.procs[p].pc, sts[k]);
      LastIsOwn(s, a, l, s', p);
      CopyoutLast(s, a, l, s', es[n - 1], es[n], p, v, off, data);
      MaySame(ss[k], s, p, v);
      if May(s, p, v) && !Exhausted(s, a) {
        WroteAfter(ss[k], s, s', p, v, off, data);
      } else {
        SameTrans(ss[k], s, s', p);
      }
    }
  }

  lemma RefusedAtOnce(s: State, a: Step, l: Label, s': State)
    requires Goes(s, a, l, s') && a.Copyout? && a.p in s'.procs && s'.procs[a.p].pc.User?
    ensures !May(s, a.p, a.v)
  {
    hide TypeOk;
  }

  lemma CopyoutLast(s: State, a: Step, l: Label, s': State, e: Eager, e': Eager, p: Pid, v: Vpn, off: nat, data: seq<Byte>)
    requires Inv(s) && Goes(s, a, l, s') && Shows(s, e) && Shows(s', e') && EagerStep(e, l, e')
    requires p in s.procs && !Kernel(a) && a.p == p && Serving(s.procs[p].pc, Copyout(p, v, off, data))
    requires p in s'.procs && s'.procs[p].pc.User?
    ensures if May(s, p, v) && !Exhausted(s, a) then Wrote(s, s', p, v, off, data) else Same(s, s', p)
  {
    hide Inv, TypeOk, Enabled, Do, Shows, Same, Serving, Wrote, May, Exhausted;
    CopyoutLabel(s, a, p, v, off, data);
    if May(s, p, v) && !Exhausted(s, a) {
      WroteSeen(s, s', e, e', p, v, off, data);
    } else {
      SameSeen(s, s', e, e', p);
    }
  }

  /** No step is seen by anybody but its own process, and the child that a finished fork makes. */
  lemma OnlyOwnMemory(ss: seq<State>, sts: seq<Step>, ls: seq<Label>, i: nat, q: Pid)
    requires IsRun(ss, sts, ls) && i < |sts| && (Kernel(sts[i]) || q != sts[i].p) && !Bears(ss[i], sts[i], q)
    ensures Same(ss[i], ss[i + 1], q)
  {
    hide Inv, TypeOk, Enabled, Do, Shows, Same, Init, EagerStep, Bears;
    var es := RunRefinesEager(ss, sts, ls);
    assert Goes(ss[i], sts[i], ls[i], ss[i + 1]);
    var e' := StepSame(ss[i], sts[i], es[i], q);
  }

  // ---------------------------------------------------------------- fork

  /** Process c sees what p sees. */
  ghost predicate Twins(s: State, p: Pid, c: Pid) {
    && c in s.procs && Visible(s.procs[c])
    && (forall w: Vpn, o: nat :: Byte(s, c, w, o) == Byte(s, p, w, o))
    && (forall w: Vpn :: May(s, c, w) == May(s, p, w))
  }

  lemma TwinsSeen(s: State, e: Eager, p: Pid, c: Pid)
    requires Shows(s, e) && p in e && c in e && e[c] == e[p]
    ensures Twins(s, p, c)
  {
    hide Sees, May, Byte, Visible, ShowsProc;
    forall w: Vpn, o: nat
      ensures Byte(s, c, w, o) == Byte(s, p, w, o)
    {
      SeenIs(s, e, p, w);
      SeenIs(s, e, c, w);
    }
    forall w: Vpn
      ensures May(s, c, w) == May(s, p, w)
    {
      SeenIs(s, e, p, w);
      SeenIs(s, e, c, w);
    }
  }

  lemma ForkLast(s: State, a: Step, p: Pid, c: Pid)
    requires Inv(s) && TypeOk(s) && Enabled(s, a) && p in s.procs && !Kernel(a) && a.p == p
    requires Serving(s.procs[p].pc, Fork(p, c))
    requires var s' := Do(s, a).0; p in s'.procs && s'.procs[p].pc.User?
    ensures if a.DoForkDone? then Do(s, a).1 == Forked(p, c) else Do(s, a).1.Tau? && c !in Do(s, a).0.procs
    ensures !a.DoForkDone? ==> a == DoForkPage(p, false) && s.procs[p].pc.i == 0
  {
    hide Consistent, Own, EntriesOk, HoldOk, CopyOk, PagesOk, LocalOk;
    assert ForkOk(s, p) && LocalOk(s.procs[p]);
  }

  /** A fork, from the call to the return: the parent sees what it saw. If the child was made, it sees
      the same; otherwise, when the first page could not be mapped, there is no child. */
  lemma ForkDone(ss: seq<State>, sts: seq<Step>, ls: seq<Label>, k: nat, n: nat)
    requires IsRun(ss, sts, ls) && k < n < |ss| && sts[k].Fork? && AwayFrom(ss, sts[k].p, k, n)
    requires sts[k].p in ss[n].procs && ss[n].procs[sts[k].p].pc.User?
    ensures var Fork(p, c) := sts[k];
      && Same(ss[k], ss[n], p)
      && (if sts[n - 1].DoForkDone? then Twins(ss[n], p, c) else sts[n - 1] == DoForkPage(p, false) && c !in ss[n].procs)
  {
    hide Inv, TypeOk, Enabled, Do, Shows, Same, Serving, Init, Twins, Away;
    var es := RunRefinesEager(ss, sts, ls);
    var Fork(p, c) := sts[k];
    var s, a, l, s' := ss[n - 1], sts[n - 1], ls[n - 1], ss[n];
    assert Goes(s, a, l, s');
    assert EagerStep(es[n - 1], l, es[n]);
    if n == k + 1 {
      Begins(s, a, l, s', es[k], es[n]);
      ServingKind(s'.procs[p].pc, sts[k]);
      assert false;
    } else {
      InsideSame(ss, sts, ls, es, k, n - 1);
      assert Away(s, p);
      ServingKind(s.procs[p].pc, sts[k]);
      LastIsOwn(s, a, l, s', p);
      ForkLast(s, a, p, c);
      SameSeen(s, s', es[n - 1], es[n], p);
      SameTrans(ss[k], s, s', p);
      if a.DoForkDone? {
        TwinsSeen(s', es[n], p, c);
      }
    }
  }

  // ---------------------------------------------------------------- faults

  /** A fault ends when the entry is writable, or in a kill. */
  lemma FaultEnds(s: State, a: Step, p: Pid, v: Vpn)
    requires TypeOk(s) && Enabled(s, a) && p in s.procs && !Kernel(a) && a.p == p
    requires Serving(s.procs[p].pc, StoreFault(p, v))
    requires var s' := Do(s, a).0; p in s'.procs && (s'.procs[p].pc.User? || Killed(s'.procs[p].pc)) && !s'.halted
    ensures var (s', l) := Do(s, a);
      if (a.DoTest? && !Shared(s.procs[p], v)) || Exhausted(s, a) then Killed(s'.procs[p].pc)
      else
        && (a.DoUpgrade? || a.DoDrop? || a.DoPush?) && l.Tau? && s'.procs[p].pc.User?
        && (!a.DoUpgrade? ==> s'.procs[p].pt == s.procs[p].pt)
        && (a.DoUpgrade? && v in s.procs[p].pt ==>
              s'.procs[p].pt == s.procs[p].pt[v := s.procs[p].pt[v].(w := true, cow := false)])
    ensures a.DoTest? ==> s.procs[p].pc.FaultTest?
    ensures a.DoUpgrade? ==> s.procs[p].pc.FaultUpgrade?
    ensures a.DoDrop? || a.DoPush? ==> s.procs[p].pc.FaultDrop? || s.procs[p].pc.FaultPush?
    ensures Exhausted(s, a) ==> s.procs[p].pc.FaultAlloc?
  {
    hide TypeOk;
  }

  lemma FaultLast(s: State, a: Step, p: Pid, v: Vpn)
    requires TypeOk(s) && Enabled(s, a) && p in s.procs && !Kernel(a) && a.p == p
    requires Serving(s.procs[p].pc, StoreFault(p, v))
    requires var s' := Do(s, a).0; p in s'.procs && (s'.procs[p].pc.User? || Killed(s'.procs[p].pc)) && !s'.halted
    ensures var (s', l) := Do(s, a);
      if May(s, p, v) && !Exhausted(s, a) then
        l.Tau? && s'.procs[p].pc.User? && v in s'.procs[p].pt && s'.procs[p].pt[v].u && s'.procs[p].pt[v].w
      else Killed(s'.procs[p].pc)
  {
    hide Do, Enabled;
    FaultEnds(s, a, p, v);
    assert LocalOk(s.procs[p]) && PagesOk(s, s.procs[p]);
    hide TypeOk;
  }

  /** A fault on a store, from the trap to the return: the process sees what it saw and can now store,
      if the page may be stored to and, where it needs a copy, there was memory for it; otherwise it
      is killed. */
  lemma FaultDone(ss: seq<State>, sts: seq<Step>, ls: seq<Label>, k: nat, n: nat, o: nat, b: Byte)
    requires IsRun(ss, sts, ls) && k < n < |ss| && sts[k].StoreFault? && AwayFrom(ss, sts[k].p, k, n) && o < PGSIZE
    requires var p := sts[k].p; p in ss[n].procs && (ss[n].procs[p].pc.User? || Killed(ss[n].procs[p].pc)) && !ss[n].halted
    ensures var StoreFault(p, v) := sts[k];
      if May(ss[k], p, v) && !Exhausted(ss[n - 1], sts[n - 1]) then
        Same(ss[k], ss[n], p) && Enabled(ss[n], Store(p, v, o, b))
      else Killed(ss[n].procs[p].pc)
  {
    hide Inv, TypeOk, Do, Shows, Same, Serving, Init, Away, May, Exhausted;
    var es := RunRefinesEager(ss, sts, ls);
    var StoreFault(p, v) := sts[k];
    var s, a, l, s' := ss[n - 1], sts[n - 1], ls[n - 1], ss[n];
    assert Goes(s, a, l, s');
    assert EagerStep(es[n - 1], l, es[n]);
    if n == k + 1 {
      Starts(s, a, l, s');
      ServingKind(s'.procs[p].pc, sts[k]);
      assert false;
    } else {
      hide Enabled;
      InsideSame(ss, sts, ls, es, k, n - 1);
      assert Away(s, p);
      ServingKind(s.procs[p].pc, sts[k]);
      LastIsOwn(s, a, l, s', p);
      FaultLast(s, a, p, v);
      MaySame(ss[k], s, p, v);
      if May(s, p, v) && !Exhausted(s, a) {
        SameSeen(s, s', es[n - 1], es[n], p);
        SameTrans(ss[k], s, s', p);
        CanStore(s', p, v, o, b);
      }
    }
  }

  lemma CanStore(s: State, p: Pid, v: Vpn, o: nat, b: Byte)
    requires !s.halted && p in s.procs && s.procs[p].pc.User? && o < PGSIZE
    requires v in s.procs[p].pt && s.procs[p].pt[v].u && s.procs[p].pt[v].w
    ensures Enabled(s, Store(p, v, o, b))
  {
  }

  // ---------------------------------------------------------------- sbrk

  /** The process sees only its first n pages any more. */
  ghost predicate CutTo(s: State, s': State, p: Pid, n: nat) {
    forall w: Vpn, o: nat :: Byte(s', p, w, o) == if w < n then Byte(s, p, w, o) else None
  }

  /** It sees n pages now: those that it had as they were, and new ones that it may store to. */
  ghost predicate GrownTo(s: State, s': State, p: Pid, n: nat) {
    && (forall w: Vpn, o: nat :: Byte(s, p, w, o).Some? ==> Byte(s', p, w, o) == Byte(s, p, w, o))
    && (forall w: Vpn, o: nat :: Byte(s', p, w, o).Some? <==> w < n && o < PGSIZE)
    && (forall w: Vpn :: w < n && Byte(s, p, w, 0).None? ==> May(s', p, w))
  }

  lemma CutSeen(s: State, s': State, e: Eager, e': Eager, p: Pid, n: nat)
    requires Shows(s, e) && Shows(s', e') && EagerStep(e, Shrank(p, n), e')
    ensures CutTo(s, s', p, n)
  {
    hide Shows, Sees, May, Byte;
    forall w: Vpn, o: nat
      ensures Byte(s', p, w, o) == if w < n then Byte(s, p, w, o) else None
    {
      SeenIs(s, e, p, w);
      SeenIs(s', e', p, w);
    }
  }

  lemma GrownSeen(s: State, s': State, e: Eager, e': Eager, p: Pid, n: nat)
    requires Inv(s') && Shows(s, e) && Shows(s', e') && EagerStep(e, Grew(p, n), e')
    ensures GrownTo(s, s', p, n)
  {
    hide Inv, Shows, Sees, May, Byte;
    forall w: Vpn, o: nat
      ensures Byte(s, p, w, o).Some? ==> Byte(s', p, w, o) == Byte(s, p, w, o)
      ensures Byte(s', p, w, o).Some? <==> w < n && o < PGSIZE
    {
      SeenIs(s, e, p, w);
      SeenIs(s', e', p, w);
      PageSize(s', e', p, w);
    }
    forall w: Vpn | w < n && Byte(s, p, w, 0).None?
      ensures May(s', p, w)
    {
      SeenIs(s, e, p, w);
      SeenIs(s', e', p, w);
      PageSize(s', e', p, w);
    }
  }

  lemma PageSize(s: State, e: Eager, p: Pid, w: Vpn)
    requires Inv(s) && Shows(s, e)
    ensures p in e && w in e[p] ==> |e[p][w].data| == PGSIZE
  {
    hide Consistent, Own, EntriesOk, HoldOk, CopyOk, ForkOk, LocalOk;
    if p in e && w in e[p] {
      SeenIs(s, e, p, w);
      assert PagesOk(s, s.procs[p]);
    }
  }

  lemma SbrkBegins(s: State, st: Step, l: Label, s': State)
    requires Goes(s, st, l, s') && st.Sbrk?
    ensures st.p in s.procs && l == if st.target < s.procs[st.p].np then Shrank(st.p, st.target) else Tau
  {
    hide TypeOk;
  }

  lemma SbrkLast(s: State, a: Step, p: Pid, target: Vpn)
    requires TypeOk(s) && Enabled(s, a) && p in s.procs && !Kernel(a) && a.p == p
    requires Serving(s.procs[p].pc, Sbrk(p, target))
    requires var s' := Do(s, a).0; p in s'.procs && s'.procs[p].pc.User?
    ensures Do(s, a).1 == if a.DoGrowDone? then Grew(p, target) else Tau
  {
    hide TypeOk;
  }

  /** A process sees exactly its pages. */
  lemma Extent(s: State, p: Pid)
    requires Inv(s) && p in s.procs && s.procs[p].pc.User?
    ensures forall w: Vpn, o: nat :: Byte(s, p, w, o).Some? <==> w < s.procs[p].np && o < PGSIZE
  {
    hide Consistent, Own, EntriesOk, HoldOk, CopyOk, ForkOk;
    assert LocalOk(s.procs[p]) && PagesOk(s, s.procs[p]);
    forall w: Vpn, o: nat
      ensures Byte(s, p, w, o).Some? <==> w < s.procs[p].np && o < PGSIZE
    {
      if w in s.procs[p].pt {
        assert Managed(s, s.procs[p].pt[w].pa);
      }
    }
  }

  lemma SbrkUser(s: State, st: Step, l: Label, s': State)
    requires Goes(s, st, l, s') && st.Sbrk?
    ensures st.p in s.procs && s.procs[st.p].pc.User?
  {
  }

  /** An sbrk to `target` pages, from the call to the return: the process sees fewer pages, or more, as
      asked for, or, when it was to grow and memory ran out, as many as before; what it saw of them
      has not changed. */
  lemma SbrkDone(ss: seq<State>, sts: seq<Step>, ls: seq<Label>, k: nat, n: nat)
    requires IsRun(ss, sts, ls) && k < n < |ss| && sts[k].Sbrk? && AwayFrom(ss, sts[k].p, k, n)
    requires sts[k].p in ss[n].procs && ss[n].procs[sts[k].p].pc.User?
    ensures var Sbrk(p, target) := sts[k];
      && p in ss[k].procs
      && (if target < ss[k].procs[p].np then CutTo(ss[k], ss[n], p, target)
          else if sts[n - 1].DoGrowDone? then GrownTo(ss[k], ss[n], p, target)
          else Same(ss[k], ss[n], p))
  {
    hide Inv, TypeOk, Enabled, Do, Shows, Same, Serving, Init, Away, CutTo, GrownTo;
    var es := RunRefinesEager(ss, sts, ls);
    var Sbrk(p, target) := sts[k];
    var s, a, l, s' := ss[n - 1], sts[n - 1], ls[n - 1], ss[n];
    assert Goes(s, a, l, s') && Goes(ss[k], sts[k], ls[k], ss[k + 1]);
    assert EagerStep(es[n - 1], l, es[n]) && EagerStep(es[k], ls[k], es[k + 1]);
    SbrkBegins(ss[k], sts[k], ls[k], ss[k + 1]);
    SbrkUser(ss[k], sts[k], ls[k], ss[k + 1]);
    if n == k + 1 {
      Starts(s, a, l, s');
      ServingKind(s'.procs[p].pc, sts[k]);
      assert false;
    } else {
      Inside(ss, sts, ls, es, k, n - 1);
      assert Away(s, p);
      ServingKind(s.procs[p].pc, sts[k]);
      LastIsOwn(s, a, l, s', p);
      SbrkLast(s, a, p, target);
      if a.DoGrowDone? {
        GrownSeen(s, s', es[n - 1], es[n], p, target);
      } else {
        SameSeen(s, s', es[n - 1], es[n], p);
      }
      if target < ss[k].procs[p].np {
        CutSeen(ss[k], ss[k + 1], es[k], es[k + 1], p, target);
        Extent(ss[k], p);
        CutStays(ss[k], ss[k + 1], s, s', p, target, a.DoGrowDone?);
      } else {
        SameSeen(ss[k], ss[k + 1], es[k], es[k + 1], p);
        GrownAfter(ss[k], ss[k + 1], s, s', p, target, a.DoGrowDone?);
      }
    }
  }

  lemma CutStays(s: State, s1: State, s2: State, s3: State, p: Pid, n: nat, grown: bool)
    requires CutTo(s, s1, p, n) && Same(s1, s2, p) && if grown then GrownTo(s2, s3, p, n) else Same(s2, s3, p)
    requires p in s.procs && n < s.procs[p].np
    requires forall w: Vpn, o: nat :: Byte(s, p, w, o).Some? <==> w < s.procs[p].np && o < PGSIZE
    ensures CutTo(s, s3, p, n)
  {
    hide Byte, May;
    forall w: Vpn, o: nat
      ensures Byte(s3, p, w, o) == if w < n then Byte(s, p, w, o) else None
    {
      assert Byte(s1, p, w, o) == if w < n then Byte(s, p, w, o) else None;
      assert Byte(s2, p, w, o) == Byte(s1, p, w, o);
      assert grown ==> (Byte(s3, p, w, o).Some? <==> w < n && o < PGSIZE);
    }
  }

  lemma GrownAfter(s: State, s1: State, s2: State, s3: State, p: Pid, n: nat, grown: bool)
    requires Same(s, s1, p) && Same(s1, s2, p) && if grown then GrownTo(s2, s3, p, n) else Same(s2, s3, p)
    ensures if grown then GrownTo(s, s3, p, n) else Same(s, s3, p)
  {
    hide Byte, May;
    SameTrans(s, s1, s2, p);
    if grown {
      assert forall w: Vpn, o: nat :: Byte(s2, p, w, o) == Byte(s, p, w, o);
    } else {
      SameTrans(s, s2, s3, p);
    }
  }

  // ---------------------------------------------------------------- exit

  /** A process that exits, and is not init, sees nothing any more. */
  lemma ExitDone(ss: seq<State>, sts: seq<Step>, ls: seq<Label>, i: nat, w: Vpn, o: nat)
    requires IsRun(ss, sts, ls) && i < |sts| && sts[i].Exit? && sts[i].p != INIT
    ensures Byte(ss[i + 1], sts[i].p, w, o).None?
  {
    hide Init, TypeOk;
    assert Goes(ss[i], sts[i], ls[i], ss[i + 1]);
  }

  // ---------------------------------------------------------------- calls end

  /** The step that a process in the kernel can take next. */
  function Next(pr: Proc, p: Pid, junk: Page): Step {
    match pr.pc
    case CopyMove(_, _, _) => DoCopyMove(p)
    case FaultTest(_, _) => DoTest(p)
    case FaultCount(_, _) => DoCount(p)
    case FaultUpgrade(_, _) => DoUpgrade(p)
    case FaultAlloc(_, _) => DoAlloc(p, junk)
    case FaultCopy(_, _, _, k) => if k < PGSIZE then DoCopyByte(p) else DoRemap(p)
    case FaultDrop(_, _, _) => DoDrop(p)
    case FaultPush(_, _, _) => DoPush(p)
    case ForkPage(_, i) => if i < pr.np then DoForkPage(p, true) else DoForkDone(p)
    case ForkIncref(_, _) => DoForkIncref(p)
    case Grow(cur, target) => if cur < target then DoAlloc(p, junk) else DoGrowDone(p)
    case GrowMap(_, _, _) => DoGrowMap(p, true)
    case GrowDrop(_, _) => DoDrop(p)
    case GrowPush(_, _) => DoPush(p)
    case Unmap(cur, hi, _) => if cur < hi then DoUnmap(p) else DoUnmapDone(p)
    case UnmapPush(_, _, _) => DoPush(p)
    case UnmapClear(_, _, _) => DoClear(p)
    case User => Exit(p)
    case Embryo(_, _) => Exit(p)
  }

  /** More than the number of steps that a process has before it in the kernel. */
  function Rank(pr: Proc): int {
    match pr.pc
    case User => 0
    case Embryo(_, _) => 0
    case CopyMove(_, _, _) => 2
    case FaultTest(_, _) => PGSIZE + 10
    case FaultCount(_, _) => PGSIZE + 9
    case FaultUpgrade(_, _) => 3
    case FaultAlloc(_, _) => PGSIZE + 8
    case FaultCopy(_, _, _, k) => PGSIZE - k + 6
    case FaultDrop(_, _, _) => 5
    case FaultPush(_, _, _) => 4
    case ForkPage(_, i) => 3 * (pr.np - i) + 1
    case ForkIncref(_, i) => 3 * (pr.np - i) - 1
    case Grow(cur, target) => 10 * (target - cur) + 4 * (cur - pr.np) + 5
    case GrowMap(cur, target, _) => 10 * (target - cur) + 4 * (cur - pr.np) + 3
    case GrowDrop(cur, _) => 4 * (cur - pr.np) + 4
    case GrowPush(cur, _) => 4 * (cur - pr.np) + 3
    case Unmap(cur, hi, _) => 4 * (hi - cur) + 1
    case UnmapPush(cur, hi, _) => 4 * (hi - cur)
    case UnmapClear(cur, hi, _) => 4 * (hi - cur) - 1
  }

  /** In every run, a process in the kernel that is not waiting to be born can go on. */
  lemma CanGoOn(ss: seq<State>, sts: seq<Step>, ls: seq<Label>, i: nat, p: Pid, junk: Page)
    requires IsRun(ss, sts, ls) && i < |ss| && !ss[i].halted && p in ss[i].procs && |junk| == PGSIZE
    requires !ss[i].procs[p].pc.User? && !ss[i].procs[p].pc.Embryo?
    ensures Enabled(ss[i], Next(ss[i].procs[p], p, junk)) && Rank(ss[i].procs[p]) > 0
  {
    hide Inv, Init, Goes, EagerStep, Shows;
    var es := RunRefinesEager(ss, sts, ls);
    NextEnabled(ss[i], p, junk);
  }

  lemma NextEnabled(s: State, p: Pid, junk: Page)
    requires Inv(s) && !s.halted && p in s.procs && |junk| == PGSIZE
    requires !s.procs[p].pc.User? && !s.procs[p].pc.Embryo?
    ensures Enabled(s, Next(s.procs[p], p, junk)) && Rank(s.procs[p]) > 0
  {
    hide Consistent, Own, EntriesOk, HoldOk, CopyOk, ForkOk, PagesOk;
    assert LocalOk(s.procs[p]);
  }

  /** Each step of its own brings it nearer to the end of the call, and no step of others takes it
      back. */
  lemma Nearer(s: State, a: Step, p: Pid)
    requires Inv(s) && TypeOk(s) && Enabled(s, a) && p in s.procs && !s.procs[p].pc.User? && !s.procs[p].pc.Embryo?
    ensures var s' := Do(s, a).0;
      if Kernel(a) || a.p != p then p in s'.procs && s'.procs[p] == s.procs[p]
      else s'.halted || p !in s'.procs || Killed(s'.procs[p].pc) || Rank(s'.procs[p]) < Rank(s.procs[p])
  {
    hide Inv, TypeOk, Do, Enabled, Rank, LocalOk, ForkOk, PagesOk, ChildOk, EntriesOk, HoldOk, CopyOk;
    if Kernel(a) || a.p != p {
      ProcSame(s, a, p);
    } else {
      Parts(s, p);
      RankDrops(s, a, p);
    }
  }

  predicate InFault(pc: Pc) {
    pc.CopyMove? || pc.FaultTest? || pc.FaultCount? || pc.FaultUpgrade? || pc.FaultAlloc? || pc.FaultCopy? || pc.FaultDrop?
    || pc.FaultPush?
  }

  predicate InUnmap(pc: Pc) {
    pc.Unmap? || pc.UnmapPush? || pc.UnmapClear?
  }

  /** What a step of its own does to the rank of process p. */
  ghost predicate Drops(s: State, a: Step, p: Pid)
    requires TypeOk(s) && Enabled(s, a) && p in s.procs
  {
    var s' := Do(s, a).0;
    s'.halted || p !in s'.procs || Killed(s'.procs[p].pc) || Rank(s'.procs[p]) < Rank(s.procs[p])
  }

  lemma RankDrops(s: State, a: Step, p: Pid)
    requires TypeOk(s) && Enabled(s, a) && p in s.procs && !s.procs[p].pc.User? && !s.procs[p].pc.Embryo?
    requires !Kernel(a) && a.p == p && LocalOk(s.procs[p]) && ForkOk(s, p)
    ensures Drops(s, a, p)
  {
    hide TypeOk, Enabled, Drops, LocalOk, ForkOk;
    if InFault(s.procs[p].pc) {
      FaultDrops(s, a, p);
    } else if InUnmap(s.procs[p].pc) {
      UnmapDrops(s, a, p);
    } else if s.procs[p].pc.ForkPage? || s.procs[p].pc.ForkIncref? {
      ForkDrops(s, a, p);
    } else {
      GrowDrops(s, a, p);
    }
  }

  lemma FaultDrops(s: State, a: Step, p: Pid)
    requires TypeOk(s) && Enabled(s, a) && p in s.procs && InFault(s.procs[p].pc) && !Kernel(a) && a.p == p
    requires LocalOk(s.procs[p])
    ensures Drops(s, a, p)
  {
    hide TypeOk;
  }

  lemma UnmapDrops(s: State, a: Step, p: Pid)
    requires TypeOk(s) && Enabled(s, a) && p in s.procs && InUnmap(s.procs[p].pc) && !Kernel(a) && a.p == p
    requires LocalOk(s.procs[p])
    ensures Drops(s, a, p)
  {
    hide TypeOk;
  }

  lemma ForkDrops(s: State, a: Step, p: Pid)
    requires TypeOk(s) && Enabled(s, a) && p in s.procs && (s.procs[p].pc.ForkPage? || s.procs[p].pc.ForkIncref?)
    requires !Kernel(a) && a.p == p && LocalOk(s.procs[p]) && ForkOk(s, p)
    ensures Drops(s, a, p)
  {
    hide TypeOk;
  }

  lemma GrowDrops(s: State, a: Step, p: Pid)
    requires TypeOk(s) && Enabled(s, a) && p in s.procs && !Kernel(a) && a.p == p && LocalOk(s.procs[p])
    requires var pc := s.procs[p].pc; pc.Grow? || pc.GrowMap? || pc.GrowDrop? || pc.GrowPush?
    ensures Drops(s, a, p)
  {
    hide TypeOk;
  }
}
