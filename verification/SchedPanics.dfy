/** The spin-lock bookkeeping of every CPU beside the runs of `SleepWakeup`: what sched(), acquire,
    release and pop_off test, and panic on, never happens. */
module SchedPanics {
  import opened SleepWakeup
  import opened Spinlock

  /** The acquires and releases of a step on its CPU. wakeup takes and gives up the lock of each
      process but its own. */
  function Events(s: State, a: Step): seq<Event>
    requires Enabled(s, a)
  {
    match a
    case Dispatch(_, _) => [Push]
    case BackRelease(_) => [Pop]
    case Resume(_) => [Pop]
    case AcquireLk(_, _) => [Push]
    case TestLocked(c) => if s.locked[Pc0(s, c).l] then [] else [Pop]
    case SleepTakeP(_) => [Push]
    case SleepDropLk(_) => [Pop]
    case SleepMark(_) => []
    case Swtch(_) => []
    case ReleaseSleep(_, _) => [Push]
    case Unlock(_) => []
    case WakeOne(c) => if Pc0(s, c).i == s.cpus[c].p then [] else [Push, Pop]
    case WakeDone(_) => [Pop]
    case Yield(_) => [Push]
    case Kill(_) => []
  }

  /** Before its events a step may find interrupts switched on or off, if no lock is held, and the
      saved flag replaced, as sched() does with that of the process it resumes. */
  predicate Found(i: Intr, j: Intr) {
    j.noff == i.noff && (i.noff > 0 ==> j.on == i.on)
  }

  ghost predicate Next(s: State, ns: seq<Intr>, a: Step, ns': seq<Intr>) {
    && Enabled(s, a) && |ns| == |ns'| == |s.cpus|
    && (forall c :: 0 <= c < |ns| && (a.Kill? || c != a.c) ==> Found(ns[c], ns'[c]))
    && (!a.Kill? ==> a.c < |ns| && exists j :: Found(ns[a.c], j) && ns'[a.c] == After(j, Events(s, a)))
  }

  /** A run of the machine with the bookkeeping of its CPUs. */
  ghost predicate IntrRun(ss: seq<State>, steps: seq<Step>, nss: seq<seq<Intr>>) {
    && IsRun(ss, steps) && |nss| == |ss| && |nss[0]| == |ss[0].cpus|
    && (forall c :: 0 <= c < |nss[0]| ==> nss[0][c].noff == 0)
    && forall i :: 0 <= i < |steps| ==> Next(ss[i], nss[i], steps[i], nss[i + 1])
  }

  // ---------------------------------------------------------------- noff counts the locks held

  function Locks(pc: Pc): nat {
    match pc
    case Work => 0
    case Reacq(_) => 0
    case HaveP(_) => 2
    case _ => 1
  }

  /** How many spin locks CPU c holds. */
  function Depth(s: State, c: nat): nat
    requires c < |s.cpus|
  {
    match s.cpus[c]
    case Idle => 0
    case Back(_) => 1
    case Run(p) => if p < |s.procs| then Locks(s.procs[p].pc) else 0
  }

  ghost predicate Counted(s: State, ns: seq<Intr>) {
    |ns| == |s.cpus| && forall c :: 0 <= c < |ns| ==> ns[c].noff == Depth(s, c) && (ns[c].noff > 0 ==> !ns[c].on)
  }

  function Net(es: seq<Event>): int {
    if es == [] then 0 else Net(es[1..]) + if es[0] == Push then 1 else -1
  }

  /** At most two events, as a step has. */
  lemma AfterFew(i: Intr, es: seq<Event>)
    requires es == [] || es == [Push] || es == [Pop] || es == [Push, Pop]
    ensures After(i, es).noff == i.noff + Net(es)
    ensures (i.noff > 0 ==> !i.on) && i.noff >= 0 && After(i, es).noff > 0 ==> !After(i, es).on
  {
    assert es == [Push, Pop] ==> es[..1] == [Push] && es[1..] == [Pop];
    assert es == [Push] ==> es[..0] == [];
    assert es == [Pop] ==> es[..0] == [];
    assert [Push][..0] == [];
  }

  lemma StepDepth(s: State, a: Step)
    requires Inv(s) && Enabled(s, a) && !a.Kill?
    ensures var s' := Do(s, a);
      && |s'.cpus| == |s.cpus| && a.c < |s.cpus| && Depth(s', a.c) == Depth(s, a.c) + Net(Events(s, a))
  {
    hide NotLost, Exclusive, LkOk;
    assert CpuOk(s, a.c);
    assert !s.cpus[a.c].Idle? ==> ProcOk(s, s.cpus[a.c].p);
    assert a.Dispatch? ==> ProcOk(s, a.p);
    NetFew();
  }

  lemma NetFew()
    ensures Net([]) == 0 && Net([Push]) == 1 && Net([Pop]) == -1 && Net([Push, Pop]) == 0
  {
    assert [Push, Pop][1..] == [Pop] && [Push][1..] == [] && [Pop][1..] == [];
  }

  /** Nothing that other CPUs hold changes. */
  lemma OtherDepth(s: State, a: Step, c: nat)
    requires Inv(s) && Enabled(s, a) && c < |s.cpus| && (a.Kill? || a.c != c)
    ensures |Do(s, a).cpus| == |s.cpus| && Depth(Do(s, a), c) == Depth(s, c)
  {
    hide NotLost, Exclusive, LkOk, ProcOk;
    assert CpuOk(s, c);
    assert !a.Kill? ==> CpuOk(s, a.c);
    if a.Dispatch? {
      assert ProcOk(s, a.p) && CpuOk(s, c);
      OtherProc(s, a.p, c);
    }
  }

  lemma OtherProc(s: State, p: nat, c: nat)
    requires Inv(s) && c < |s.cpus| && p < |s.procs| && s.plock[p] == FREE && s.procs[p].mode == Runnable
    ensures s.cpus[c] != Run(p)
  {
    hide NotLost, Exclusive, LkOk;
    assert ProcOk(s, p) && CpuOk(s, c);
  }

  lemma CountedStep(s: State, ns: seq<Intr>, a: Step, ns': seq<Intr>)
    requires Inv(s) && Counted(s, ns) && Next(s, ns, a, ns')
    ensures Counted(Do(s, a), ns')
  {
    hide Inv, Enabled, Do, Depth;
    var s' := Do(s, a);
    forall c | 0 <= c < |ns'|
      ensures c < |s'.cpus| && ns'[c].noff == Depth(s', c) && (ns'[c].noff > 0 ==> !ns'[c].on)
    {
      if a.Kill? || c != a.c {
        OtherDepth(s, a, c);
      } else {
        StepDepth(s, a);
        var j :| Found(ns[c], j) && ns'[c] == After(j, Events(s, a));
        AfterFew(j, Events(s, a));
      }
    }
    if !a.Kill? {
      StepDepth(s, a);
    } else {
      KillCpus(s, a);
    }
  }

  lemma KillCpus(s: State, a: Step)
    requires Enabled(s, a) && a.Kill?
    ensures |Do(s, a).cpus| == |s.cpus|
  {
  }

  lemma InitCounted(s: State, ns: seq<Intr>)
    requires Init(s) && |ns| == |s.cpus| && forall c :: 0 <= c < |ns| ==> ns[c].noff == 0
    ensures Counted(s, ns)
  {
  }

  lemma {:induction false} RunCounted(ss: seq<State>, steps: seq<Step>, nss: seq<seq<Intr>>, i: nat)
    requires IntrRun(ss, steps, nss) && i < |ss|
    ensures Inv(ss[i]) && Counted(ss[i], nss[i])
  {
    hide Inv, Enabled, Do, Init, Counted, Next;
    RunInv(ss, steps, i);
    if i == 0 {
      InitCounted(ss[0], nss[0]);
    } else {
      RunCounted(ss, steps, nss, i - 1);
      CountedStep(ss[i - 1], nss[i - 1], steps[i - 1], nss[i]);
    }
  }

  // ---------------------------------------------------------------- no panic

  /** When sched() is about to switch, none of its four panics can happen: p->lock is held by this
      CPU, it is the only lock, the process is not RUNNING, and interrupts are off. */
  lemma SchedNeverPanics(ss: seq<State>, steps: seq<Step>, nss: seq<seq<Intr>>, i: nat, c: nat)
    requires IntrRun(ss, steps, nss) && i < |ss| && Enabled(ss[i], Swtch(c))
    ensures var s := ss[i];
      var p := s.cpus[c].p;
      && s.plock[p] == c && s.procs[p].mode != Running
      && c < |nss[i]| && nss[i][c].noff == 1 && !nss[i][c].on
  {
    hide Do, Init, NotLost, Exclusive, LkOk, Next;
    RunCounted(ss, steps, nss, i);
    assert CpuOk(ss[i], c);
    assert ProcOk(ss[i], ss[i].cpus[c].p);
  }

  /** The spin lock that a step releases: that of a process, or that of a sleep lock. */
  predicate HoldsReleased(s: State, a: Step)
    requires Enabled(s, a)
  {
    match a
    case BackRelease(c) => s.plock[s.cpus[c].p] == c
    case Resume(c) => s.plock[s.cpus[c].p] == c
    case TestLocked(c) => s.lk[Pc0(s, c).l] == c
    case SleepDropLk(c) => s.lk[Pc0(s, c).l] == c
    case WakeDone(c) => s.lk[Pc0(s, c).l] == c
    case _ => true
  }

  /** release() finds its lock held by this CPU, and its pop_off neither interrupts on nor a count
      below 1. */
  lemma ReleaseNeverPanics(ss: seq<State>, steps: seq<Step>, nss: seq<seq<Intr>>, i: nat, a: Step)
    requires IntrRun(ss, steps, nss) && i < |ss| && Enabled(ss[i], a) && !a.Kill?
    ensures HoldsReleased(ss[i], a) && a.c < |nss[i]|
    ensures Events(ss[i], a) == [Pop] ==> PopOk(nss[i][a.c])
  {
    hide Do, Init, NotLost, Exclusive, LkOk, Next;
    RunCounted(ss, steps, nss, i);
    ReleasedHeld(ss[i], a);
  }

  lemma ReleasedHeld(s: State, a: Step)
    requires Inv(s) && Enabled(s, a) && !a.Kill?
    ensures HoldsReleased(s, a) && a.c < |s.cpus| && (Events(s, a) == [Pop] ==> Depth(s, a.c) >= 1)
  {
    hide NotLost, Exclusive, LkOk;
    assert CpuOk(s, a.c);
    assert !s.cpus[a.c].Idle? ==> ProcOk(s, s.cpus[a.c].p);
  }

  /** acquire() never finds its lock held by its own CPU, wherever a process is about to take one. */
  lemma AcquireNeverPanics(ss: seq<State>, steps: seq<Step>, i: nat, c: nat)
    requires IsRun(ss, steps) && i < |ss| && Runs(ss[i], c)
    ensures var s, pc, p := ss[i], Pc0(ss[i], c), ss[i].cpus[c].p;
      && (pc.Work? || pc.WantP? ==> s.plock[p] != c)
      && (forall l :: 0 <= l < |s.lk| && (pc.Work? || pc == Reacq(l)) ==> s.lk[l] != c)
      && (pc.Waking? ==> forall q :: 0 <= q < |s.procs| && q != p ==> s.plock[q] != c)
  {
    hide Enabled, Do, Init, NotLost, Exclusive;
    RunInv(ss, steps, i);
    var s, p := ss[i], ss[i].cpus[c].p;
    assert CpuOk(s, c);
    forall q | 0 <= q < |s.procs| && q != p
      ensures s.plock[q] != c
    {
      assert ProcOk(s, q);
    }
    assert ProcOk(s, p);
    forall l | 0 <= l < |s.lk| && (Pc0(s, c).Work? || Pc0(s, c) == Reacq(l))
      ensures s.lk[l] != c
    {
      assert LkOk(s, l);
    }
  }
}
