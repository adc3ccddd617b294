/** sleep, wakeup, the scheduler and sleep locks, as interleaved steps of any number of processes
    on any number of CPUs.

    A spin lock is held by a CPU: that is how p->lock goes from a process to the scheduler of the
    same CPU and back. A step is one action between two such lock operations, so that a process
    on its way into sleep() can be overtaken by others at every point where the code allows it. */
module SleepWakeup {
  const FREE: int := -1

  /** Where a process is. l is a sleep lock, which is also the channel that its waiters sleep on. */
  datatype Pc =
    | Start                    // never run: forkret releases p->lock
    | Work                     // no spin lock held
    | Test(l: nat)             // acquiresleep, holding lk->lk, at the test of lk->locked
    | WantP(l: nat)            // sleep, holding lk->lk, at acquire(&p->lock)
    | HaveP(l: nat)            // sleep, holding both, at release(lk)
    | Mark(l: nat)             // sleep, holding p->lock, before state = SLEEPING
    | Switch(l: nat)           // sleep, marked SLEEPING, still on its CPU
    | Woken(l: nat)            // sleep, in sched() or just out of it, at release(&p->lock)
    | Reacq(l: nat)            // sleep, at acquire(lk)
    | RelHave(l: nat)          // releasesleep, holding lk->lk
    | Waking(l: nat, i: nat)   // wakeup, at process i
    | YieldSwitch              // yield, marked RUNNABLE, still on its CPU
    | YieldBack                // yield, in sched() or just out of it

  datatype Mode = Runnable | Running | Sleeping

  /** `on` is the CPU that runs the process's thread; `holds` the sleep locks it has acquired. */
  datatype Proc = Proc(mode: Mode, chan: int, pc: Pc, on: int, holds: set<nat>)

  /** A CPU is in its scheduler loop, runs a process, or is back from one and about to release its
      lock. */
  datatype Cpu = Idle | Run(p: nat) | Back(p: nat)

  datatype State = State(procs: seq<Proc>, cpus: seq<Cpu>, plock: seq<int>, lk: seq<int>, locked: seq<bool>)

  datatype Step =
    | Dispatch(c: nat, p: nat)
    | BackRelease(c: nat)
    | Resume(c: nat)
    | AcquireLk(c: nat, l: nat)
    | TestLocked(c: nat)
    | SleepTakeP(c: nat)
    | SleepDropLk(c: nat)
    | SleepMark(c: nat)
    | Swtch(c: nat)
    | ReleaseSleep(c: nat, l: nat)
    | Unlock(c: nat)
    | WakeOne(c: nat)
    | WakeDone(c: nat)
    | Yield(c: nat)
    | Kill(q: nat)

  predicate Runs(s: State, c: nat) {
    c < |s.cpus| && s.cpus[c].Run? && s.cpus[c].p < |s.procs| && |s.plock| == |s.procs| && |s.lk| == |s.locked|
  }

  function Pc0(s: State, c: nat): Pc
    requires Runs(s, c)
  {
    s.procs[s.cpus[c].p].pc
  }

  function SetProc(s: State, p: nat, x: Proc): State
    requires p < |s.procs|
  {
    s.(procs := s.procs[p := x])
  }

  function At(s: State, c: nat, pc: Pc): State
    requires Runs(s, c)
  {
    SetProc(s, s.cpus[c].p, s.procs[s.cpus[c].p].(pc := pc))
  }

  function SetP(s: State, p: nat, c: int): State
    requires p < |s.plock|
  {
    s.(plock := s.plock[p := c])
  }

  function SetLk(s: State, l: nat, c: int): State
    requires l < |s.lk|
  {
    s.(lk := s.lk[l := c])
  }

  /** wakeup's test of one process. */
  function Wake(x: Proc, l: nat): Proc {
    if x.mode == Sleeping && x.chan == l then x.(mode := Runnable) else x
  }

  predicate Enabled(s: State, a: Step) {
    match a
    case Dispatch(c, p) =>
      c < |s.cpus| && s.cpus[c].Idle? && p < |s.procs| == |s.plock| && s.plock[p] == FREE && s.procs[p].mode == Runnable
    case BackRelease(c) => c < |s.cpus| && s.cpus[c].Back? && s.cpus[c].p < |s.plock|
    case Resume(c) => Runs(s, c) && (Pc0(s, c).Woken? || Pc0(s, c).YieldBack? || Pc0(s, c).Start?)
    case AcquireLk(c, l) => Runs(s, c) && l < |s.lk| && s.lk[l] == FREE && (Pc0(s, c).Work? || Pc0(s, c) == Reacq(l))
    case TestLocked(c) => Runs(s, c) && Pc0(s, c).Test? && Pc0(s, c).l < |s.lk|
    case SleepTakeP(c) => Runs(s, c) && Pc0(s, c).WantP? && s.plock[s.cpus[c].p] == FREE
    case SleepDropLk(c) => Runs(s, c) && Pc0(s, c).HaveP? && Pc0(s, c).l < |s.lk|
    case SleepMark(c) => Runs(s, c) && Pc0(s, c).Mark?
    case Swtch(c) => Runs(s, c) && (Pc0(s, c).Switch? || Pc0(s, c).YieldSwitch?)
    case ReleaseSleep(c, l) =>
      Runs(s, c) && Pc0(s, c).Work? && l < |s.lk| && s.lk[l] == FREE && l in s.procs[s.cpus[c].p].holds
    case Unlock(c) => Runs(s, c) && Pc0(s, c).RelHave? && Pc0(s, c).l < |s.lk|
    case WakeOne(c) =>
      Runs(s, c) && Pc0(s, c).Waking? && Pc0(s, c).i < |s.procs|
      && (Pc0(s, c).i == s.cpus[c].p || s.plock[Pc0(s, c).i] == FREE)
    case WakeDone(c) => Runs(s, c) && Pc0(s, c).Waking? && Pc0(s, c).i == |s.procs| && Pc0(s, c).l < |s.lk|
    case Yield(c) => Runs(s, c) && Pc0(s, c).Work? && s.plock[s.cpus[c].p] == FREE
    case Kill(q) => q < |s.procs| == |s.plock| && s.plock[q] == FREE && s.procs[q].mode == Sleeping
  }

  function Do(s: State, a: Step): State
    requires Enabled(s, a)
  {
    match a
    case Dispatch(c, p) =>
      SetP(SetProc(s, p, s.procs[p].(mode := Running, on := c)), p, c).(cpus := s.cpus[c := Run(p)])
    case BackRelease(c) => SetP(s, s.cpus[c].p, FREE).(cpus := s.cpus[c := Idle])
    case Resume(c) =>
      var p := s.cpus[c].p;
      var x := s.procs[p];
      SetP(SetProc(s, p, if x.pc.Woken? then x.(chan := FREE, pc := Reacq(x.pc.l)) else x.(pc := Work)), p, FREE)
    case AcquireLk(c, l) => SetLk(At(s, c, Test(l)), l, c)
    case TestLocked(c) =>
      var p, l := s.cpus[c].p, Pc0(s, c).l;
      if s.locked[l] then At(s, c, WantP(l))
      else SetLk(SetProc(s, p, s.procs[p].(pc := Work, holds := s.procs[p].holds + {l})), l, FREE)
           .(locked := s.locked[l := true])
    case SleepTakeP(c) => SetP(At(s, c, HaveP(Pc0(s, c).l)), s.cpus[c].p, c)
    case SleepDropLk(c) => SetLk(At(s, c, Mark(Pc0(s, c).l)), Pc0(s, c).l, FREE)
    case SleepMark(c) =>
      var p, l := s.cpus[c].p, Pc0(s, c).l;
      SetProc(s, p, s.procs[p].(mode := Sleeping, chan := l, pc := Switch(l)))
    case Swtch(c) =>
      var p := s.cpus[c].p;
      var x := s.procs[p];
      SetProc(s, p, x.(on := FREE, pc := if x.pc.Switch? then Woken(x.pc.l) else YieldBack)).(cpus := s.cpus[c := Back(p)])
    case ReleaseSleep(c, l) => SetLk(At(s, c, RelHave(l)), l, c)
    case Unlock(c) =>
      var p, l := s.cpus[c].p, Pc0(s, c).l;
      SetProc(s, p, s.procs[p].(pc := Waking(l, 0), holds := s.procs[p].holds - {l})).(locked := s.locked[l := false])
    case WakeOne(c) =>
      var pc := Pc0(s, c);
      var s1 := if pc.i == s.cpus[c].p then s else SetProc(s, pc.i, Wake(s.procs[pc.i], pc.l));
      At(s1, c, Waking(pc.l, pc.i + 1))
    case WakeDone(c) => SetLk(At(s, c, Work), Pc0(s, c).l, FREE)
    case Yield(c) =>
      var p := s.cpus[c].p;
      SetP(SetProc(s, p, s.procs[p].(mode := Runnable, pc := YieldSwitch)), p, c)
    case Kill(q) => SetProc(s, q, s.procs[q].(mode := Runnable))
  }

  // ---------------------------------------------------------------- the invariant

  /** The positions at which a running process holds its own lock. */
  predicate HasP(pc: Pc) {
    pc.Start? || pc.HaveP? || pc.Mark? || pc.Switch? || pc.Woken? || pc.YieldSwitch? || pc.YieldBack?
  }

  /** The positions at which a process that does not run can be. */
  predicate Saved(pc: Pc) {
    pc.Start? || pc.Woken? || pc.YieldBack?
  }

  predicate HasLk(pc: Pc, l: nat) {
    pc == Test(l) || pc == WantP(l) || pc == HaveP(l) || pc == RelHave(l) || (pc.Waking? && pc.l == l)
  }

  predicate Sizes(s: State) {
    |s.plock| == |s.procs| && |s.lk| == |s.locked|
  }

  ghost predicate ProcOk(s: State, p: nat)
    requires Sizes(s) && p < |s.procs|
  {
    var x := s.procs[p];
    && (if x.on == FREE then Saved(x.pc) && x.mode != Running
        else 0 <= x.on < |s.cpus| && s.cpus[x.on] == Run(p) && (HasP(x.pc) ==> s.plock[p] == x.on))
    && (s.plock[p] != FREE ==>
          0 <= s.plock[p] < |s.cpus| && (s.cpus[s.plock[p]] == Back(p) || (s.cpus[s.plock[p]] == Run(p) && HasP(x.pc))))
    && (x.on != FREE ==> (x.mode == Running <==> !x.pc.Switch? && !x.pc.YieldSwitch?))
    && (x.mode == Sleeping ==> (x.pc.Switch? || x.pc.Woken?) && x.chan == x.pc.l)
    && (x.pc.Switch? ==> x.mode == Sleeping) && (x.pc.YieldSwitch? ==> x.mode == Runnable)
    && (forall l :: l in x.holds ==> l < |s.locked| && s.locked[l])
    && (x.pc.RelHave? ==> x.pc.l in x.holds)
    && (x.pc.Waking? ==> x.pc.l < |s.lk| && !s.locked[x.pc.l] && x.pc.i <= |s.procs|)
    && (x.pc.WantP? || x.pc.HaveP? ==> x.pc.l < |s.lk| && s.locked[x.pc.l])
    && (x.pc.Test? ==> x.pc.l < |s.lk|)
    && (forall l :: 0 <= l < |s.lk| && HasLk(x.pc, l) ==> s.lk[l] == x.on)
  }

  ghost predicate CpuOk(s: State, c: nat)
    requires c < |s.cpus| && Sizes(s)
  {
    match s.cpus[c]
    case Idle => true
    case Run(p) => p < |s.procs| && s.procs[p].on == c
    case Back(p) => p < |s.procs| && s.plock[p] == c && s.procs[p].on == FREE
  }

  ghost predicate LkOk(s: State, l: nat)
    requires Sizes(s) && l < |s.lk|
  {
    s.lk[l] != FREE ==> 0 <= s.lk[l] && Runs(s, s.lk[l]) && HasLk(Pc0(s, s.lk[l]), l)
  }

  ghost predicate Exclusive(s: State) {
    forall p, q :: 0 <= p < q < |s.procs| ==> s.procs[p].holds !! s.procs[q].holds
  }

  /** Process p waits for l, or has decided to: it tested lk->locked and has not been made runnable
      since. */
  predicate Waits(x: Proc, l: nat) {
    x.pc == WantP(l) || x.pc == HaveP(l) || x.pc == Mark(l) || x.pc == Switch(l) || (x.pc == Woken(l) && x.mode == Sleeping)
  }

  /** Some process is in wakeup(l) and has not passed process p yet. */
  ghost predicate WillWake(s: State, p: nat, l: nat) {
    exists q :: 0 <= q < |s.procs| && q != p && s.procs[q].pc.Waking? && s.procs[q].pc.l == l && s.procs[q].pc.i <= p
  }

  ghost predicate NotLost(s: State, p: nat)
    requires p < |s.procs|
  {
    forall l :: 0 <= l < |s.locked| && Waits(s.procs[p], l) ==> s.locked[l] || WillWake(s, p, l)
  }

  ghost predicate Inv(s: State) {
    && Sizes(s) && Exclusive(s)
    && (forall p :: 0 <= p < |s.procs| ==> ProcOk(s, p))
    && (forall c :: 0 <= c < |s.cpus| ==> CpuOk(s, c))
    && (forall l :: 0 <= l < |s.lk| ==> LkOk(s, l))
    && (forall p :: 0 <= p < |s.procs| ==> NotLost(s, p))
  }

  ghost predicate Init(s: State) {
    && Sizes(s)
    && (forall p :: 0 <= p < |s.procs| ==> s.procs[p] == Proc(Runnable, FREE, Start, FREE, {}) && s.plock[p] == FREE)
    && (forall c :: 0 <= c < |s.cpus| ==> s.cpus[c] == Idle)
    && (forall l :: 0 <= l < |s.lk| ==> s.lk[l] == FREE && !s.locked[l])
  }

  lemma InitInv(s: State)
    requires Init(s)
    ensures Inv(s)
  {
  }

  // ---------------------------------------------------------------- steps that wake nobody

  /** Process p0 takes a step outside wakeup that leaves every sleep lock as it is. */
  lemma NotLostStays(s: State, s': State, p0: nat)
    requires Inv(s) && |s'.procs| == |s.procs| && s'.locked == s.locked && p0 < |s.procs|
    requires forall p :: 0 <= p < |s.procs| && p != p0 ==> s'.procs[p] == s.procs[p]
    requires s.procs[p0].pc.Waking? ==> s'.procs[p0].pc == s.procs[p0].pc
    requires forall l :: 0 <= l < |s.locked| && Waits(s'.procs[p0], l) ==> Waits(s.procs[p0], l) || s.locked[l]
    ensures forall p :: 0 <= p < |s.procs| ==> NotLost(s', p)
  {
    hide ProcOk, CpuOk, LkOk, Exclusive;
    forall p | 0 <= p < |s.procs|
      ensures NotLost(s', p)
    {
      assert NotLost(s, p);
      forall l | 0 <= l < |s.locked| && Waits(s'.procs[p], l)
        ensures s.locked[l] || WillWake(s', p, l)
      {
        if !s.locked[l] {
          var q :| 0 <= q < |s.procs| && q != p && s.procs[q].pc.Waking? && s.procs[q].pc.l == l && s.procs[q].pc.i <= p;
          assert s'.procs[q].pc == s.procs[q].pc;
        }
      }
    }
  }

  lemma HoldsStay(s: State, s': State)
    requires Exclusive(s) && |s'.procs| == |s.procs|
    requires forall p :: 0 <= p < |s.procs| ==> s'.procs[p].holds <= s.procs[p].holds
    ensures Exclusive(s')
  {
    forall p, q | 0 <= p < q < |s.procs|
      ensures s'.procs[p].holds !! s'.procs[q].holds
    {
      assert s.procs[p].holds !! s.procs[q].holds;
    }
  }

  /** Both facts for such a step. */
  lemma Quiet(s: State, s': State, p0: nat)
    requires Inv(s) && |s'.procs| == |s.procs| && s'.locked == s.locked && p0 < |s.procs|
    requires forall p :: 0 <= p < |s.procs| && p != p0 ==> s'.procs[p] == s.procs[p]
    requires s'.procs[p0].holds == s.procs[p0].holds
    requires s.procs[p0].pc.Waking? ==> s'.procs[p0].pc == s.procs[p0].pc
    requires forall l :: 0 <= l < |s.locked| && Waits(s'.procs[p0], l) ==> Waits(s.procs[p0], l) || s.locked[l]
    ensures Exclusive(s') && forall p :: 0 <= p < |s.procs| ==> NotLost(s', p)
  {
    hide ProcOk, CpuOk, LkOk, NotLost;
    NotLostStays(s, s', p0);
    HoldsStay(s, s');
  }

  /** CPU c serves no process but p, and no other CPU serves p. */
  ghost predicate Serves(s: State, c: nat, p: nat) {
    c < |s.cpus| && (forall d :: 0 <= d < |s.cpus| && !s.cpus[d].Idle? ==> (d == c <==> s.cpus[d].p == p))
  }

  lemma Served(s: State, c: nat, p: nat)
    requires Inv(s) && c < |s.cpus| && p < |s.procs|
    requires if s.cpus[c].Idle? then s.plock[p] == FREE && s.procs[p].mode == Runnable else s.cpus[c].p == p
    ensures Serves(s, c, p)
  {
    hide NotLost, Exclusive, LkOk;
    assert ProcOk(s, p) && CpuOk(s, c);
    forall d | 0 <= d < |s.cpus| && !s.cpus[d].Idle?
      ensures d == c <==> s.cpus[d].p == p
    {
      assert CpuOk(s, d);
    }
  }

  /** Only process p, its lock, CPU c and spin locks that c takes or gives up change. */
  ghost predicate Local(s: State, s': State, p: nat, c: nat)
    requires Sizes(s)
  {
    && Sizes(s') && |s'.procs| == |s.procs| && |s'.cpus| == |s.cpus| && s'.locked == s.locked
    && p < |s.procs| && Serves(s, c, p) && (s'.cpus[c].Idle? || s'.cpus[c].p == p)
    && (forall q :: 0 <= q < |s.procs| && q != p ==> s'.procs[q] == s.procs[q] && s'.plock[q] == s.plock[q])
    && (forall d :: 0 <= d < |s.cpus| && d != c ==> s'.cpus[d] == s.cpus[d])
    && (forall l :: 0 <= l < |s.lk| && s'.lk[l] != s.lk[l] ==>
          (s.lk[l] == FREE || s.lk[l] == c) && (s'.lk[l] == FREE || s'.lk[l] == c))
  }

  lemma LocalProcs(s: State, s': State, p: nat, c: nat, q: nat)
    requires Inv(s) && Local(s, s', p, c) && q < |s.procs| && q != p
    ensures ProcOk(s', q)
  {
    hide NotLost, Exclusive, CpuOk, LkOk;
    assert ProcOk(s, q);
    assert s.procs[q].on != FREE ==> s.procs[q].on != c;
  }

  lemma LocalLks(s: State, s': State, p: nat, c: nat, l: nat)
    requires Inv(s) && Local(s, s', p, c) && l < |s.lk| && s'.lk[l] == s.lk[l] != FREE && s.lk[l] != c
    ensures LkOk(s', l)
  {
    hide NotLost, Exclusive, ProcOk, HasLk;
    assert LkOk(s, l);
  }

  /** Such a step keeps the invariant if it does for p, c and the locks of c. */
  lemma LocalKeeps(s: State, s': State, p: nat, c: nat)
    requires Inv(s) && Local(s, s', p, c) && ProcOk(s', p) && CpuOk(s', c)
    requires forall l :: 0 <= l < |s.lk| && (s'.lk[l] == c || s.lk[l] == c) ==> LkOk(s', l)
    requires s'.procs[p].holds == s.procs[p].holds
    requires s.procs[p].pc.Waking? ==> s'.procs[p].pc == s.procs[p].pc
    requires forall l :: 0 <= l < |s.locked| && Waits(s'.procs[p], l) ==> Waits(s.procs[p], l) || s.locked[l]
    ensures Inv(s')
  {
    hide NotLost, Exclusive, ProcOk, HasLk;
    Quiet(s, s', p);
    hide Waits, WillWake;
    forall q | 0 <= q < |s.procs|
      ensures ProcOk(s', q)
    {
      if q != p {
        LocalProcs(s, s', p, c, q);
      }
    }
    forall d | 0 <= d < |s.cpus|
      ensures CpuOk(s', d)
    {
      assert CpuOk(s, d);
      LocalCpus(s, s', p, c, d);
    }
    forall l | 0 <= l < |s.lk|
      ensures LkOk(s', l)
    {
      if s'.lk[l] == s.lk[l] != FREE && s.lk[l] != c {
        LocalLks(s, s', p, c, l);
      }
    }
  }

  lemma LocalCpus(s: State, s': State, p: nat, c: nat, d: nat)
    requires Inv(s) && Local(s, s', p, c) && d < |s.cpus| && CpuOk(s', c) && ProcOk(s', p)
    ensures CpuOk(s', d)
  {
    hide NotLost, Exclusive, LkOk, ProcOk;
    assert CpuOk(s, d);
  }

  lemma InvCpu(s: State, c: nat)
    requires Inv(s) && c < |s.cpus|
    ensures Sizes(s) && CpuOk(s, c)
  {
  }

  lemma InvProc(s: State, p: nat)
    requires Inv(s) && p < |s.procs|
    ensures Sizes(s) && ProcOk(s, p)
  {
  }

  lemma InvLk(s: State, l: nat)
    requires Inv(s) && l < |s.lk|
    ensures Sizes(s) && LkOk(s, l)
  {
  }

  lemma DispatchKeeps(s: State, c: nat, p: nat)
    requires Inv(s) && Enabled(s, Dispatch(c, p))
    ensures Inv(Do(s, Dispatch(c, p)))
  {
    hide Inv, Serves;
    InvCpu(s, c);
    var s' := Do(s, Dispatch(c, p));
    InvProc(s, p);
    Served(s, c, p);
    forall l | 0 <= l < |s.lk|
      ensures s.lk[l] != c
    {
      InvLk(s, l);
    }
    LocalKeeps(s, s', p, c);
  }

  lemma BackReleaseKeeps(s: State, c: nat)
    requires Inv(s) && Enabled(s, BackRelease(c))
    ensures Inv(Do(s, BackRelease(c)))
  {
    hide Inv, Serves;
    InvCpu(s, c);
    var s', p := Do(s, BackRelease(c)), s.cpus[c].p;
    InvProc(s, p);
    Served(s, c, p);
    forall l | 0 <= l < |s.lk|
      ensures s.lk[l] != c
    {
      InvLk(s, l);
    }
    LocalKeeps(s, s', p, c);
  }

  lemma ResumeKeeps(s: State, c: nat)
    requires Inv(s) && Enabled(s, Resume(c))
    ensures Inv(Do(s, Resume(c)))
  {
    hide Inv, Serves;
    InvCpu(s, c);
    var s', p := Do(s, Resume(c)), s.cpus[c].p;
    InvProc(s, p);
    Served(s, c, p);
    forall l | 0 <= l < |s.lk|
      ensures s.lk[l] != c
    {
      InvLk(s, l);
    }
    LocalKeeps(s, s', p, c);
  }

  lemma SwtchKeeps(s: State, c: nat)
    requires Inv(s) && Enabled(s, Swtch(c))
    ensures Inv(Do(s, Swtch(c)))
  {
    hide Inv, Serves;
    InvCpu(s, c);
    var s', p := Do(s, Swtch(c)), s.cpus[c].p;
    InvProc(s, p);
    Served(s, c, p);
    forall l | 0 <= l < |s.lk|
      ensures s.lk[l] != c
    {
      InvLk(s, l);
    }
    LocalKeeps(s, s', p, c);
  }

  lemma YieldKeeps(s: State, c: nat)
    requires Inv(s) && Enabled(s, Yield(c))
    ensures Inv(Do(s, Yield(c)))
  {
    hide Inv, Serves;
    InvCpu(s, c);
    var s', p := Do(s, Yield(c)), s.cpus[c].p;
    InvProc(s, p);
    Served(s, c, p);
    forall l | 0 <= l < |s.lk|
      ensures s.lk[l] != c
    {
      InvLk(s, l);
    }
    LocalKeeps(s, s', p, c);
  }

  lemma SleepTakePKeeps(s: State, c: nat)
    requires Inv(s) && Enabled(s, SleepTakeP(c))
    ensures Inv(Do(s, SleepTakeP(c)))
  {
    hide Inv, Serves;
    InvCpu(s, c);
    var s', p := Do(s, SleepTakeP(c)), s.cpus[c].p;
    InvProc(s, p);
    Served(s, c, p);
    forall l | 0 <= l < |s.lk| && (s'.lk[l] == c || s.lk[l] == c)
      ensures LkOk(s', l)
    {
      InvLk(s, l);
    }
    LocalKeeps(s, s', p, c);
  }

  lemma SleepDropLkKeeps(s: State, c: nat)
    requires Inv(s) && Enabled(s, SleepDropLk(c))
    ensures Inv(Do(s, SleepDropLk(c)))
  {
    hide Inv, Serves;
    InvCpu(s, c);
    var s', p := Do(s, SleepDropLk(c)), s.cpus[c].p;
    InvProc(s, p);
    Served(s, c, p);
    forall l | 0 <= l < |s.lk| && (s'.lk[l] == c || s.lk[l] == c)
      ensures LkOk(s', l)
    {
      InvLk(s, l);
    }
    LocalKeeps(s, s', p, c);
  }

  lemma SleepMarkKeeps(s: State, c: nat)
    requires Inv(s) && Enabled(s, SleepMark(c))
    ensures Inv(Do(s, SleepMark(c)))
  {
    hide Inv, Serves;
    InvCpu(s, c);
    var s', p := Do(s, SleepMark(c)), s.cpus[c].p;
    InvProc(s, p);
    Served(s, c, p);
    forall l | 0 <= l < |s.lk|
      ensures s.lk[l] != c
    {
      InvLk(s, l);
    }
    LocalKeeps(s, s', p, c);
  }

  lemma AcquireLkKeeps(s: State, c: nat, l: nat)
    requires Inv(s) && Enabled(s, AcquireLk(c, l))
    ensures Inv(Do(s, AcquireLk(c, l)))
  {
    hide Inv, Serves;
    InvCpu(s, c);
    var s', p := Do(s, AcquireLk(c, l)), s.cpus[c].p;
    InvProc(s, p);
    Served(s, c, p);
    forall m | 0 <= m < |s.lk| && (s'.lk[m] == c || s.lk[m] == c)
      ensures LkOk(s', m)
    {
      InvLk(s, m);
    }
    LocalKeeps(s, s', p, c);
  }

  lemma ReleaseSleepKeeps(s: State, c: nat, l: nat)
    requires Inv(s) && Enabled(s, ReleaseSleep(c, l))
    ensures Inv(Do(s, ReleaseSleep(c, l)))
  {
    hide Inv, Serves;
    InvCpu(s, c);
    var s', p := Do(s, ReleaseSleep(c, l)), s.cpus[c].p;
    InvProc(s, p);
    Served(s, c, p);
    forall m | 0 <= m < |s.lk| && (s'.lk[m] == c || s.lk[m] == c)
      ensures LkOk(s', m)
    {
      InvLk(s, m);
    }
    LocalKeeps(s, s', p, c);
  }

  lemma KillKeeps(s: State, q: nat)
    requires Inv(s) && Enabled(s, Kill(q))
    ensures Inv(Do(s, Kill(q)))
  {
    hide NotLost, Exclusive;
    var s' := Do(s, Kill(q));
    Quiet(s, s', q);
    hide Waits, WillWake;
    assert ProcOk(s, q);
    assert forall r :: 0 <= r < |s.procs| && ProcOk(s, r) ==> ProcOk(s', r);
    assert forall d :: 0 <= d < |s.cpus| && CpuOk(s, d) ==> CpuOk(s', d);
    assert forall l :: 0 <= l < |s.lk| && LkOk(s, l) ==> LkOk(s', l);
  }

  // ---------------------------------------------------------------- taking and freeing a sleep lock

  /** Two processes cannot both hold the spin lock of l. */
  lemma OneHasLk(s: State, p: nat, q: nat, l: nat)
    requires Inv(s) && p < |s.procs| && q < |s.procs| && l < |s.lk| && HasLk(s.procs[p].pc, l)
    requires HasLk(s.procs[q].pc, l)
    ensures p == q
  {
    hide NotLost, Exclusive, LkOk;
    assert ProcOk(s, p) && ProcOk(s, q);
  }

  lemma TestLockedKeeps(s: State, c: nat)
    requires Inv(s) && Enabled(s, TestLocked(c))
    ensures Inv(Do(s, TestLocked(c)))
  {
    hide NotLost, Exclusive;
    assert CpuOk(s, c);
    var s', p, l := Do(s, TestLocked(c)), s.cpus[c].p, Pc0(s, c).l;
    if s.locked[l] {
      Quiet(s, s', p);
    } else {
      Taken(s, s', p, l);
    }
    hide Waits, WillWake;
    assert ProcOk(s, p);
    forall q | 0 <= q < |s.procs| && q != p
      ensures !HasLk(s.procs[q].pc, l)
    {
      if HasLk(s.procs[q].pc, l) {
        OneHasLk(s, p, q, l);
      }
    }
    forall q | 0 <= q < |s.procs|
      ensures ProcOk(s', q)
    {
      assert ProcOk(s, q);
    }
    forall d | 0 <= d < |s.cpus|
      ensures CpuOk(s', d)
    {
      assert CpuOk(s, d);
    }
    forall m | 0 <= m < |s.lk|
      ensures LkOk(s', m)
    {
      assert LkOk(s, m);
    }
  }

  /** A free sleep lock is taken: it was in nobody's hands, and its waiters still have to wait. */
  lemma Taken(s: State, s': State, p0: nat, l0: nat)
    requires Inv(s) && |s'.procs| == |s.procs| && l0 < |s.locked| && !s.locked[l0] && s'.locked == s.locked[l0 := true]
    requires p0 < |s.procs| && s.procs[p0].pc == Test(l0) && s'.procs[p0].pc == Work
    requires s'.procs[p0].holds == s.procs[p0].holds + {l0}
    requires forall p :: 0 <= p < |s.procs| && p != p0 ==> s'.procs[p] == s.procs[p]
    ensures Exclusive(s') && forall p :: 0 <= p < |s.procs| ==> NotLost(s', p)
  {
    hide CpuOk, LkOk;
    forall p, q | 0 <= p < q < |s.procs|
      ensures s'.procs[p].holds !! s'.procs[q].holds
    {
      assert ProcOk(s, p) && ProcOk(s, q);
      assert s.procs[p].holds !! s.procs[q].holds;
    }
    hide ProcOk;
    forall p | 0 <= p < |s.procs|
      ensures NotLost(s', p)
    {
      assert NotLost(s, p);
      forall l | 0 <= l < |s.locked| && Waits(s'.procs[p], l)
        ensures s'.locked[l] || WillWake(s', p, l)
      {
        if !s'.locked[l] {
          var q :| 0 <= q < |s.procs| && q != p && s.procs[q].pc.Waking? && s.procs[q].pc.l == l && s.procs[q].pc.i <= p;
          assert s'.procs[q].pc == s.procs[q].pc;
        }
      }
    }
  }

  /** releasesleep clears lk->locked: every waiter is still before it in the process table. */
  lemma Freed(s: State, s': State, p0: nat, l0: nat)
    requires Inv(s) && |s'.procs| == |s.procs| && l0 < |s.locked| && s'.locked == s.locked[l0 := false]
    requires p0 < |s.procs| && s.procs[p0].pc == RelHave(l0) && s'.procs[p0].pc == Waking(l0, 0)
    requires forall p :: 0 <= p < |s.procs| && p != p0 ==> s'.procs[p] == s.procs[p]
    ensures forall p :: 0 <= p < |s.procs| ==> NotLost(s', p)
  {
    hide CpuOk, LkOk, ProcOk, Exclusive;
    forall p | 0 <= p < |s.procs|
      ensures NotLost(s', p)
    {
      assert NotLost(s, p);
      forall l | 0 <= l < |s.locked| && Waits(s'.procs[p], l)
        ensures s'.locked[l] || WillWake(s', p, l)
      {
        if l == l0 {
          assert s'.procs[p0].pc.Waking? && s'.procs[p0].pc.i <= p && p != p0;
        } else if !s.locked[l] {
          var q :| 0 <= q < |s.procs| && q != p && s.procs[q].pc.Waking? && s.procs[q].pc.l == l && s.procs[q].pc.i <= p;
          assert s'.procs[q].pc == s.procs[q].pc;
        }
      }
    }
  }

  lemma UnlockKeeps(s: State, c: nat)
    requires Inv(s) && Enabled(s, Unlock(c))
    ensures Inv(Do(s, Unlock(c)))
  {
    hide NotLost, Exclusive;
    assert CpuOk(s, c);
    var s', p, l := Do(s, Unlock(c)), s.cpus[c].p, Pc0(s, c).l;
    Freed(s, s', p, l);
    HoldsStay(s, s');
    hide Waits, WillWake;
    assert ProcOk(s, p);
    forall q | 0 <= q < |s.procs| && q != p
      ensures !HasLk(s.procs[q].pc, l) && l !in s.procs[q].holds
    {
      if HasLk(s.procs[q].pc, l) {
        OneHasLk(s, p, q, l);
      }
      OneHolds(s, p, q, l);
    }
    forall q | 0 <= q < |s.procs|
      ensures ProcOk(s', q)
    {
      assert ProcOk(s, q);
    }
    forall d | 0 <= d < |s.cpus|
      ensures CpuOk(s', d)
    {
      assert CpuOk(s, d);
    }
    forall m | 0 <= m < |s.lk|
      ensures LkOk(s', m)
    {
      assert LkOk(s, m);
    }
  }

  lemma OneHolds(s: State, p: nat, q: nat, l: nat)
    requires Exclusive(s) && p < |s.procs| && q < |s.procs| && p != q && l in s.procs[p].holds
    ensures l !in s.procs[q].holds
  {
    if p < q {
      assert s.procs[p].holds !! s.procs[q].holds;
    } else {
      assert s.procs[q].holds !! s.procs[p].holds;
    }
  }

  // ---------------------------------------------------------------- wakeup

  /** When wakeup can take the lock of process i, that process is either asleep, and is woken, or
      not waiting for l at all. */
  lemma Visited(s: State, i: nat, l: nat, p: nat)
    requires Inv(s) && i < |s.procs| && p < |s.procs| && p != i && s.plock[i] == FREE && l < |s.lk|
    requires HasLk(s.procs[p].pc, l)
    ensures !Waits(Wake(s.procs[i], l), l)
  {
    hide NotLost, Exclusive, LkOk, CpuOk;
    assert ProcOk(s, i);
    if HasLk(s.procs[i].pc, l) {
      OneHasLk(s, p, i, l);
    }
  }

  lemma WokenOne(s: State, s': State, p0: nat, l0: nat, i0: nat)
    requires Inv(s) && |s'.procs| == |s.procs| && s'.locked == s.locked && p0 < |s.procs| && i0 < |s.procs|
    requires s.procs[p0].pc == Waking(l0, i0) && s'.procs[p0].pc == Waking(l0, i0 + 1) && l0 < |s.lk|
    requires forall p :: 0 <= p < |s.procs| && p != p0 ==>
      s'.procs[p] == if p == i0 then Wake(s.procs[p], l0) else s.procs[p]
    requires i0 == p0 || s.plock[i0] == FREE
    ensures forall p :: 0 <= p < |s.procs| ==> NotLost(s', p)
  {
    hide CpuOk, LkOk, ProcOk, Exclusive;
    if i0 != p0 {
      Visited(s, i0, l0, p0);
    }
    forall p | 0 <= p < |s.procs|
      ensures NotLost(s', p)
    {
      assert NotLost(s, p);
      forall l | 0 <= l < |s.locked| && Waits(s'.procs[p], l)
        ensures s'.locked[l] || WillWake(s', p, l)
      {
        if !s.locked[l] {
          assert Waits(s.procs[p], l);
          var q :| 0 <= q < |s.procs| && q != p && s.procs[q].pc.Waking? && s.procs[q].pc.l == l && s.procs[q].pc.i <= p;
          assert s'.procs[q].pc.Waking? && s'.procs[q].pc.l == l && s'.procs[q].pc.i <= p;
        }
      }
    }
  }

  lemma WakeOneKeeps(s: State, c: nat)
    requires Inv(s) && Enabled(s, WakeOne(c))
    ensures Inv(Do(s, WakeOne(c)))
  {
    hide NotLost, Exclusive;
    assert CpuOk(s, c);
    var s', p := Do(s, WakeOne(c)), s.cpus[c].p;
    assert ProcOk(s, p);
    WokenOne(s, s', p, Pc0(s, c).l, Pc0(s, c).i);
    HoldsStay(s, s');
    hide Waits, WillWake;
    assert ProcOk(s, Pc0(s, c).i);
    forall q | 0 <= q < |s.procs|
      ensures ProcOk(s', q)
    {
      assert ProcOk(s, q);
    }
    forall d | 0 <= d < |s.cpus|
      ensures CpuOk(s', d)
    {
      assert CpuOk(s, d);
    }
    forall m | 0 <= m < |s.lk|
      ensures LkOk(s', m)
    {
      assert LkOk(s, m);
    }
  }

  /** wakeup has passed everybody: nobody waits for a free lock that it leaves behind. */
  lemma WokenAll(s: State, s': State, p0: nat, l0: nat)
    requires Inv(s) && |s'.procs| == |s.procs| && s'.locked == s.locked && p0 < |s.procs| && l0 < |s.lk|
    requires s.procs[p0].pc == Waking(l0, |s.procs|) && s'.procs[p0].pc == Work
    requires forall p :: 0 <= p < |s.procs| && p != p0 ==> s'.procs[p] == s.procs[p]
    ensures forall p :: 0 <= p < |s.procs| ==> NotLost(s', p)
  {
    hide CpuOk, LkOk, ProcOk, Exclusive;
    forall p | 0 <= p < |s.procs|
      ensures NotLost(s', p)
    {
      assert NotLost(s, p);
      forall l | 0 <= l < |s.locked| && Waits(s'.procs[p], l)
        ensures s'.locked[l] || WillWake(s', p, l)
      {
        if !s.locked[l] {
          var q :| 0 <= q < |s.procs| && q != p && s.procs[q].pc.Waking? && s.procs[q].pc.l == l && s.procs[q].pc.i <= p;
          assert s'.procs[q].pc == s.procs[q].pc;
        }
      }
    }
  }

  lemma WakeDoneKeeps(s: State, c: nat)
    requires Inv(s) && Enabled(s, WakeDone(c))
    ensures Inv(Do(s, WakeDone(c)))
  {
    hide NotLost, Exclusive;
    assert CpuOk(s, c);
    var s', p := Do(s, WakeDone(c)), s.cpus[c].p;
    WokenAll(s, s', p, Pc0(s, c).l);
    HoldsStay(s, s');
    hide Waits, WillWake;
    assert ProcOk(s, p);
    forall q | 0 <= q < |s.procs|
      ensures ProcOk(s', q)
    {
      assert ProcOk(s, q);
    }
    forall d | 0 <= d < |s.cpus|
      ensures CpuOk(s', d)
    {
      assert CpuOk(s, d);
    }
    forall m | 0 <= m < |s.lk|
      ensures LkOk(s', m)
    {
      assert LkOk(s, m);
    }
  }


  lemma StepKeeps(s: State, a: Step)
    requires Inv(s) && Enabled(s, a)
    ensures Inv(Do(s, a))
  {
    hide Inv, Enabled, Do;
    match a
    case TestLocked(c) => TestLockedKeeps(s, c);
    case Unlock(c) => UnlockKeeps(s, c);
    case WakeOne(c) => WakeOneKeeps(s, c);
    case WakeDone(c) => WakeDoneKeeps(s, c);
    case Kill(q) => KillKeeps(s, q);
    case Dispatch(c, p) => DispatchKeeps(s, c, p);
    case BackRelease(c) => BackReleaseKeeps(s, c);
    case Resume(c) => ResumeKeeps(s, c);
    case AcquireLk(c, l) => AcquireLkKeeps(s, c, l);
    case SleepTakeP(c) => SleepTakePKeeps(s, c);
    case SleepDropLk(c) => SleepDropLkKeeps(s, c);
    case SleepMark(c) => SleepMarkKeeps(s, c);
    case Swtch(c) => SwtchKeeps(s, c);
    case ReleaseSleep(c, l) => ReleaseSleepKeeps(s, c, l);
    case Yield(c) => YieldKeeps(s, c);
  }

  // ---------------------------------------------------------------- runs

  ghost predicate IsRun(ss: seq<State>, steps: seq<Step>) {
    && |ss| == |steps| + 1 && Init(ss[0])
    && forall i :: 0 <= i < |steps| ==> Enabled(ss[i], steps[i]) && ss[i + 1] == Do(ss[i], steps[i])
  }

  lemma {:induction false} RunInv(ss: seq<State>, steps: seq<Step>, i: nat)
    requires IsRun(ss, steps) && i < |ss|
    ensures Inv(ss[i])
  {
    hide Inv, Enabled, Do, Init;
    if i == 0 {
      InitInv(ss[0]);
    } else {
      RunInv(ss, steps, i - 1);
      StepKeeps(ss[i - 1], steps[i - 1]);
    }
  }

  /** No lost wakeup: when a sleep lock is free and nobody is inside its critical sections, no
      process waits for it, whatever the interleaving was. */
  lemma NoLostWakeup(ss: seq<State>, steps: seq<Step>, i: nat, l: nat, p: nat)
    requires IsRun(ss, steps) && i < |ss| && l < |ss[i].lk| == |ss[i].locked| && p < |ss[i].procs|
    requires !ss[i].locked[l] && ss[i].lk[l] == FREE
    ensures !Waits(ss[i].procs[p], l)
  {
    hide Enabled, Do, Init, CpuOk, Exclusive, LkOk;
    RunInv(ss, steps, i);
    var s := ss[i];
    assert NotLost(s, p);
    forall q | 0 <= q < |s.procs|
      ensures !(s.procs[q].pc.Waking? && s.procs[q].pc.l == l)
    {
      assert ProcOk(s, q);
    }
  }

  /** Every process that is waiting for l when wakeup(l) gets its lock is asleep on l. */
  lemma SeenSleeping(ss: seq<State>, steps: seq<Step>, i: nat, c: nat)
    requires IsRun(ss, steps) && i < |ss| && Enabled(ss[i], WakeOne(c)) && Pc0(ss[i], c).i != ss[i].cpus[c].p
    ensures var l, x := Pc0(ss[i], c).l, ss[i].procs[Pc0(ss[i], c).i];
      Waits(x, l) ==> x.mode == Sleeping && x.chan == l && x.on == FREE
  {
    hide Do, Init, Exclusive, NotLost, LkOk;
    RunInv(ss, steps, i);
    var s := ss[i];
    var p, q := s.cpus[c].p, Pc0(s, c).i;
    assert CpuOk(s, c);
    assert ProcOk(s, p) && ProcOk(s, q);
    if HasLk(s.procs[q].pc, Pc0(s, c).l) {
      OneHasLk(s, p, q, Pc0(s, c).l);
    }
  }

  /** A process is on one CPU at most, and the scheduler picks it only when its context is saved. */
  lemma OneCpu(ss: seq<State>, steps: seq<Step>, i: nat, c: nat, d: nat)
    requires IsRun(ss, steps) && i < |ss| && c < |ss[i].cpus| && d < |ss[i].cpus| && c != d
    requires !ss[i].cpus[c].Idle? && !ss[i].cpus[d].Idle?
    ensures ss[i].cpus[c].p != ss[i].cpus[d].p
  {
    hide Enabled, Do, Init, Exclusive, NotLost, LkOk;
    RunInv(ss, steps, i);
    var s := ss[i];
    assert CpuOk(s, c) && CpuOk(s, d);
  }

  lemma PickedIsSaved(ss: seq<State>, steps: seq<Step>, i: nat, c: nat, p: nat)
    requires IsRun(ss, steps) && i < |ss| && Enabled(ss[i], Dispatch(c, p))
    ensures Saved(ss[i].procs[p].pc) && forall d :: 0 <= d < |ss[i].cpus| ==>
      ss[i].cpus[d] != Run(p) && ss[i].cpus[d] != Back(p)
  {
    hide Do, Init, Exclusive, NotLost, LkOk;
    RunInv(ss, steps, i);
    var s := ss[i];
    assert ProcOk(s, p);
    forall d | 0 <= d < |s.cpus|
      ensures s.cpus[d] != Run(p) && s.cpus[d] != Back(p)
    {
      assert CpuOk(s, d);
    }
  }

  /** Mutual exclusion of sleep locks: two processes never both have the same one, and a lock that
      somebody has is marked locked. */
  lemma SleepLockExclusive(ss: seq<State>, steps: seq<Step>, i: nat, p: nat, q: nat, l: nat)
    requires IsRun(ss, steps) && i < |ss| && p < |ss[i].procs| && q < |ss[i].procs|
    requires l in ss[i].procs[p].holds && l in ss[i].procs[q].holds
    ensures p == q && l < |ss[i].locked| && ss[i].locked[l]
  {
    hide Enabled, Do, Init, CpuOk, NotLost, LkOk;
    RunInv(ss, steps, i);
    assert ProcOk(ss[i], p);
    if p != q {
      OneHolds(ss[i], p, q, l);
    }
  }
}
