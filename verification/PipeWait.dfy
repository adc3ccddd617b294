/** Who waits for a pipe and who wakes them: piperead, pipewrite, pipeclose and kill as steps of any
    number of processes. pi->lock is held from one wait to the next, so a step is one turn of a
    loop under the lock. That sleep() gives up the lock and begins to wait at once, as far as a
    wakeup under the same lock can tell, is what `SleepWakeup` proves. */
module PipeWait {
  import opened Pipe

  const FREE: int := -1

  /** Where a process is, in a call that is to read or write n bytes, of which i are done. */
  datatype Pc =
    | Out
    | ReadWant(n: nat)             // at acquire(&pi->lock), first or in sleep()
    | ReadTest(n: nat)             // at the test for an empty pipe
    | ReadPark(n: nat)             // after the test of killed, at sleep()
    | ReadSleep(n: nat)            // asleep on &pi->nread
    | ReadCopy(i: nat, n: nat)     // in the copying loop
    | ReadWake                     // at wakeup(&pi->nwrite)
    | WriteWant(i: nat, n: nat)    // at acquire(&pi->lock), first or in sleep()
    | WriteTest(i: nat, n: nat)    // at the head of the loop
    | WritePark(i: nat, n: nat)    // after wakeup(&pi->nread), at sleep()
    | WriteSleep(i: nat, n: nat)   // asleep on &pi->nwrite
    | WriteWake                    // at the last wakeup(&pi->nread)

  datatype Proc = Proc(pc: Pc, killed: bool)

  /** `holder` has pi->lock; `count` bytes are in the pipe. */
  datatype State = State(procs: seq<Proc>, holder: int, count: nat, readopen: bool, writeopen: bool)

  /** ok says whether copyin or copyout works, in the steps that use them. */
  datatype Step =
    | ReadCall(p: nat, n: nat)
    | WriteCall(p: nat, n: nat)
    | Lock(p: nat)
    | Act(p: nat, ok: bool)
    | CloseRead
    | CloseWrite
    | Kill(p: nat)

  predicate InRead(pc: Pc) {
    pc.ReadWant? || pc.ReadTest? || pc.ReadPark? || pc.ReadSleep? || pc.ReadCopy? || pc.ReadWake?
  }

  predicate InWrite(pc: Pc) {
    pc.WriteWant? || pc.WriteTest? || pc.WritePark? || pc.WriteSleep? || pc.WriteWake?
  }

  /** About to sleep, and past the last test of killed. */
  predicate Parks(pc: Pc) {
    pc.ReadPark? || pc.WritePark?
  }

  predicate Sleeps(pc: Pc) {
    pc.ReadSleep? || pc.WriteSleep?
  }

  predicate HasLock(pc: Pc) {
    pc.ReadTest? || pc.ReadCopy? || pc.ReadWake? || pc.WriteTest? || pc.WriteWake? || Parks(pc)
  }

  /** An end is closed when no descriptor is left, so not during a call on it. */
  predicate Enabled(s: State, a: Step) {
    match a
    case ReadCall(p, _) => p < |s.procs| && s.procs[p].pc.Out? && s.readopen
    case WriteCall(p, _) => p < |s.procs| && s.procs[p].pc.Out? && s.writeopen
    case Lock(p) => p < |s.procs| && (s.procs[p].pc.ReadWant? || s.procs[p].pc.WriteWant?) && s.holder == FREE
    case Act(p, _) => p < |s.procs| && HasLock(s.procs[p].pc)
    case CloseRead => s.readopen && s.holder == FREE && forall p :: 0 <= p < |s.procs| ==> !InRead(s.procs[p].pc)
    case CloseWrite => s.writeopen && s.holder == FREE && forall p :: 0 <= p < |s.procs| ==> !InWrite(s.procs[p].pc)
    case Kill(p) => p < |s.procs|
  }

  function At(s: State, p: nat, pc: Pc): State
    requires p < |s.procs|
  {
    s.(procs := s.procs[p := s.procs[p].(pc := pc)])
  }

  /** Process p gives up the lock. */
  function Leave(s: State, p: nat, pc: Pc): State
    requires p < |s.procs|
  {
    At(s, p, pc).(holder := FREE)
  }

  /** Out of sleep(), to the acquire. */
  function Awake(pc: Pc): Pc {
    match pc
    case ReadSleep(n) => ReadWant(n)
    case WriteSleep(i, n) => WriteWant(i, n)
    case _ => pc
  }

  /** wakeup(&pi->nread) and wakeup(&pi->nwrite). */
  function WakeReaders(s: State): (r: State)
    ensures |r.procs| == |s.procs|
  {
    s.(procs := seq(|s.procs|, p requires 0 <= p < |s.procs| =>
         if s.procs[p].pc.ReadSleep? then s.procs[p].(pc := Awake(s.procs[p].pc)) else s.procs[p]))
  }

  function WakeWriters(s: State): (r: State)
    ensures |r.procs| == |s.procs|
  {
    s.(procs := seq(|s.procs|, p requires 0 <= p < |s.procs| =>
         if s.procs[p].pc.WriteSleep? then s.procs[p].(pc := Awake(s.procs[p].pc)) else s.procs[p]))
  }

  /** A turn of piperead, or of pipewrite, by the holder of the lock. */
  function Turn(s: State, p: nat, ok: bool): State
    requires p < |s.procs| && HasLock(s.procs[p].pc)
  {
    var killed := s.procs[p].killed;
    match s.procs[p].pc
    case ReadTest(n) =>
      if s.count > 0 || !s.writeopen then At(s, p, ReadCopy(0, n))
      else if killed then Leave(s, p, Out)
      else At(s, p, ReadPark(n))
    case ReadPark(n) => Leave(s, p, ReadSleep(n))
    case ReadCopy(i, n) =>
      if i >= n || s.count == 0 then At(s, p, ReadWake)
      else At(s, p, if ok then ReadCopy(i + 1, n) else ReadWake).(count := s.count - 1)
    case ReadWake => Leave(WakeWriters(s), p, Out)
    case WriteTest(i, n) =>
      if i >= n then At(s, p, WriteWake)
      else if !s.readopen || killed then Leave(s, p, Out)
      else if s.count == PIPESIZE then At(WakeReaders(s), p, WritePark(i, n))
      else if !ok then At(s, p, WriteWake)
      else At(s, p, WriteTest(i + 1, n)).(count := s.count + 1)
    case WritePark(i, n) => Leave(s, p, WriteSleep(i, n))
    case WriteWake => Leave(WakeReaders(s), p, Out)
  }

  function Do(s: State, a: Step): State
    requires Enabled(s, a)
  {
    match a
    case ReadCall(p, n) => At(s, p, ReadWant(n))
    case WriteCall(p, n) => At(s, p, WriteWant(0, n))
    case Lock(p) =>
      var pc := s.procs[p].pc;
      At(s, p, if pc.ReadWant? then ReadTest(pc.n) else WriteTest(pc.i, pc.n)).(holder := p)
    case Act(p, ok) => Turn(s, p, ok)
    case CloseRead => WakeWriters(s).(readopen := false)
    case CloseWrite => WakeReaders(s).(writeopen := false)
    case Kill(p) => s.(procs := s.procs[p := Proc(Awake(s.procs[p].pc), true)])
  }

  // ---------------------------------------------------------------- the invariant

  ghost predicate Owned(s: State) {
    && s.count <= PIPESIZE
    && (forall p :: 0 <= p < |s.procs| ==> (HasLock(s.procs[p].pc) <==> s.holder == p))
    && (s.holder == FREE || 0 <= s.holder < |s.procs|)
    && (forall p :: 0 <= p < |s.procs| ==>
          && (InRead(s.procs[p].pc) ==> s.readopen) && (InWrite(s.procs[p].pc) ==> s.writeopen)
          && (s.procs[p].pc.ReadPark? ==> s.count == 0 && s.writeopen)
          && (s.procs[p].pc.WritePark? ==> s.count == PIPESIZE && s.readopen))
  }

  predicate Reading(s: State) {
    0 <= s.holder < |s.procs| && (s.procs[s.holder].pc.ReadCopy? || s.procs[s.holder].pc.ReadWake?)
  }

  predicate Writing(s: State) {
    0 <= s.holder < |s.procs| && (s.procs[s.holder].pc.WriteTest? || s.procs[s.holder].pc.WriteWake?)
  }

  /** A writer sleeps only while the pipe is full and can be read, or while a reader has the lock that
      will wake it. */
  ghost predicate WritersOk(s: State) {
    forall p :: 0 <= p < |s.procs| && s.procs[p].pc.WriteSleep? ==> (s.count == PIPESIZE && s.readopen) || Reading(s)
  }

  /** The same for readers, with the writers' part left to the condition below. */
  ghost predicate ReadersOk(s: State) {
    forall p :: 0 <= p < |s.procs| && s.procs[p].pc.ReadSleep? ==> (s.count == 0 && s.writeopen) || Writing(s)
  }

  ghost predicate Inv(s: State) {
    Owned(s) && WritersOk(s)
  }

  ghost predicate Init(s: State) {
    && s.holder == FREE && s.count == 0 && s.readopen && s.writeopen
    && forall p :: 0 <= p < |s.procs| ==> s.procs[p].pc.Out?
  }

  /** A reader sleeps although it could read, or would be told that the pipe has ended, and nobody has
      the lock. */
  ghost predicate Stuck(s: State) {
    s.holder == FREE && !(s.count == 0 && s.writeopen) && exists p :: 0 <= p < |s.procs| && s.procs[p].pc.ReadSleep?
  }

  /** A writer finds that it has been killed, when there are bytes in the pipe and a reader sleeps. */
  ghost predicate KilledExit(s: State, a: Step) {
    && a.Act? && a.p < |s.procs| && s.procs[a.p].pc.WriteTest? && s.procs[a.p].pc.i < s.procs[a.p].pc.n
    && s.procs[a.p].killed && s.count > 0 && exists q :: 0 <= q < |s.procs| && s.procs[q].pc.ReadSleep?
  }

  /** All that a turn does to another process is to wake it. */
  lemma TurnOthers(s: State, p: nat, ok: bool)
    requires p < |s.procs| && HasLock(s.procs[p].pc)
    ensures var s' := Turn(s, p, ok);
      && |s'.procs| == |s.procs| && s'.procs[p].killed == s.procs[p].killed
      && forall q :: 0 <= q < |s.procs| && q != p ==>
           s'.procs[q] == s.procs[q] || s'.procs[q] == s.procs[q].(pc := Awake(s.procs[q].pc))
  {
  }

  lemma TurnSelf(s: State, p: nat, ok: bool)
    requires Owned(s) && p < |s.procs| && HasLock(s.procs[p].pc) && |Turn(s, p, ok).procs| == |s.procs|
    ensures var s' := Turn(s, p, ok);
      var pc := s'.procs[p].pc;
      && s'.count <= PIPESIZE && s'.readopen == s.readopen && s'.writeopen == s.writeopen
      && s'.holder == (if HasLock(pc) then p else FREE)
      && (InRead(pc) ==> s.readopen) && (InWrite(pc) ==> s.writeopen)
      && (pc.ReadPark? ==> s'.count == 0 && s.writeopen) && (pc.WritePark? ==> s'.count == PIPESIZE && s.readopen)
      && (Sleeps(pc) ==> Parks(s.procs[p].pc))
  {
    assert s.holder == p;
  }

  lemma TurnOwned(s: State, p: nat, ok: bool)
    requires Owned(s) && p < |s.procs| && HasLock(s.procs[p].pc)
    ensures Owned(Turn(s, p, ok))
  {
    hide Turn;
    TurnOthers(s, p, ok);
    TurnSelf(s, p, ok);
    var s' := Turn(s, p, ok);
    forall q | 0 <= q < |s.procs| && q != p
      ensures !HasLock(s'.procs[q].pc) && (InRead(s'.procs[q].pc) ==> s.readopen) && (InWrite(s'.procs[q].pc) ==> s.writeopen)
    {
      assert s.holder == p;
    }
  }

  lemma TurnWriters(s: State, p: nat, ok: bool)
    requires Inv(s) && p < |s.procs| && HasLock(s.procs[p].pc)
    ensures WritersOk(Turn(s, p, ok))
  {
  }

  lemma StepKeeps(s: State, a: Step)
    requires Inv(s) && Enabled(s, a)
    ensures Inv(Do(s, a))
  {
    if a.Act? {
      TurnOwned(s, a.p, a.ok);
      TurnWriters(s, a.p, a.ok);
    } else {
      OthersOwned(s, a);
      OthersWriters(s, a);
    }
  }

  lemma OthersOwned(s: State, a: Step)
    requires Owned(s) && Enabled(s, a) && !a.Act?
    ensures Owned(Do(s, a))
  {
    hide Turn;
  }

  lemma OthersWriters(s: State, a: Step)
    requires Inv(s) && Enabled(s, a) && !a.Act?
    ensures WritersOk(Do(s, a))
  {
    hide Turn;
  }

  lemma ReadersKept(s: State, a: Step)
    requires Inv(s) && Enabled(s, a) && ReadersOk(s) && !KilledExit(s, a)
    ensures ReadersOk(Do(s, a))
  {
    hide Turn;
    if a.Act? {
      TurnReaders(s, a.p, a.ok);
    }
  }

  lemma TurnReaders(s: State, p: nat, ok: bool)
    requires Inv(s) && p < |s.procs| && HasLock(s.procs[p].pc) && ReadersOk(s) && !KilledExit(s, Act(p, ok))
    ensures ReadersOk(Turn(s, p, ok))
  {
  }

  /** The writer leaves without a wakeup, and the reader sleeps on. */
  lemma KilledExitLoses(s: State, a: Step)
    requires Inv(s) && Enabled(s, a) && KilledExit(s, a)
    ensures Stuck(Do(s, a))
  {
    var q :| 0 <= q < |s.procs| && s.procs[q].pc.ReadSleep?;
    assert Do(s, a).procs[q] == s.procs[q];
  }

  // ---------------------------------------------------------------- runs

  ghost predicate Run(ss: seq<State>, steps: seq<Step>) {
    && |ss| == |steps| + 1 && Init(ss[0])
    && forall k :: 0 <= k < |steps| ==> Enabled(ss[k], steps[k]) && ss[k + 1] == Do(ss[k], steps[k])
  }

  lemma {:induction false} RunInv(ss: seq<State>, steps: seq<Step>, k: nat)
    requires Run(ss, steps) && k < |ss|
    ensures Inv(ss[k])
  {
    hide Inv, Do, Enabled;
    if k == 0 {
      InitInv(ss[0]);
    } else {
      RunInv(ss, steps, k - 1);
      StepKeeps(ss[k - 1], steps[k - 1]);
    }
  }

  lemma InitInv(s: State)
    requires Init(s)
    ensures Inv(s) && ReadersOk(s)
  {
  }

  /** In every run, whenever nobody has the lock, a writer sleeps only if the pipe is full and somebody
      can still read it. */
  lemma WritersNotLost(ss: seq<State>, steps: seq<Step>, k: nat, p: nat)
    requires Run(ss, steps) && k < |ss| && p < |ss[k].procs| && ss[k].holder == FREE && ss[k].procs[p].pc.WriteSleep?
    ensures ss[k].count == PIPESIZE && ss[k].readopen
  {
    hide Do, Enabled;
    RunInv(ss, steps, k);
  }

  predicate WakesReaders(s: State, a: Step) {
    || a.CloseWrite?
    || (a.Act? && a.p < |s.procs| && s.procs[a.p].pc.WriteWake?)
    || (a.Act? && a.p < |s.procs| && s.procs[a.p].pc.WriteTest? && s.procs[a.p].pc.i < s.procs[a.p].pc.n
        && s.readopen && !s.procs[a.p].killed && s.count == PIPESIZE)
  }

  /** A wakeup makes up for what was lost before. */
  lemma WakeRepairs(s: State, a: Step)
    requires Inv(s) && Enabled(s, a) && WakesReaders(s, a)
    ensures ReadersOk(Do(s, a))
  {
  }

  /** Since step j, at which a killed writer left, nobody has called wakeup(&pi->nread). */
  ghost predicate LostAt(ss: seq<State>, steps: seq<Step>, j: nat, k: nat)
    requires |ss| == |steps| + 1
  {
    j < k <= |steps| && KilledExit(ss[j], steps[j]) && forall m :: j < m < k ==> !WakesReaders(ss[m], steps[m])
  }

  lemma {:induction false} OkOrLost(ss: seq<State>, steps: seq<Step>, k: nat)
    requires Run(ss, steps) && k < |ss|
    ensures ReadersOk(ss[k]) || exists j :: LostAt(ss, steps, j, k)
  {
    hide Inv, Do, Enabled, ReadersOk, KilledExit, WakesReaders, Init;
    if k == 0 {
      InitInv(ss[0]);
    } else {
      OkOrLost(ss, steps, k - 1);
      RunInv(ss, steps, k - 1);
      var s, a := ss[k - 1], steps[k - 1];
      if KilledExit(s, a) {
        assert LostAt(ss, steps, k - 1, k);
      } else if WakesReaders(s, a) {
        WakeRepairs(s, a);
      } else if ReadersOk(s) {
        ReadersKept(s, a);
      } else {
        var j :| LostAt(ss, steps, j, k - 1);
        assert LostAt(ss, steps, j, k);
      }
    }
  }

  /** A reader is stuck only after a killed writer left so, and until the next wakeup. */
  lemma LostSince(ss: seq<State>, steps: seq<Step>, k: nat)
    requires Run(ss, steps) && k < |ss| && Stuck(ss[k])
    ensures exists j :: LostAt(ss, steps, j, k)
  {
    hide Do, Enabled, Init, LostAt;
    OkOrLost(ss, steps, k);
  }

  /** Readers are never stuck in a run, if and only if no writer leaves so. */
  lemma LostExactly(ss: seq<State>, steps: seq<Step>)
    requires Run(ss, steps)
    ensures (forall k :: 0 <= k < |ss| ==> !Stuck(ss[k]))
      <==> forall j :: 0 <= j < |steps| ==> !KilledExit(ss[j], steps[j])
  {
    hide Do, Enabled, Init, Stuck, KilledExit, Inv;
    if j :| 0 <= j < |steps| && KilledExit(ss[j], steps[j]) {
      RunInv(ss, steps, j);
      KilledExitLoses(ss[j], steps[j]);
      assert Stuck(ss[j + 1]);
    }
    if k :| 0 <= k < |ss| && Stuck(ss[k]) {
      LostSince(ss, steps, k);
      var j: nat :| LostAt(ss, steps, j, k);
      assert KilledExit(ss[j], steps[j]);
    }
  }

  // ---------------------------------------------------------------- kill

  /** A process sleeps although it has been killed. */
  ghost predicate KilledSleeps(s: State) {
    exists p :: 0 <= p < |s.procs| && Sleeps(s.procs[p].pc) && s.procs[p].killed
  }

  /** A process goes to sleep that was killed after it had tested for that. */
  predicate MissedKill(s: State, a: Step) {
    a.Act? && a.p < |s.procs| && Parks(s.procs[a.p].pc) && s.procs[a.p].killed
  }

  lemma KillSeen(s: State, a: Step)
    requires Inv(s) && Enabled(s, a)
    ensures MissedKill(s, a) ==> KilledSleeps(Do(s, a))
    ensures !KilledSleeps(s) && !MissedKill(s, a) ==> !KilledSleeps(Do(s, a))
  {
    hide Do, Enabled, Owned;
    if MissedKill(s, a) {
      FallsAsleep(s, a);
      assert Sleeps(Do(s, a).procs[a.p].pc);
    } else {
      SameNumber(s, a);
      if p :| 0 <= p < |s.procs| && Sleeps(Do(s, a).procs[p].pc) && Do(s, a).procs[p].killed {
        SleptBefore(s, a, p);
      }
    }
  }

  lemma SameNumber(s: State, a: Step)
    requires Enabled(s, a)
    ensures |Do(s, a).procs| == |s.procs|
  {
    hide Turn;
    if a.Act? {
      TurnOthers(s, a.p, a.ok);
    }
  }

  lemma FallsAsleep(s: State, a: Step)
    requires Enabled(s, a) && MissedKill(s, a)
    ensures var s' := Do(s, a);
      |s'.procs| == |s.procs| && Sleeps(s'.procs[a.p].pc) && s'.procs[a.p].killed
  {
  }

  lemma SleptBefore(s: State, a: Step, p: nat)
    requires Owned(s) && Enabled(s, a) && !MissedKill(s, a) && p < |s.procs| == |Do(s, a).procs|
    requires Sleeps(Do(s, a).procs[p].pc) && Do(s, a).procs[p].killed
    ensures Sleeps(s.procs[p].pc) && s.procs[p].killed
  {
    hide Turn, Owned;
    if a.Act? {
      TurnOthers(s, a.p, a.ok);
      TurnSelf(s, a.p, a.ok);
    }
  }

  /** A killed process is woken and does not sleep again, in exactly the runs in which no kill comes
      between its test of killed and its sleep. */
  lemma KilledAwake(ss: seq<State>, steps: seq<Step>)
    requires Run(ss, steps)
    ensures (forall k :: 0 <= k < |ss| ==> !KilledSleeps(ss[k]))
      <==> forall j :: 0 <= j < |steps| ==> !MissedKill(ss[j], steps[j])
  {
    hide Do, Enabled, Inv, KilledSleeps, MissedKill;
    if j :| 0 <= j < |steps| && MissedKill(ss[j], steps[j]) {
      RunInv(ss, steps, j);
      KillSeen(ss[j], steps[j]);
      assert KilledSleeps(ss[j + 1]);
    } else {
      forall k | 0 <= k < |ss|
        ensures !KilledSleeps(ss[k])
      {
        NoneMissed(ss, steps, k);
      }
    }
  }

  lemma {:induction false} NoneMissed(ss: seq<State>, steps: seq<Step>, k: nat)
    requires Run(ss, steps) && k < |ss| && forall j :: 0 <= j < |steps| ==> !MissedKill(ss[j], steps[j])
    ensures !KilledSleeps(ss[k])
  {
    if k > 0 {
      hide Do, Enabled, Inv, KilledSleeps, MissedKill, Init, Sleeps;
      NoneMissed(ss, steps, k - 1);
      RunInv(ss, steps, k - 1);
      KillSeen(ss[k - 1], steps[k - 1]);
    }
  }

  // ---------------------------------------------------------------- an example

  /** A reader waits for a byte; a writer puts the first of two, and is killed before the second. */
  function Example(): seq<Step> {
    [ReadCall(0, 1), Lock(0), Act(0, true), Act(0, true), WriteCall(1, 2), Lock(1), Act(1, true), Kill(1), Act(1, true)]
  }

  lemma ReaderSleeps(s: State)
    requires Init(s) && |s.procs| >= 2 && !s.procs[0].killed
    ensures Enabled(s, ReadCall(0, 1)) && Enabled(Do(s, ReadCall(0, 1)), Lock(0))
    ensures var s2 := Do(Do(s, ReadCall(0, 1)), Lock(0));
      && Enabled(s2, Act(0, true)) && Enabled(Do(s2, Act(0, true)), Act(0, true))
      && Do(Do(s2, Act(0, true)), Act(0, true)) == s.(procs := s.procs[0 := Proc(ReadSleep(1), false)])
  {
    var s2 := Do(Do(s, ReadCall(0, 1)), Lock(0));
    assert s2 == s.(procs := s.procs[0 := Proc(ReadTest(1), false)], holder := 0);
    assert Do(s2, Act(0, true)) == s.(procs := s.procs[0 := Proc(ReadPark(1), false)], holder := 0);
  }

  lemma WriterPuts(s: State)
    requires |s.procs| >= 2 && s.procs[1] == Proc(Out, false)
    requires s.holder == FREE && s.count == 0 && s.readopen && s.writeopen
    ensures Enabled(s, WriteCall(1, 2)) && Enabled(Do(s, WriteCall(1, 2)), Lock(1))
    ensures var s2 := Do(Do(s, WriteCall(1, 2)), Lock(1));
      && Enabled(s2, Act(1, true))
      && Do(s2, Act(1, true)) == s.(procs := s.procs[1 := Proc(WriteTest(1, 2), false)], holder := 1, count := 1)
  {
    var s2 := Do(Do(s, WriteCall(1, 2)), Lock(1));
    assert s2 == s.(procs := s.procs[1 := Proc(WriteTest(0, 2), false)], holder := 1);
  }

  /** Every pipe that two processes use can come to that. */
  lemma LostRun(s: State)
    requires Init(s) && |s.procs| >= 2 && !s.procs[0].killed && !s.procs[1].killed
    ensures exists ss: seq<State> :: Run(ss, Example()) && ss[0] == s && Stuck(ss[9])
  {
    ReaderSleeps(s);
    var s1 := Do(s, ReadCall(0, 1));
    var s2 := Do(s1, Lock(0));
    var s3 := Do(s2, Act(0, true));
    var s4 := Do(s3, Act(0, true));
    WriterPuts(s4);
    var s5 := Do(s4, WriteCall(1, 2));
    var s6 := Do(s5, Lock(1));
    var s7 := Do(s6, Act(1, true));
    var s8 := Do(s7, Kill(1));
    assert s8 == s7.(procs := s7.procs[1 := Proc(WriteTest(1, 2), true)]);
    var s9 := Do(s8, Act(1, true));
    assert s9.procs[0].pc.ReadSleep?;
    hide Do, Enabled;
    var ss := [s, s1, s2, s3, s4, s5, s6, s7, s8, s9];
    assert Run(ss, Example());
  }
}
