/** What wait returns, told by the steps of a run: the status of each exit reaches wait unchanged,
    and wait returns nothing else. */
module ExitRuns {
  import opened ExitWait

  // ---------------------------------------------------------------- where a status is

  /** The process with pid x is on its way out with status st. */
  ghost predicate Leaving(s: State, x: nat, st: int) {
    exists q :: 0 <= q < |s.slots| && s.slots[q].life == Live && s.slots[q].pid == x
      && s.slots[q].pc.Exiting? && s.slots[q].pc.status == st
  }

  /** It is a zombie with that status. */
  ghost predicate Waits(s: State, x: nat, st: int) {
    exists q :: 0 <= q < |s.slots| && s.slots[q].life == Zombie && s.slots[q].pid == x && s.slots[q].xstate == st
  }

  /** wait has returned it with that status. */
  ghost predicate Told(s: State, x: nat, st: int) {
    exists j :: 0 <= j < |s.reaped| && s.reaped[j].pid == x && s.reaped[j].status == st
  }

  ghost predicate Ended(s: State, x: nat, st: int) {
    Leaving(s, x, st) || Waits(s, x, st) || Told(s, x, st)
  }

  /** Step a is the exit of the process with pid x, with status st. */
  predicate ExitOf(s: State, a: Step, x: nat, st: int) {
    a.Exit? && a.p < |s.slots| && s.slots[a.p].pid == x && a.status == st
  }

  // ---------------------------------------------------------------- one step

  lemma ExitEnds(s: State, a: Step, x: nat, st: int)
    requires Enabled(s, a) && ExitOf(s, a, x, st)
    ensures Leaving(Do(s, a), x, st)
  {
    var s' := Do(s, a);
    assert s'.slots[a.p].pc == Exiting(0, st);
  }

  /** The process is past exit. */
  predicate Past(x: Slot) {
    (x.life == Live && x.pc.Exiting?) || x.life == Zombie
  }

  /** fork does nothing to it. */
  lemma ForkOthers(s: State, a: Step, q: nat)
    requires Inv(s) && Enabled(s, a) && (a.Alloc? || a.ForkFail? || a.Link? || a.Start?) && q < |s.slots| == |Do(s, a).slots|
    ensures Past(s.slots[q]) || Past(Do(s, a).slots[q]) ==> Do(s, a).slots[q] == s.slots[q]
  {
    hide History, Pids, ParentOk, Rid;
    assert SlotOk(s, q) && SlotOk(s, a.p);
  }

  predicate WaitTurn(a: Step) {
    a.DropWaitLock? || a.Wait? || a.WaitFault? || a.WaitNone? || a.Doze? || a.Rouse? || a.Rescan?
  }

  /** Nor does wait, until it reaps it. */
  lemma WaitOthers(s: State, a: Step, q: nat)
    requires Inv(s) && Enabled(s, a) && WaitTurn(a) && q < |s.slots| == |Do(s, a).slots|
    ensures Past(s.slots[q]) || Past(Do(s, a).slots[q]) ==> Do(s, a).slots[q] == s.slots[q]
  {
    hide History, Pids, ParentOk, Rid, Finds, Ripe;
    assert SlotOk(s, q) && SlotOk(s, a.p);
  }

  /** What step a may make of slot q when its process is past exit, before or after. */
  ghost predicate PastTurn(x: Slot, y: Slot, a: Step, q: nat) {
    && (a.Exit? && a.p == q ==> y == x.(pc := Exiting(0, a.status)))
    && (a == Die(q) ==> x.pc.Exiting? && y == x.(life := Zombie, xstate := x.pc.status, pc := Gone))
    && (a.Reap? && a.c == q ==> y == FreeSlot())
    && ((Past(x) || Past(y)) && !(a.Exit? && a.p == q) && a != Die(q) && !(a.Reap? && a.c == q) ==>
          && y == x.(pc := y.pc, parent := y.parent)
          && if x.pc.Exiting? then y.pc.Exiting? && y.pc.status == x.pc.status else y.pc == x.pc)
  }

  /** What the other steps do to it. */
  lemma ExitOthers(s: State, a: Step, q: nat)
    requires Inv(s) && Enabled(s, a) && q < |s.slots| == |Do(s, a).slots|
    requires a.Exit? || a.Reparent? || a.WakeParent? || a.Die? || a.Reap?
    ensures PastTurn(s.slots[q], Do(s, a).slots[q], a, q)
  {
    hide History, Pids, ParentOk, Rid;
    assert SlotOk(s, q);
    if a.Reparent? {
      Reparented(s, a.p, q);
    }
  }

  /** What one step does to a slot whose process is past exit. */
  lemma LeavingForward(s: State, a: Step, q: nat)
    requires Inv(s) && Enabled(s, a) && q < |s.slots| && s.slots[q].life == Live && s.slots[q].pc.Exiting?
    ensures var s', x := Do(s, a), s.slots[q];
      && |s'.slots| == |s.slots| && s'.slots[q].pid == x.pid
      && if a == Die(q) then s'.slots[q].life == Zombie && s'.slots[q].xstate == x.pc.status
         else s'.slots[q].life == Live && s'.slots[q].pc.Exiting? && s'.slots[q].pc.status == x.pc.status
  {
    hide Inv, Do, Enabled;
    Others(s, a, q);
    ReapOf(s, a, q);
  }

  lemma ReapOf(s: State, a: Step, q: nat)
    requires Enabled(s, a) && q < |s.slots|
    ensures a.Reap? && a.c == q ==> s.slots[q].life == Zombie
    ensures a.Exit? && a.p == q ==> s.slots[q].life == Live && s.slots[q].pc == Busy
    ensures a == Die(q) ==> s.slots[q].life == Live && s.slots[q].pc.Exiting?
  {
  }

  /** The three together. */
  lemma Others(s: State, a: Step, q: nat)
    requires Inv(s) && Enabled(s, a) && q < |s.slots|
    ensures |Do(s, a).slots| == |s.slots|
    ensures PastTurn(s.slots[q], Do(s, a).slots[q], a, q)
  {
    hide Inv, Do, Enabled;
    SameSlots(s, a);
    if a.Alloc? || a.ForkFail? || a.Link? || a.Start? {
      ForkOthers(s, a, q);
    } else if WaitTurn(a) {
      WaitOthers(s, a, q);
    } else {
      ExitOthers(s, a, q);
    }
  }

  lemma ZombieForward(s: State, a: Step, q: nat)
    requires Inv(s) && Enabled(s, a) && q < |s.slots| && s.slots[q].life == Zombie
    ensures var s', x := Do(s, a), s.slots[q];
      && |s'.slots| == |s.slots|
      && if a.Reap? && a.c == q then s'.reaped == s.reaped + [Reaped(x.pid, x.xstate, a.p)]
         else s'.slots[q].life == Zombie && s'.slots[q].pid == x.pid && s'.slots[q].xstate == x.xstate
  {
    hide Inv, Do, Enabled;
    Others(s, a, q);
    ReapOf(s, a, q);
    if a.Reap? {
      ReapTells(s, a);
    }
  }

  lemma ReapTells(s: State, a: Step)
    requires Enabled(s, a) && a.Reap?
    ensures Do(s, a).reaped == s.reaped + [Reaped(s.slots[a.c].pid, s.slots[a.c].xstate, a.p)]
  {
  }

  lemma LeavingBackward(s: State, a: Step, q: nat)
    requires Inv(s) && Enabled(s, a) && q < |s.slots| == |Do(s, a).slots|
    requires Do(s, a).slots[q].life == Live && Do(s, a).slots[q].pc.Exiting?
    ensures var y, x := Do(s, a).slots[q], s.slots[q];
      && y.pid == x.pid
      && (a == Exit(q, y.pc.status) || (x.life == Live && x.pc.Exiting? && x.pc.status == y.pc.status))
  {
    hide Inv, Do, Enabled;
    Others(s, a, q);
    ReapOf(s, a, q);
  }

  lemma ZombieBackward(s: State, a: Step, q: nat)
    requires Inv(s) && Enabled(s, a) && q < |s.slots| == |Do(s, a).slots| && Do(s, a).slots[q].life == Zombie
    ensures var y, x := Do(s, a).slots[q], s.slots[q];
      && y.pid == x.pid
      && ((x.life == Live && x.pc.Exiting? && x.pc.status == y.xstate) || (x.life == Zombie && x.xstate == y.xstate))
  {
    hide Inv, Do, Enabled;
    Others(s, a, q);
    ReapOf(s, a, q);
  }

  lemma EndedKept(s: State, a: Step, x: nat, st: int)
    requires Inv(s) && Enabled(s, a) && Ended(s, x, st)
    ensures Ended(Do(s, a), x, st)
  {
    hide Inv, Enabled, Do;
    var s' := Do(s, a);
    if Told(s, x, st) {
      var j :| 0 <= j < |s.reaped| && s.reaped[j].pid == x && s.reaped[j].status == st;
      ReapedGrows(s, a);
      assert s'.reaped[j] == s.reaped[j];
    } else if Leaving(s, x, st) {
      var q :| 0 <= q < |s.slots| && s.slots[q].life == Live && s.slots[q].pid == x
        && s.slots[q].pc.Exiting? && s.slots[q].pc.status == st;
      LeavingForward(s, a, q);
      assert s'.slots[q].pid == x;
    } else {
      var q :| 0 <= q < |s.slots| && s.slots[q].life == Zombie && s.slots[q].pid == x && s.slots[q].xstate == st;
      ZombieForward(s, a, q);
      if a.Reap? && a.c == q {
        assert s'.reaped[|s.reaped|] == Reaped(x, st, a.p);
      } else {
        assert s'.slots[q].pid == x;
      }
    }
  }

  /** wait adds at most one process to those that it has returned: the zombie that it frees. */
  lemma ReapedGrows(s: State, a: Step)
    requires Enabled(s, a)
    ensures s.reaped <= Do(s, a).reaped
    ensures if a.Reap? then Do(s, a).reaped == s.reaped + [Reaped(s.slots[a.c].pid, s.slots[a.c].xstate, a.p)]
      else Do(s, a).reaped == s.reaped
  {
  }

  lemma EndedBefore(s: State, a: Step, x: nat, st: int)
    requires Inv(s) && Enabled(s, a) && Ended(Do(s, a), x, st)
    ensures Ended(s, x, st) || ExitOf(s, a, x, st)
  {
    hide Inv, Enabled, Do;
    var s' := Do(s, a);
    if Told(s', x, st) {
      var j :| 0 <= j < |s'.reaped| && s'.reaped[j].pid == x && s'.reaped[j].status == st;
      ReapedGrows(s, a);
      if j < |s.reaped| {
        assert s.reaped[j] == s'.reaped[j];
      } else {
        ReapsZombie(s, a);
      }
    } else if Leaving(s', x, st) {
      SameSlots(s, a);
      var q :| 0 <= q < |s'.slots| && s'.slots[q].life == Live && s'.slots[q].pid == x
        && s'.slots[q].pc.Exiting? && s'.slots[q].pc.status == st;
      LeavingBackward(s, a, q);
    } else {
      SameSlots(s, a);
      var q :| 0 <= q < |s'.slots| && s'.slots[q].life == Zombie && s'.slots[q].pid == x && s'.slots[q].xstate == st;
      ZombieBackward(s, a, q);
    }
  }

  lemma ReapsZombie(s: State, a: Step)
    requires Enabled(s, a) && a.Reap?
    ensures a.c < |s.slots| && s.slots[a.c].life == Zombie
  {
  }

  lemma SameSlots(s: State, a: Step)
    requires Enabled(s, a)
    ensures |Do(s, a).slots| == |s.slots|
  {
  }

  /** Nobody exits twice. */
  lemma EndedOnce(s: State, a: Step, x: nat, st: int, st': int)
    requires Inv(s) && Enabled(s, a) && ExitOf(s, a, x, st)
    ensures !Ended(s, x, st')
  {
    hide SlotOk, ParentOk;
    PidsDiffer(s, a.p);
  }

  lemma PidsDiffer(s: State, p: nat)
    requires Pids(s) && p < |s.slots| && s.slots[p].life != Unused
    ensures forall q :: 0 <= q < |s.slots| && s.slots[q].life != Unused && s.slots[q].pid == s.slots[p].pid ==> q == p
  {
  }

  // ---------------------------------------------------------------- whole runs

  /** After an exit, at every later moment of the run, the process is leaving, a zombie or told of,
      with the status of that exit. */
  lemma {:induction false} ExitStays(ss: seq<State>, steps: seq<Step>, k: nat, i: nat, x: nat, st: int)
    requires IsRun(ss, steps) && k < i < |ss| && ExitOf(ss[k], steps[k], x, st)
    ensures Ended(ss[i], x, st)
    decreases i
  {
    hide Inv, Enabled, Do, Init, Ended, ExitOf, Leaving;
    if i == k + 1 {
      ExitEnds(ss[k], steps[k], x, st);
      EndedIs(ss[i], x, st);
    } else {
      ExitStays(ss, steps, k, i - 1, x, st);
      RunInv(ss, steps, i - 1);
      EndedKept(ss[i - 1], steps[i - 1], x, st);
    }
  }

  lemma EndedIs(s: State, x: nat, st: int)
    ensures Leaving(s, x, st) || Told(s, x, st) ==> Ended(s, x, st)
  {
  }

  /** And all that is so comes from an exit. */
  lemma {:induction false} EndedByExit(ss: seq<State>, steps: seq<Step>, i: nat, x: nat, st: int)
    requires IsRun(ss, steps) && i < |ss| && Ended(ss[i], x, st)
    ensures exists k :: 0 <= k < i && ExitOf(ss[k], steps[k], x, st)
  {
    if i == 0 {
      assert false;
    } else {
      hide Inv, Enabled, Do, Init, Ended, ExitOf;
      RunInv(ss, steps, i - 1);
      EndedBefore(ss[i - 1], steps[i - 1], x, st);
      if Ended(ss[i - 1], x, st) {
        EndedByExit(ss, steps, i - 1, x, st);
      }
    }
  }

  /** A pid exits once in a run. */
  lemma OneExit(ss: seq<State>, steps: seq<Step>, k: nat, k': nat, x: nat, st: int, st': int)
    requires IsRun(ss, steps) && k < |steps| && k' < |steps|
    requires ExitOf(ss[k], steps[k], x, st) && ExitOf(ss[k'], steps[k'], x, st')
    ensures k == k' && st == st'
  {
    hide Inv, Enabled, Do, Init, Ended;
    if k < k' {
      ExitStays(ss, steps, k, k', x, st);
      RunInv(ss, steps, k');
      EndedOnce(ss[k'], steps[k'], x, st', st);
    } else if k' < k {
      ExitStays(ss, steps, k', k, x, st');
      RunInv(ss, steps, k);
      EndedOnce(ss[k], steps[k], x, st, st');
    }
  }

  /** Each process that wait returns exited exactly once before, and wait returns the status that it
      gave to exit. */
  lemma StatusArrives(ss: seq<State>, steps: seq<Step>, i: nat, j: nat) returns (k: nat)
    requires IsRun(ss, steps) && i < |ss| && j < |ss[i].reaped|
    ensures k < i && ExitOf(ss[k], steps[k], ss[i].reaped[j].pid, ss[i].reaped[j].status)
    ensures forall k', st :: 0 <= k' < |steps| && ExitOf(ss[k'], steps[k'], ss[i].reaped[j].pid, st) ==>
      k' == k && st == ss[i].reaped[j].status
  {
    hide Inv, Enabled, Do, Init, Ended, ExitOf;
    var r := ss[i].reaped[j];
    EndedIs(ss[i], r.pid, r.status);
    EndedByExit(ss, steps, i, r.pid, r.status);
    k :| 0 <= k < i && ExitOf(ss[k], steps[k], r.pid, r.status);
    forall k', st | 0 <= k' < |steps| && ExitOf(ss[k'], steps[k'], r.pid, st)
      ensures k' == k && st == r.status
    {
      OneExit(ss, steps, k, k', r.pid, r.status, st);
    }
  }

  /** What one wait returns: the zombie child that it frees, with the status of its exit. */
  lemma ReapReturns(ss: seq<State>, steps: seq<Step>, i: nat) returns (k: nat)
    requires IsRun(ss, steps) && i < |steps| && steps[i].Reap?
    ensures var s, c := ss[i], steps[i].c;
      && c < |s.slots| && k < i && steps[k].Exit? && ExitOf(ss[k], steps[k], s.slots[c].pid, steps[k].status)
      && ss[i + 1].reaped == s.reaped + [Reaped(s.slots[c].pid, steps[k].status, steps[i].p)]
      && ss[i + 1].slots[c] == FreeSlot()
  {
    var s, a := ss[i], steps[i];
    assert Enabled(s, a) && ss[i + 1] == Do(s, a);
    ReapsZombie(s, a);
    assert Waits(s, s.slots[a.c].pid, s.slots[a.c].xstate);
    ReapedGrows(s, a);
    hide Inv, Init, Ended;
    EndedByExit(ss, steps, i, s.slots[a.c].pid, s.slots[a.c].xstate);
    k :| 0 <= k < i && ExitOf(ss[k], steps[k], s.slots[a.c].pid, s.slots[a.c].xstate);
  }

  // ---------------------------------------------------------------- who waits for whom

  /** Step a of fork gives a new process the pid x; the process with pid y does it. */
  predicate ForkOf(s: State, a: Step, y: nat, x: nat) {
    a.Alloc? && a.p < |s.slots| && s.slots[a.p].pid == y && s.nextpid == x
  }

  lemma {:induction false} MadeByFork(ss: seq<State>, steps: seq<Step>, i: nat, x: nat)
    requires IsRun(ss, steps) && i < |ss| && x in ss[i].makers && x !in ss[0].makers
    ensures exists k :: 0 <= k < i && ForkOf(ss[k], steps[k], ss[i].makers[x], x)
    decreases i
  {
    hide Inv, Init, Do, Enabled, ForkOf;
    if i > 0 {
      NewMaker(ss[i - 1], steps[i - 1], x);
      if !ForkOf(ss[i - 1], steps[i - 1], ss[i].makers[x], x) {
        MadeByFork(ss, steps, i - 1, x);
      }
    }
  }

  lemma NewMaker(s: State, a: Step, x: nat)
    requires Enabled(s, a) && x in Do(s, a).makers
    ensures ForkOf(s, a, Do(s, a).makers[x], x) || (x in s.makers && Do(s, a).makers[x] == s.makers[x])
  {
  }

  lemma {:induction false} InitPid(ss: seq<State>, steps: seq<Step>, i: nat)
    requires IsRun(ss, steps) && i < |ss|
    ensures |ss[i].slots| > 0 && ss[i].slots[INIT].pid == 1 && ss[i].slots[INIT].life == Live
  {
    if i > 0 {
      hide Init, Pids, History, ParentOk;
      InitPid(ss, steps, i - 1);
      RunInv(ss, steps, i - 1);
      RunInv(ss, steps, i);
      assert Enabled(ss[i - 1], steps[i - 1]) && ss[i] == Do(ss[i - 1], steps[i - 1]);
      InitStays(ss[i - 1], steps[i - 1]);
    }
  }

  lemma InitStays(s: State, a: Step)
    requires Inv(s) && Enabled(s, a)
    ensures |Do(s, a).slots| == |s.slots| && Do(s, a).slots[INIT].pid == s.slots[INIT].pid
  {
    hide Pids, History, ParentOk;
    if a.ForkFail? {
      assert SlotOk(s, a.p);
    }
  }

  lemma NotFirst(ss: seq<State>, steps: seq<Step>, i: nat, c: nat)
    requires IsRun(ss, steps) && i < |ss| && c < |ss[i].slots| && ss[i].slots[c].life == Zombie
    ensures ss[i].slots[c].pid !in ss[0].makers
  {
    hide History, SlotOk, ParentOk, Enabled, Do;
    InitPid(ss, steps, i);
    RunInv(ss, steps, i);
  }

  /** Whoever reaps a process is init or the one that forked it, however often slots are reused in
      between. */
  lemma ReapedByForker(ss: seq<State>, steps: seq<Step>, i: nat, p: nat, c: nat) returns (k: nat)
    requires IsRun(ss, steps) && i < |steps| && steps[i] == Reap(p, c) && p != INIT
    ensures p < |ss[i].slots| && c < |ss[i].slots|
    ensures k < i && ForkOf(ss[k], steps[k], ss[i].slots[p].pid, ss[i].slots[c].pid)
  {
    ReapedByParent(ss, steps, i, p, c);
    assert Enabled(ss[i], steps[i]);
    NotFirst(ss, steps, i, c);
    hide Inv, Init, Enabled, Do;
    MadeByFork(ss, steps, i, ss[i].slots[c].pid);
    k :| 0 <= k < i && ForkOf(ss[k], steps[k], ss[i].slots[p].pid, ss[i].slots[c].pid);
  }
}
