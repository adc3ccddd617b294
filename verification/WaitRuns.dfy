/** Sleeping in wait: a process sleeps there only while it has a child that is still going to wake it
    up, and wait does not fail while there is a child. */
module WaitRuns {
  import opened ExitWait

  // ---------------------------------------------------------------- who sleeps in wait

  /** The process has exited, or is past the wakeup of its parent. */
  predicate Late(s: State, c: nat)
    requires c < |s.slots|
  {
    s.slots[c].life == Zombie || (s.slots[c].pc.Exiting? && s.slots[c].pc.i > |s.slots|)
  }

  predicate Child(s: State, p: nat, c: nat) {
    c < |s.slots| && s.slots[c].parent == p
  }

  ghost predicate Rests(s: State, p: nat) {
    (exists c :: Child(s, p, c)) && forall c :: Child(s, p, c) ==> !Late(s, c)
  }

  ghost predicate Sleepers(s: State) {
    forall p :: 0 <= p < |s.slots| && s.slots[p].pc == Asleep ==> Rests(s, p)
  }

  /** What a step leaves of a sleeper's children. */
  lemma RestsStays(s: State, s': State, p: nat)
    requires Rests(s, p) && |s'.slots| == |s.slots|
    requires forall c :: Child(s, p, c) ==> Child(s', p, c)
    requires forall c :: Child(s', p, c) ==> (Child(s, p, c) && (Late(s', c) ==> Late(s, c))) || !Late(s', c)
    ensures Rests(s', p)
  {
    var c :| Child(s, p, c);
    assert Child(s', p, c);
  }

  /** Step a keeps the sleeper p, and its children as they are. */
  ghost predicate Undisturbed(s: State, a: Step, p: nat)
    requires Enabled(s, a)
  {
    var s' := Do(s, a);
    && |s'.slots| == |s.slots|
    && (forall c :: Child(s, p, c) ==> Child(s', p, c))
    && forall c :: Child(s', p, c) ==> (Child(s, p, c) && (Late(s', c) ==> Late(s, c))) || !Late(s', c)
  }

  lemma ForkUndisturbed(s: State, a: Step, p: nat)
    requires Inv(s) && Enabled(s, a) && p < |s.slots| && s.slots[p].pc == Asleep && s.slots[p].life == Live
    requires a.Alloc? || a.ForkFail? || a.Link? || a.Start?
    ensures Undisturbed(s, a, p)
  {
    hide Pids, History;
    assert SlotOk(s, a.p);
    var np := if a.Alloc? then a.np else s.slots[a.p].pc.np;
    assert SlotOk(s, np) && ParentOk(s, np);
  }

  lemma ExitUndisturbed(s: State, a: Step, p: nat)
    requires Inv(s) && Enabled(s, a) && p < |s.slots| && s.slots[p].pc == Asleep && s.slots[p].life == Live && Rests(s, p)
    requires (a.Exit? || a.WakeParent? || a.Die? || a.DropWaitLock?) && Do(s, a).slots[p].pc == Asleep
    ensures Undisturbed(s, a, p)
  {
    hide Pids, History;
    assert SlotOk(s, a.p) && ParentOk(s, a.p);
  }

  lemma ReparentUndisturbed(s: State, a: Step, p: nat)
    requires Inv(s) && Enabled(s, a) && p < |s.slots| && s.slots[p].pc == Asleep && s.slots[p].life == Live
    requires a.Reparent? && |Do(s, a).slots| == |s.slots| && Do(s, a).slots[p].pc == Asleep
    ensures Undisturbed(s, a, p)
  {
    assert SlotOk(s, a.p);
    var s' := Do(s, a);
    Reparented(s, a.p, p);
    forall c | 0 <= c < |s.slots|
      ensures Child(s', p, c) <==> Child(s, p, c)
      ensures Late(s', c) ==> Late(s, c)
    {
      Reparented(s, a.p, c);
    }
  }

  lemma WaitUndisturbed(s: State, a: Step, p: nat)
    requires Inv(s) && Enabled(s, a) && p < |s.slots| && s.slots[p].pc == Asleep && s.slots[p].life == Live
    requires a.Wait? || a.Reap? || a.WaitFault? || a.WaitNone? || a.Doze? || a.Rouse? || a.Rescan?
    ensures Undisturbed(s, a, p)
  {
    hide Pids, History, ParentOk;
    assert SlotOk(s, a.p);
  }

  lemma DozeRests(s: State, p: nat)
    requires Inv(s) && Enabled(s, Doze(p))
    ensures Rests(Do(s, Doze(p)), p)
  {
    hide Pids, History, ParentOk;
    var s' := Do(s, Doze(p));
    var c :| 0 <= c < |s.slots| && s.slots[c].parent == p;
    assert Child(s', p, c);
    forall d | Child(s', p, d)
      ensures !Late(s', d)
    {
      assert SlotOk(s, d) && SlotOk(s, p);
      assert !Ripe(s, p, d);
    }
  }

  lemma SleeperLive(s: State, p: nat)
    requires Inv(s) && p < |s.slots| && s.slots[p].pc == Asleep
    ensures s.slots[p].life == Live
  {
    hide Pids, History, ParentOk;
    assert SlotOk(s, p);
  }

  /** Only a process that dozes off is newly asleep. */
  lemma WasAsleep(s: State, a: Step, p: nat)
    requires Inv(s) && Enabled(s, a) && a != Doze(p) && |Do(s, a).slots| == |s.slots|
    requires p < |s.slots| && Do(s, a).slots[p].pc == Asleep
    ensures s.slots[p].pc == Asleep
  {
    hide Pids, History, ParentOk, SlotOk;
  }

  lemma SizeStays(s: State, a: Step)
    requires Enabled(s, a)
    ensures |Do(s, a).slots| == |s.slots|
  {
  }

  lemma StepSleepers(s: State, a: Step)
    requires Inv(s) && Enabled(s, a) && Sleepers(s)
    ensures Sleepers(Do(s, a))
  {
    hide Inv, Enabled, Do, Rests, Undisturbed;
    var s' := Do(s, a);
    SizeStays(s, a);
    forall p | 0 <= p < |s'.slots| && s'.slots[p].pc == Asleep
      ensures Rests(s', p)
    {
      if a == Doze(p) {
        DozeRests(s, p);
      } else {
        WasAsleep(s, a, p);
        SleeperLive(s, p);
        if a.Alloc? || a.ForkFail? || a.Link? || a.Start? {
          ForkUndisturbed(s, a, p);
        } else if a.Reparent? {
          ReparentUndisturbed(s, a, p);
        } else if a.Exit? || a.WakeParent? || a.Die? || a.DropWaitLock? {
          ExitUndisturbed(s, a, p);
        } else {
          WaitUndisturbed(s, a, p);
        }
        StillRests(s, a, p);
      }
    }
  }

  lemma StillRests(s: State, a: Step, p: nat)
    requires Enabled(s, a) && Undisturbed(s, a, p) && Rests(s, p)
    ensures Rests(Do(s, a), p)
  {
    hide Enabled, Do;
    RestsStays(s, Do(s, a), p);
  }

  lemma {:induction false} RunSleepers(ss: seq<State>, steps: seq<Step>, i: nat)
    requires IsRun(ss, steps) && i < |ss|
    ensures Sleepers(ss[i])
  {
    if i > 0 {
      hide Inv, Enabled, Do, Init, Sleepers;
      RunSleepers(ss, steps, i - 1);
      RunInv(ss, steps, i - 1);
      StepSleepers(ss[i - 1], steps[i - 1]);
    }
  }

  /** No exit is missed: in every reachable state a process that sleeps in wait has a child, and none of
      its children is a zombie or past the wakeup that comes before that. */
  lemma NoMissedExit(ss: seq<State>, steps: seq<Step>, i: nat, p: nat) returns (c: nat)
    requires IsRun(ss, steps) && i < |ss| && p < |ss[i].slots| && ss[i].slots[p].pc == Asleep
    ensures Child(ss[i], p, c) && forall d :: Child(ss[i], p, d) ==> !Late(ss[i], d)
  {
    hide Init, Enabled, Do;
    RunSleepers(ss, steps, i);
    c :| Child(ss[i], p, c);
  }

  // ---------------------------------------------------------------- wait does not fail

  /** A process stays the parent of its child until it reaps it or exits itself. */
  lemma ChildStays(s: State, a: Step, p: nat, c: nat)
    requires Inv(s) && Enabled(s, a) && p < |s.slots| && Child(s, p, c) && !s.slots[p].pc.Exiting?
    requires a != Reap(p, c)
    ensures Child(Do(s, a), p, c) && Do(s, a).slots[c].pid == s.slots[c].pid
  {
    hide Inv, Enabled, Do, Child;
    if a.Alloc? || a.ForkFail? || a.Link? || a.Start? {
      ForkKeepsChild(s, a, p, c);
    } else if a.Reparent? {
      ReparentKeepsChild(s, a, p, c);
    } else {
      OtherKeepsChild(s, a, p, c);
    }
  }

  lemma ForkKeepsChild(s: State, a: Step, p: nat, c: nat)
    requires Inv(s) && Enabled(s, a) && p < |s.slots| && Child(s, p, c) && (a.Alloc? || a.ForkFail? || a.Link? || a.Start?)
    ensures Child(Do(s, a), p, c) && Do(s, a).slots[c].pid == s.slots[c].pid
  {
    hide Pids, History, Rid;
    assert SlotOk(s, c) && ParentOk(s, c) && SlotOk(s, a.p);
  }

  lemma ReparentKeepsChild(s: State, a: Step, p: nat, c: nat)
    requires Inv(s) && Enabled(s, a) && p < |s.slots| && Child(s, p, c) && !s.slots[p].pc.Exiting? && a.Reparent?
    ensures Child(Do(s, a), p, c) && Do(s, a).slots[c].pid == s.slots[c].pid
  {
    hide Pids, History, ParentOk, SlotOk;
    Reparented(s, a.p, c);
  }

  lemma OtherKeepsChild(s: State, a: Step, p: nat, c: nat)
    requires Inv(s) && Enabled(s, a) && p < |s.slots| && Child(s, p, c) && a != Reap(p, c)
    requires !(a.Alloc? || a.ForkFail? || a.Link? || a.Start? || a.Reparent?)
    ensures Child(Do(s, a), p, c) && Do(s, a).slots[c].pid == s.slots[c].pid
  {
    hide Pids, History, ParentOk, SlotOk;
  }

  lemma NotLeaving(s: State, a: Step, p: nat)
    requires Inv(s) && Enabled(s, a) && p < |s.slots| && !s.slots[p].pc.Exiting? && !(a.Exit? && a.p == p)
    ensures |Do(s, a).slots| == |s.slots| && !Do(s, a).slots[p].pc.Exiting?
  {
    hide Pids, History, ParentOk, SlotOk;
  }

  lemma {:induction false} StillChild(ss: seq<State>, steps: seq<Step>, k: nat, i: nat, p: nat, c: nat)
    requires IsRun(ss, steps) && k <= i < |ss| && p < |ss[k].slots| && Child(ss[k], p, c) && !ss[k].slots[p].pc.Exiting?
    requires forall j :: k <= j < i ==> steps[j] != Reap(p, c) && !(steps[j].Exit? && steps[j].p == p)
    ensures p < |ss[i].slots| && Child(ss[i], p, c) && ss[i].slots[c].pid == ss[k].slots[c].pid
    ensures !ss[i].slots[p].pc.Exiting?
    decreases i
  {
    hide Inv, Init, Enabled, Do;
    if k < i {
      StillChild(ss, steps, k, i - 1, p, c);
      RunInv(ss, steps, i - 1);
      ChildStays(ss[i - 1], steps[i - 1], p, c);
      NotLeaving(ss[i - 1], steps[i - 1], p);
    }
  }

  /** After fork, wait of the parent does not come back without a child until it has reaped the new
      one, unless the parent is killed. */
  lemma ForkedIsAwaited(ss: seq<State>, steps: seq<Step>, k: nat, i: nat, p: nat, np: nat)
    requires IsRun(ss, steps) && k < i < |steps| && steps[k] == Start(p) && p < |ss[k].slots|
    requires ss[k].slots[p].pc == ForkLinked(np)
    requires forall j :: k < j < i ==> steps[j] != Reap(p, np) && !(steps[j].Exit? && steps[j].p == p)
    ensures steps[i] != WaitNone(p, false)
  {
    hide Init, Inv;
    RunInv(ss, steps, k);
    assert Enabled(ss[k], steps[k]) && ss[k + 1] == Do(ss[k], steps[k]);
    Started(ss[k], p, np);
    StillChild(ss, steps, k + 1, i, p, np);
    assert Enabled(ss[i], steps[i]);
  }

  lemma Started(s: State, p: nat, np: nat)
    requires Inv(s) && Enabled(s, Start(p)) && s.slots[p].pc == ForkLinked(np)
    ensures var s' := Do(s, Start(p)); p < |s'.slots| && Child(s', p, np) && !s'.slots[p].pc.Exiting?
  {
    hide Pids, History, ParentOk;
    assert SlotOk(s, p);
  }
}
