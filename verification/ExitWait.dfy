/** fork, exit, reparent and wait over the process table, as interleaved steps of the processes.

    wait_lock is explicit: a process that exits holds it from the start of reparent until it is a
    zombie, and one that waits holds it while it looks for children, and gives it up to sleep. What
    happens under p->lock alone is one step. */
module ExitWait {
  const NONE: int := -1
  const INIT: nat := 0

  datatype Life = Unused | Used | Live | Zombie

  /** What a process is doing: in fork, with the slot np not yet given a parent, or given one; in
      exit, at entry i of reparent's loop, past it, or past the wakeup of its parent as well; in wait,
      holding wait_lock, asleep, or woken up and about to take wait_lock again. */
  datatype Pc =
    | Busy
    | ForkAlloc(np: nat)
    | ForkLinked(np: nat)
    | Exiting(i: nat, status: int)
    | Gone
    | Scanning
    | Asleep
    | Woken

  datatype Slot = Slot(life: Life, pid: nat, parent: int, xstate: int, pc: Pc)

  /** A process that wait has reaped: its pid, the status that wait returned, and the slot of the
      process that called wait. */
  datatype Reaped = Reaped(pid: nat, status: int, caller: nat)

  /** The histories: `exits` maps a pid to the status it exited with, `makers` to the slot that
      forked it and that slot's pid, `reaped` lists what wait returned. */
  datatype State = State(slots: seq<Slot>, waitLock: int, nextpid: nat,
                         exits: map<nat, int>, makers: map<nat, nat>, reaped: seq<Reaped>)

  datatype Step =
    | Alloc(p: nat, np: nat)
    | ForkFail(p: nat)
    | Link(p: nat)
    | Start(p: nat)
    | Exit(p: nat, status: int)
    | Reparent(p: nat)
    | WakeParent(p: nat)
    | Die(p: nat)
    | DropWaitLock(p: nat)
    | Wait(p: nat)
    | Reap(p: nat, c: nat)
    | WaitFault(p: nat, c: nat)
    | WaitNone(p: nat, killed: bool)
    | Doze(p: nat)
    | Rouse(p: nat)
    | Rescan(p: nat)

  predicate Runs(s: State, p: nat) {
    p < |s.slots| && s.slots[p].life == Live
  }

  predicate Enabled(s: State, a: Step) {
    match a
    case Alloc(p, np) => Runs(s, p) && s.slots[p].pc == Busy && np < |s.slots| && s.slots[np].life == Unused
    case ForkFail(p) => Runs(s, p) && s.slots[p].pc.ForkAlloc? && s.slots[p].pc.np < |s.slots|
    case Link(p) => Runs(s, p) && s.slots[p].pc.ForkAlloc? && s.slots[p].pc.np < |s.slots| && s.waitLock == NONE
    case Start(p) => Runs(s, p) && s.slots[p].pc.ForkLinked? && s.slots[p].pc.np < |s.slots|
    case Exit(p, status) => Runs(s, p) && p != INIT && s.slots[p].pc == Busy && s.waitLock == NONE
    case Reparent(p) => Runs(s, p) && s.slots[p].pc.Exiting? && s.slots[p].pc.i < |s.slots|
    case WakeParent(p) => Runs(s, p) && s.slots[p].pc.Exiting? && s.slots[p].pc.i == |s.slots|
    case Die(p) => Runs(s, p) && s.slots[p].pc.Exiting? && s.slots[p].pc.i == |s.slots| + 1
    case DropWaitLock(p) => p < |s.slots| && s.slots[p].life == Zombie && s.waitLock == p
    case Wait(p) => Runs(s, p) && s.slots[p].pc == Busy && s.waitLock == NONE
    case Reap(p, c) => Runs(s, p) && s.slots[p].pc == Scanning && Finds(s, p, c)
    case WaitFault(p, c) => Runs(s, p) && s.slots[p].pc == Scanning && Finds(s, p, c)
    case WaitNone(p, killed) =>
      Runs(s, p) && s.slots[p].pc == Scanning && (forall c :: 0 <= c < |s.slots| ==> !Ripe(s, p, c))
      && (killed || forall c :: 0 <= c < |s.slots| ==> s.slots[c].parent != p)
    case Doze(p) =>
      Runs(s, p) && s.slots[p].pc == Scanning && (forall c :: 0 <= c < |s.slots| ==> !Ripe(s, p, c))
      && exists c :: 0 <= c < |s.slots| && s.slots[c].parent == p
    case Rouse(p) => Runs(s, p) && s.slots[p].pc == Asleep
    case Rescan(p) => Runs(s, p) && s.slots[p].pc == Woken && s.waitLock == NONE
  }

  /** A child of p that has exited. */
  predicate Ripe(s: State, p: nat, c: nat)
    requires c < |s.slots|
  {
    s.slots[c].parent == p && s.slots[c].life == Zombie
  }

  /** The one that wait comes to first. */
  predicate Finds(s: State, p: nat, c: nat) {
    c < |s.slots| && Ripe(s, p, c) && forall d :: 0 <= d < c ==> !Ripe(s, p, d)
  }

  function Put(s: State, p: nat, x: Slot): State
    requires p < |s.slots|
  {
    s.(slots := s.slots[p := x])
  }

  /** freeproc. */
  function FreeSlot(): Slot {
    Slot(Unused, 0, NONE, 0, Busy)
  }

  /** wakeup of the process in slot q, if it sleeps in wait. */
  function Wake(s: State, q: int): State {
    if 0 <= q < |s.slots| && s.slots[q].pc == Asleep then Put(s, q, s.slots[q].(pc := Woken)) else s
  }

  /** What the steps do. WaitFault is a wait whose copyout of the status fails; Rouse is the wakeup by
      kill. */
  function Do(s: State, a: Step): State
    requires Enabled(s, a)
  {
    match a
    case Alloc(p, np) =>
      Put(Put(s, np, Slot(Used, s.nextpid, NONE, 0, Busy)), p, s.slots[p].(pc := ForkAlloc(np)))
      .(nextpid := s.nextpid + 1, makers := s.makers[s.nextpid := s.slots[p].pid])
    case ForkFail(p) => Put(Put(s, s.slots[p].pc.np, FreeSlot()), p, s.slots[p].(pc := Busy))
    case Link(p) =>
      var np := s.slots[p].pc.np;
      Put(Put(s, np, s.slots[np].(parent := p)), p, s.slots[p].(pc := ForkLinked(np)))
    case Start(p) =>
      var np := s.slots[p].pc.np;
      Put(Put(s, np, s.slots[np].(life := Live)), p, s.slots[p].(pc := Busy))
    case Exit(p, status) => Put(s, p, s.slots[p].(pc := Exiting(0, status))).(waitLock := p)
    case Reparent(p) =>
      var i := s.slots[p].pc.i;
      var s1 := if s.slots[i].parent == p then Wake(Put(s, i, s.slots[i].(parent := INIT)), INIT) else s;
      Put(s1, p, s1.slots[p].(pc := Exiting(i + 1, s.slots[p].pc.status)))
    case WakeParent(p) =>
      var s1 := Wake(s, s.slots[p].parent);
      Put(s1, p, s1.slots[p].(pc := Exiting(|s.slots| + 1, s.slots[p].pc.status)))
    case Die(p) =>
      var x := s.slots[p];
      Put(s, p, x.(life := Zombie, xstate := x.pc.status, pc := Gone)).(exits := s.exits[x.pid := x.pc.status])
    case DropWaitLock(p) => s.(waitLock := NONE)
    case Wait(p) => Put(s, p, s.slots[p].(pc := Scanning)).(waitLock := p)
    case Reap(p, c) =>
      Put(Put(s, c, FreeSlot()), p, s.slots[p].(pc := Busy))
      .(waitLock := NONE, reaped := s.reaped + [Reaped(s.slots[c].pid, s.slots[c].xstate, p)])
    case WaitFault(p, c) => Put(s, p, s.slots[p].(pc := Busy)).(waitLock := NONE)
    case WaitNone(p, _) => Put(s, p, s.slots[p].(pc := Busy)).(waitLock := NONE)
    case Doze(p) => Put(s, p, s.slots[p].(pc := Asleep)).(waitLock := NONE)
    case Rouse(p) => Put(s, p, s.slots[p].(pc := Woken))
    case Rescan(p) => Put(s, p, s.slots[p].(pc := Scanning)).(waitLock := p)
  }

  // ---------------------------------------------------------------- the invariant

  /** Slot p by itself, and the slots that its position speaks of. */
  ghost predicate SlotOk(s: State, p: nat)
    requires p < |s.slots|
  {
    var x := s.slots[p];
    && (x.life == Unused ==> x == FreeSlot())
    && (x.life == Used ==> x.pc == Busy)
    && (x.life == Zombie ==> x.pc == Gone)
    && (x.life == Live ==> x.pc != Gone)
    && (x.life != Unused ==> x.pid < s.nextpid && x.pid in s.makers)
    && (x.pc.ForkAlloc? || x.pc.ForkLinked? ==>
          x.pc.np < |s.slots| && s.slots[x.pc.np].life == Used
          && s.slots[x.pc.np].parent == (if x.pc.ForkAlloc? then NONE else p)
          && s.slots[x.pc.np].pid in s.makers && s.makers[s.slots[x.pc.np].pid] == x.pid)
    && (x.pc.Exiting? ==> p != INIT && s.waitLock == p && Rid(s, p, x.pc.i))
    && (x.pc == Scanning ==> s.waitLock == p)
  }

  /** The slots before i are not children of p. */
  ghost predicate Rid(s: State, p: nat, i: nat) {
    i <= |s.slots| + 1 && forall q :: 0 <= q < i && q < |s.slots| ==> s.slots[q].parent != p
  }

  /** The parent of a slot is alive, and is its maker or init. */
  ghost predicate ParentOk(s: State, q: nat)
    requires q < |s.slots|
  {
    var x := s.slots[q];
    x.parent != NONE ==>
      && 0 <= x.parent < |s.slots| && s.slots[x.parent].life == Live && x.life != Unused
      && (x.pid in s.makers ==> x.parent == INIT || s.slots[x.parent].pid == s.makers[x.pid])
  }

  ghost predicate Pids(s: State) {
    forall p, q :: 0 <= p < q < |s.slots| && s.slots[p].life != Unused && s.slots[q].life != Unused ==>
      s.slots[p].pid != s.slots[q].pid
  }

  /** An exited process that has not been reaped is a zombie with its own status; one that has been
      reaped is gone, was reaped once, and with that status. */
  ghost predicate History(s: State) {
    && (forall p :: 0 <= p < |s.slots| && s.slots[p].life == Zombie ==>
          s.slots[p].pid in s.exits && s.slots[p].xstate == s.exits[s.slots[p].pid])
    && (forall i :: 0 <= i < |s.reaped| ==>
          s.reaped[i].pid < s.nextpid && s.reaped[i].pid in s.exits && s.reaped[i].status == s.exits[s.reaped[i].pid])
    && (forall i, j :: 0 <= i < j < |s.reaped| ==> s.reaped[i].pid != s.reaped[j].pid)
    && (forall i, p :: 0 <= i < |s.reaped| && 0 <= p < |s.slots| && s.slots[p].life != Unused ==>
          s.reaped[i].pid != s.slots[p].pid)
    && (forall p :: 0 <= p < |s.slots| && s.slots[p].life != Unused && s.slots[p].life != Zombie ==>
          s.slots[p].pid !in s.exits)
    && (forall pid :: pid in s.exits ==> pid < s.nextpid)
  }

  ghost predicate Inv(s: State) {
    && |s.slots| > 0 && s.slots[INIT].life == Live && NONE <= s.waitLock && Pids(s) && History(s)
    && (forall p :: 0 <= p < |s.slots| ==> SlotOk(s, p) && ParentOk(s, p))
  }

  ghost predicate Init(s: State) {
    && |s.slots| > 0 && s.slots[INIT] == Slot(Live, 1, NONE, 0, Busy) && s.waitLock == NONE && s.nextpid == 2
    && s.exits == map[] && s.makers == map[1 := 0] && s.reaped == []
    && (forall p :: 0 < p < |s.slots| ==> s.slots[p] == FreeSlot())
  }

  lemma InitInv(s: State)
    requires Init(s)
    ensures Inv(s)
  {
  }

  // ---------------------------------------------------------------- what every step keeps

  /** No process exits, is made or is reaped; some slots may be freed. */
  lemma HistoryStays(s: State, s': State)
    requires Pids(s) && History(s) && |s'.slots| == |s.slots| && s'.exits == s.exits && s'.reaped == s.reaped
    requires s'.nextpid == s.nextpid
    requires forall p :: 0 <= p < |s.slots| && s'.slots[p].life != Unused ==>
      && s.slots[p].life != Unused && s'.slots[p].pid == s.slots[p].pid && s'.slots[p].xstate == s.slots[p].xstate
      && (s'.slots[p].life == Zombie <==> s.slots[p].life == Zombie)
    ensures Pids(s') && History(s')
  {
  }

  lemma AllocHistory(s: State, p: nat, np: nat)
    requires Inv(s) && Enabled(s, Alloc(p, np))
    ensures var s' := Do(s, Alloc(p, np)); Pids(s') && History(s')
  {
    hide ParentOk;
    assert SlotOk(s, p) && SlotOk(s, np);
    assert forall q :: 0 <= q < |s.slots| && s.slots[q].life != Unused ==> SlotOk(s, q);
  }

  lemma AllocKeeps(s: State, p: nat, np: nat)
    requires Inv(s) && Enabled(s, Alloc(p, np))
    ensures Inv(Do(s, Alloc(p, np)))
  {
    hide Pids, History;
    var s' := Do(s, Alloc(p, np));
    assert SlotOk(s, p) && ParentOk(s, p);
    AllocHistory(s, p, np);
    forall q | 0 <= q < |s.slots|
      ensures SlotOk(s', q) && ParentOk(s', q)
    {
      assert SlotOk(s, q) && ParentOk(s, q);
      if s.slots[q].pc.ForkAlloc? || s.slots[q].pc.ForkLinked? {
        assert SlotOk(s, s.slots[q].pc.np);
      }
    }
  }

  /** Two processes are never in fork with the same slot. */
  lemma OneMaker(s: State, p: nat, q: nat)
    requires Inv(s) && p < |s.slots| && q < |s.slots| && p != q
    requires s.slots[p].pc.ForkAlloc? || s.slots[p].pc.ForkLinked?
    requires s.slots[q].pc.ForkAlloc? || s.slots[q].pc.ForkLinked?
    ensures s.slots[p].pc.np != s.slots[q].pc.np
  {
    hide History, ParentOk;
    assert SlotOk(s, p) && SlotOk(s, q);
    if p < q {
      assert s.slots[p].pid != s.slots[q].pid;
    } else {
      assert s.slots[q].pid != s.slots[p].pid;
    }
  }

  lemma ForkFailKeeps(s: State, p: nat)
    requires Inv(s) && Enabled(s, ForkFail(p))
    ensures Inv(Do(s, ForkFail(p)))
  {
    hide Pids, History;
    var s' := Do(s, ForkFail(p));
    assert SlotOk(s, p) && ParentOk(s, p);
    var np := s.slots[p].pc.np;
    assert SlotOk(s, np) && ParentOk(s, np);
    HistoryStays(s, s');
    forall q | 0 <= q < |s.slots|
      ensures SlotOk(s', q) && ParentOk(s', q)
    {
      assert SlotOk(s, q) && ParentOk(s, q);
      if q != p && (s.slots[q].pc.ForkAlloc? || s.slots[q].pc.ForkLinked?) {
        OneMaker(s, p, q);
      }
    }
  }

  lemma LinkKeeps(s: State, p: nat)
    requires Inv(s) && Enabled(s, Link(p))
    ensures Inv(Do(s, Link(p)))
  {
    hide Pids, History;
    var s' := Do(s, Link(p));
    assert SlotOk(s, p) && ParentOk(s, p);
    var np := s.slots[p].pc.np;
    assert SlotOk(s, np) && ParentOk(s, np);
    HistoryStays(s, s');
    forall q | 0 <= q < |s.slots|
      ensures SlotOk(s', q) && ParentOk(s', q)
    {
      assert SlotOk(s, q) && ParentOk(s, q);
      if q != p && (s.slots[q].pc.ForkAlloc? || s.slots[q].pc.ForkLinked?) {
        OneMaker(s, p, q);
      }
    }
  }

  lemma StartKeeps(s: State, p: nat)
    requires Inv(s) && Enabled(s, Start(p))
    ensures Inv(Do(s, Start(p)))
  {
    hide Pids, History;
    var s' := Do(s, Start(p));
    assert SlotOk(s, p) && ParentOk(s, p);
    var np := s.slots[p].pc.np;
    assert SlotOk(s, np) && ParentOk(s, np);
    HistoryStays(s, s');
    forall q | 0 <= q < |s.slots|
      ensures SlotOk(s', q) && ParentOk(s', q)
    {
      assert SlotOk(s, q) && ParentOk(s, q);
      if q != p && (s.slots[q].pc.ForkAlloc? || s.slots[q].pc.ForkLinked?) {
        OneMaker(s, p, q);
      }
    }
  }

  /** Where a process may be after a step that changes only where processes are, and wait_lock. */
  ghost predicate PcTurn(s: State, s': State, q: nat)
    requires q < |s.slots| == |s'.slots|
  {
    var c, c' := s.slots[q].pc, s'.slots[q].pc;
    || (c' == c && (c == Scanning || c.Exiting? ==> s'.waitLock == q))
    || (s.slots[q].life == Live
        && (|| c' == Busy || c' == Asleep || c' == Woken || (c' == Scanning && s'.waitLock == q)
            || (c'.Exiting? && q != INIT && s'.waitLock == q && Rid(s, q, c'.i))))
  }

  lemma PcKeeps(s: State, s': State)
    requires Inv(s) && |s'.slots| == |s.slots| && s' == s.(slots := s'.slots, waitLock := s'.waitLock) && NONE <= s'.waitLock
    requires forall q :: 0 <= q < |s.slots| ==> s'.slots[q] == s.slots[q].(pc := s'.slots[q].pc) && PcTurn(s, s', q)
    ensures Inv(s')
  {
    hide Pids, History, SlotOk, ParentOk, PcTurn;
    HistoryStays(s, s');
    forall q | 0 <= q < |s.slots|
      ensures SlotOk(s', q) && ParentOk(s', q)
    {
      PcSlot(s, s', q);
    }
  }

  lemma PcSlot(s: State, s': State, q: nat)
    requires q < |s.slots| == |s'.slots| && SlotOk(s, q) && ParentOk(s, q) && PcTurn(s, s', q)
    requires s' == s.(slots := s'.slots, waitLock := s'.waitLock)
    requires forall q :: 0 <= q < |s.slots| ==> s'.slots[q] == s.slots[q].(pc := s'.slots[q].pc)
    ensures SlotOk(s', q) && ParentOk(s', q)
  {
  }

  /** The steps that do so, but for reparent. */
  lemma TurnKeeps(s: State, a: Step)
    requires Inv(s) && Enabled(s, a)
    requires a.Exit? || a.WakeParent? || a.DropWaitLock? || a.Wait? || a.WaitFault? || a.WaitNone? || a.Doze? || a.Rouse?
             || a.Rescan?
    ensures Inv(Do(s, a))
  {
    hide Pids, History, ParentOk, Rid;
    var s' := Do(s, a);
    assert SlotOk(s, a.p);
    forall q | 0 <= q < |s.slots|
      ensures s'.slots[q] == s.slots[q].(pc := s'.slots[q].pc) && PcTurn(s, s', q)
    {
      assert SlotOk(s, q);
      RidStart(s, q);
    }
    PcKeeps(s, s');
  }

  lemma RidStart(s: State, p: nat)
    ensures Rid(s, p, 0) && (Rid(s, p, |s.slots|) ==> Rid(s, p, |s.slots| + 1))
  {
  }

  /** One turn of reparent: slot i, if it is a child of p, becomes a child of init. */
  lemma Reparented(s: State, p: nat, q: nat)
    requires Enabled(s, Reparent(p)) && q < |s.slots|
    ensures var s', i := Do(s, Reparent(p)), s.slots[p].pc.i;
      && |s'.slots| == |s.slots| && s' == s.(slots := s'.slots)
      && s'.slots[q] == s.slots[q].(
           parent := if q == i && s.slots[q].parent == p then INIT else s.slots[q].parent,
           pc := if q == p then Exiting(i + 1, s.slots[p].pc.status)
                 else if q == INIT && s.slots[i].parent == p && s.slots[q].pc == Asleep then Woken
                 else s.slots[q].pc)
  {
  }

  lemma ReparentSlot(s: State, p: nat, q: nat)
    requires Inv(s) && Enabled(s, Reparent(p)) && q < |s.slots|
    ensures SlotOk(Do(s, Reparent(p)), q)
  {
    var s' := Do(s, Reparent(p));
    forall r | 0 <= r < |s.slots|
      ensures s'.slots[r] == s.slots[r].(parent := s'.slots[r].parent, pc := s'.slots[r].pc)
      ensures s'.slots[r].parent != s.slots[r].parent ==> s.slots[r].parent == p && s'.slots[r].parent == INIT
      ensures r == s.slots[p].pc.i ==> s'.slots[r].parent != p
      ensures r != p && s'.slots[r].pc != s.slots[r].pc ==> s.slots[r].pc == Asleep && s'.slots[r].pc == Woken
    {
      assert SlotOk(s, p);
      Reparented(s, p, r);
    }
    Reparented(s, p, p);
    Reparented(s, p, q);
    hide Do, Enabled, Pids, History, ParentOk;
    assert SlotOk(s, p) && SlotOk(s, q);
  }

  lemma ReparentKeeps(s: State, p: nat)
    requires Inv(s) && Enabled(s, Reparent(p))
    ensures Inv(Do(s, Reparent(p)))
  {
    hide Pids, History, Do;
    var s' := Do(s, Reparent(p));
    Reparented(s, p, p);
    forall q | 0 <= q < |s.slots|
      ensures s'.slots[q] == s.slots[q].(parent := s'.slots[q].parent, pc := s'.slots[q].pc)
      ensures s'.slots[q].parent == s.slots[q].parent || (s.slots[q].parent == p && s'.slots[q].parent == INIT)
    {
      Reparented(s, p, q);
    }
    HistoryStays(s, s');
    forall q | 0 <= q < |s.slots|
      ensures SlotOk(s', q) && ParentOk(s', q)
    {
      ReparentSlot(s, p, q);
      assert ParentOk(s, q);
    }
    hide SlotOk, ParentOk;
  }

  lemma DieHistory(s: State, p: nat)
    requires Inv(s) && Enabled(s, Die(p))
    ensures var s' := Do(s, Die(p)); Pids(s') && History(s')
  {
    hide ParentOk;
    assert SlotOk(s, p);
  }

  lemma DieKeeps(s: State, p: nat)
    requires Inv(s) && Enabled(s, Die(p))
    ensures Inv(Do(s, Die(p)))
  {
    hide Pids, History;
    var s' := Do(s, Die(p));
    assert SlotOk(s, p) && ParentOk(s, p);
    DieHistory(s, p);
    forall q | 0 <= q < |s.slots|
      ensures SlotOk(s', q) && ParentOk(s', q)
    {
      assert SlotOk(s, q) && ParentOk(s, q);
    }
  }

  lemma ReapHistory(s: State, p: nat, c: nat)
    requires Inv(s) && Enabled(s, Reap(p, c))
    ensures var s' := Do(s, Reap(p, c)); Pids(s') && History(s')
  {
    hide ParentOk;
    assert SlotOk(s, p) && SlotOk(s, c);
  }

  lemma ReapKeeps(s: State, p: nat, c: nat)
    requires Inv(s) && Enabled(s, Reap(p, c))
    ensures Inv(Do(s, Reap(p, c)))
  {
    hide Pids, History;
    var s' := Do(s, Reap(p, c));
    assert SlotOk(s, p) && ParentOk(s, p);
    assert SlotOk(s, c) && ParentOk(s, c);
    ReapHistory(s, p, c);
    forall q | 0 <= q < |s.slots|
      ensures SlotOk(s', q) && ParentOk(s', q)
    {
      assert SlotOk(s, q) && ParentOk(s, q);
    }
  }

  lemma StepKeeps(s: State, a: Step)
    requires Inv(s) && Enabled(s, a)
    ensures Inv(Do(s, a))
  {
    hide Inv, Enabled, Do;
    match a
    case Alloc(p, np) => AllocKeeps(s, p, np);
    case ForkFail(p) => ForkFailKeeps(s, p);
    case Link(p) => LinkKeeps(s, p);
    case Start(p) => StartKeeps(s, p);
    case Reparent(p) => ReparentKeeps(s, p);
    case Die(p) => DieKeeps(s, p);
    case Reap(p, c) => ReapKeeps(s, p, c);
    case _ => TurnKeeps(s, a);
  }

  // ---------------------------------------------------------------- runs

  ghost predicate IsRun(ss: seq<State>, steps: seq<Step>) {
    && |ss| == |steps| + 1 && Init(ss[0])
    && forall i :: 0 <= i < |steps| ==> Enabled(ss[i], steps[i]) && ss[i + 1] == Do(ss[i], steps[i])
  }

  lemma {:induction false} RunInv(ss: seq<State>, steps: seq<Step>, i: nat)
    requires IsRun(ss, steps) && i < |ss|
    ensures Inv(ss[i])
  {
    hide Inv, Enabled, Do, Init;
    if i == 0 {
      InitInv(ss[0]);
    } else {
      RunInv(ss, steps, i - 1);
      StepKeeps(ss[i - 1], steps[i - 1]);
    }
  }

  /** In every reachable state, whoever is somebody's parent is alive: not a zombie, not a free slot,
      not one that fork is still filling. */
  lemma ParentsAlive(ss: seq<State>, steps: seq<Step>, i: nat, q: nat)
    requires IsRun(ss, steps) && i < |ss| && q < |ss[i].slots| && ss[i].slots[q].parent != NONE
    ensures var r := ss[i].slots[q].parent; 0 <= r < |ss[i].slots| && ss[i].slots[r].life == Live
  {
    hide Enabled, Do, Init, Pids, History, SlotOk;
    RunInv(ss, steps, i);
    assert ParentOk(ss[i], q);
  }

  /** So a slot that fork reuses has no children. */
  lemma FreshSlotChildless(ss: seq<State>, steps: seq<Step>, i: nat, p: nat, np: nat, q: nat)
    requires IsRun(ss, steps) && i < |steps| && steps[i] == Alloc(p, np) && q < |ss[i + 1].slots|
    ensures ss[i + 1].slots[q].parent != np
  {
    hide Init, Pids, History, SlotOk;
    RunInv(ss, steps, i + 1);
    assert ParentOk(ss[i + 1], q);
    assert Enabled(ss[i], steps[i]) && ss[i + 1] == Do(ss[i], steps[i]);
  }

  /** wait reports each exited process once, with the status that is recorded for its pid. */
  lemma ReapedOnce(ss: seq<State>, steps: seq<Step>, i: nat, j: nat, k: nat)
    requires IsRun(ss, steps) && i < |ss| && j < |ss[i].reaped| && k < |ss[i].reaped|
    ensures ss[i].reaped[j].pid in ss[i].exits && ss[i].reaped[j].status == ss[i].exits[ss[i].reaped[j].pid]
    ensures j != k ==> ss[i].reaped[j].pid != ss[i].reaped[k].pid
  {
    hide Enabled, Do, Init, Pids, SlotOk, ParentOk;
    RunInv(ss, steps, i);
  }

  /** Whoever reaps a process is the one that is recorded to have forked it, or init. */
  lemma ReapedByParent(ss: seq<State>, steps: seq<Step>, i: nat, p: nat, c: nat)
    requires IsRun(ss, steps) && i < |steps| && steps[i] == Reap(p, c)
    ensures var s := ss[i];
      && p < |s.slots| && c < |s.slots| && s.slots[c].pid in s.makers
      && (p == INIT || s.slots[p].pid == s.makers[s.slots[c].pid])
  {
    hide Do, Init, Pids, History;
    RunInv(ss, steps, i);
    assert Enabled(ss[i], steps[i]);
    assert ParentOk(ss[i], c) && SlotOk(ss[i], c);
  }

  /** The status of a pid is set once: exits only grows. */
  lemma ExitsGrow(s: State, a: Step)
    requires Inv(s) && Enabled(s, a)
    ensures forall pid :: pid in s.exits ==> pid in Do(s, a).exits && Do(s, a).exits[pid] == s.exits[pid]
  {
    hide SlotOk, ParentOk, Pids;
  }
}
