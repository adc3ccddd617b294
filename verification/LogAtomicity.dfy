/** When recovery yields exactly what was passed to log_write. Commit saves the contents that the
    header's blocks have at the time, so a block that was stored into after its last log_write
    makes the difference. */
module LogAtomicity {
  import opened RedoLog
  import opened LogMachine

  /** The logged updates of a history. */
  function LoggedOnly(h: seq<Event>): seq<Event> {
    if h == [] then [] else
      var e := h[|h| - 1];
      LoggedOnly(h[..|h| - 1]) + if e.logged then [e] else []
  }

  /** The last update of block b, and the last logged one; -1 if there is none. */
  function LastOn(h: seq<Event>, b: nat): (i: int)
    ensures -1 <= i < |h| && (i >= 0 ==> h[i].w.b == b)
    ensures forall k :: 0 <= k < |h| && h[k].w.b == b ==> k <= i
  {
    if h == [] then -1
    else if h[|h| - 1].w.b == b then |h| - 1
    else LastOn(h[..|h| - 1], b)
  }

  function LastLogged(h: seq<Event>, b: nat): (i: int)
    ensures -1 <= i < |h| && (i >= 0 ==> h[i].w.b == b && h[i].logged)
    ensures forall k :: 0 <= k < |h| && h[k].w.b == b && h[k].logged ==> k <= i
  {
    if h == [] then -1
    else if h[|h| - 1].w.b == b && h[|h| - 1].logged then |h| - 1
    else LastLogged(h[..|h| - 1], b)
  }

  /** The last update of block b was stored after its last log_write, and differs from it. */
  predicate Tainted(h: seq<Event>, b: nat) {
    LastLogged(h, b) >= 0 && h[LastOn(h, b)].w.v != h[LastLogged(h, b)].w.v
  }

  ghost predicate Untainted(h: seq<Event>) {
    forall b :: !Tainted(h, b)
  }

  /** Updates are of home blocks, and a block is logged before it is stored into unlogged. */
  ghost predicate Rooted(c: Setting, h: seq<Event>) {
    forall i :: 0 <= i < |h| ==> !c.a.Has(h[i].w.b) && LastLogged(h[..i + 1], h[i].w.b) >= 0
  }

  // ---------------------------------------------------------------- replaying

  lemma {:induction false} ReplayLast(c: Setting, h: seq<Event>, b: nat)
    ensures var i, d := LastOn(h, b), Replay(c, h);
      if i >= 0 then b in d && d[b] == h[i].w.v
      else (b in d <==> b in c.h0) && (b in d ==> d[b] == c.h0[b])
    decreases |h|
  {
    if h == [] {
      assert Updates(h) == [];
    } else {
      var p, e := h[..|h| - 1], h[|h| - 1];
      assert p + [e] == h;
      ReplaySnoc(c, p, e);
      ReplayLast(c, p, b);
    }
  }

  lemma {:induction false} ReplayLogged(c: Setting, h: seq<Event>, b: nat)
    ensures var i, d := LastLogged(h, b), Replay(c, LoggedOnly(h));
      if i >= 0 then b in d && d[b] == h[i].w.v
      else (b in d <==> b in c.h0) && (b in d ==> d[b] == c.h0[b])
    decreases |h|
  {
    if h == [] {
      assert Updates(LoggedOnly(h)) == [];
    } else {
      var p, e := h[..|h| - 1], h[|h| - 1];
      ReplayLogged(c, p, b);
      if e.logged {
        ReplaySnoc(c, LoggedOnly(p), e);
      } else {
        assert LoggedOnly(h) == LoggedOnly(p);
      }
    }
  }

  lemma RootedLast(c: Setting, h: seq<Event>, b: nat)
    requires Rooted(c, h) && LastOn(h, b) >= 0
    ensures LastLogged(h, b) >= 0 && !c.a.Has(b)
  {
    var i := LastOn(h, b);
    var j := LastLogged(h[..i + 1], b);
    assert h[..i + 1][j] == h[j];
  }

  /** The two replays give the same home blocks exactly when no block is tainted. */
  lemma ReplaysAgree(c: Setting, h: seq<Event>)
    requires Rooted(c, h)
    ensures SameHome(Replay(c, h), Replay(c, LoggedOnly(h)), c.a) <==> Untainted(h)
  {
    hide Replay, LoggedOnly, LastOn, LastLogged, Rooted;
    forall b
      ensures b in Replay(c, h) <==> b in Replay(c, LoggedOnly(h))
      ensures Tainted(h, b) ==> !c.a.Has(b) && b in Replay(c, h)
      ensures b in Replay(c, h) ==> (Tainted(h, b) <==> Replay(c, h)[b] != Replay(c, LoggedOnly(h))[b])
    {
      ReplayLast(c, h, b);
      ReplayLogged(c, h, b);
      if LastOn(h, b) >= 0 {
        RootedLast(c, h, b);
      }
    }
  }

  // ---------------------------------------------------------------- what every run keeps

  /** The header's blocks have been written to the disk's header. */
  predicate Passed(s: State) {
    s.phase.Recovering? || (s.phase.Committing? && s.phase.k > |s.bs|)
  }

  /** The blocks of the header are those with an update after the cut; each has a logged one. */
  ghost predicate Headed(c: Setting, s: State) {
    && Rooted(c, s.hist) && s.cut <= |s.hist|
    && (!Passed(s) ==> forall b :: b in s.bs ==> LastLogged(s.hist, b) >= s.cut)
    && (forall i :: s.cut <= i < |s.hist| ==> s.hist[i].w.b in s.bs)
  }

  lemma RootedSnoc(c: Setting, h: seq<Event>, e: Event)
    requires Rooted(c, h) && !c.a.Has(e.w.b) && (e.logged || LastLogged(h, e.w.b) >= 0)
    ensures Rooted(c, h + [e])
  {
    hide LastOn;
    var h' := h + [e];
    forall i | 0 <= i < |h'|
      ensures !c.a.Has(h'[i].w.b) && LastLogged(h'[..i + 1], h'[i].w.b) >= 0
    {
      if i < |h| {
        assert h'[..i + 1] == h[..i + 1];
      } else {
        assert h'[..i + 1] == h' && h'[..|h|] == h;
      }
    }
  }

  lemma RootedPrefix(c: Setting, h: seq<Event>, n: nat)
    requires Rooted(c, h) && n <= |h|
    ensures Rooted(c, h[..n])
  {
    hide LastLogged;
    forall i | 0 <= i < n
      ensures !c.a.Has(h[..n][i].w.b) && LastLogged(h[..n][..i + 1], h[..n][i].w.b) >= 0
    {
      assert h[..n][..i + 1] == h[..i + 1];
    }
  }

  lemma LastLoggedSnoc(h: seq<Event>, e: Event, b: nat)
    ensures LastLogged(h + [e], b) == if e.logged && e.w.b == b then |h| else LastLogged(h, b)
  {
    assert (h + [e])[..|h|] == h;
  }

  lemma LogWriteHeaded(c: Setting, s: State, op: Op, b: nat, v: Block)
    requires Inv(c, s) && Enabled(c, s, LogWrite(op, b, v)) && Headed(c, s)
    ensures Headed(c, Do(c, s, LogWrite(op, b, v)))
  {
    hide Rooted, LastLogged, Durable, Current, LogOk, Writes;
    var s' := Do(c, s, LogWrite(op, b, v));
    if !s'.panicked {
      var e := Event(op, Write(b, v), true);
      RootedSnoc(c, s.hist, e);
      forall x | x in s'.bs
        ensures LastLogged(s'.hist, x) >= s'.cut
      {
        LastLoggedSnoc(s.hist, e, x);
      }
    }
  }

  lemma StoreHeaded(c: Setting, s: State, op: Op, b: nat, v: Block)
    requires Inv(c, s) && Enabled(c, s, Store(op, b, v)) && Headed(c, s)
    ensures Headed(c, Do(c, s, Store(op, b, v)))
  {
    hide Rooted, LastLogged, Durable, Current, LogOk, Writes;
    var s' := Do(c, s, Store(op, b, v));
    if b in s.bs {
      var e := Event(op, Write(b, v), false);
      RootedSnoc(c, s.hist, e);
      forall x | x in s'.bs
        ensures LastLogged(s'.hist, x) >= s'.cut
      {
        LastLoggedSnoc(s.hist, e, x);
      }
    }
  }

  lemma StepHeaded(c: Setting, s: State, st: Step)
    requires Inv(c, s) && Enabled(c, s, st) && Headed(c, s)
    ensures Headed(c, Do(c, s, st))
  {
    hide Rooted, LastLogged, Durable, Current, LogOk;
    match st
    case LogWrite(op, b, v) => LogWriteHeaded(c, s, op, b, v);
    case Store(op, b, v) => StoreHeaded(c, s, op, b, v);
    case Crash => RootedPrefix(c, s.hist, s.cut);
    case _ =>
  }

  lemma {:induction false} RunHeaded(c: Setting, ss: seq<State>, sts: seq<Step>, i: nat)
    requires IsRun(c, ss, sts) && i < |ss|
    ensures Inv(c, ss[i]) && Headed(c, ss[i])
  {
    hide Inv, Init, TypeOk, Enabled, Do, Headed;
    InvAt(c, ss, sts, i);
    if i == 0 {
      InitHeaded(c, ss[0]);
    } else {
      RunHeaded(c, ss, sts, i - 1);
      assert Goes(c, ss[i - 1], sts[i - 1], ss[i]);
      StepHeaded(c, ss[i - 1], sts[i - 1]);
    }
  }

  lemma InitHeaded(c: Setting, s: State)
    requires Init(c, s)
    ensures Headed(c, s)
  {
  }

  // ---------------------------------------------------------------- exactly when

  /** A crash now yields the logged updates before the cut and nothing else. */
  ghost predicate Faithful(c: Setting, s: State) {
    && LogOk(s.disk, c.a) && s.cut <= |s.hist|
    && SameHome(Recovered(s.disk, c.a), Replay(c, LoggedOnly(s.hist[..s.cut])), c.a)
  }

  lemma SameHomeFlip(d: Disk, e: Disk, a: Area)
    requires SameHome(d, e, a)
    ensures SameHome(e, d, a)
  {
  }

  lemma FaithfulIff(c: Setting, s: State)
    requires Inv(c, s) && Headed(c, s)
    ensures Faithful(c, s) <==> Untainted(s.hist[..s.cut])
  {
    hide Replay, Recovered, LoggedOnly, Rooted, SameHome, Untainted, PhaseOk, LogOk;
    var h := s.hist[..s.cut];
    RootedPrefix(c, s.hist, s.cut);
    ReplaysAgree(c, h);
    var r, all, logged := Recovered(s.disk, c.a), Replay(c, h), Replay(c, LoggedOnly(h));
    if SameHome(r, logged, c.a) {
      SameHomeFlip(r, all, c.a);
      SameHomeTrans(all, r, logged, c.a);
    }
    if SameHome(all, logged, c.a) {
      SameHomeTrans(r, all, logged, c.a);
    }
  }

  /** In every state of every run, recovery yields exactly the logged updates before the commit
      point if and only if no block's last committed update is an unlogged store of contents other
      than those last logged. */
  lemma LoggedAtomicity(c: Setting, ss: seq<State>, sts: seq<Step>, i: nat)
    requires IsRun(c, ss, sts) && i < |ss|
    ensures ss[i].cut <= |ss[i].hist|
    ensures Faithful(c, ss[i]) <==> Untainted(ss[i].hist[..ss[i].cut])
  {
    hide Inv, Init, Goes, Faithful, Untainted;
    RunHeaded(c, ss, sts, i);
    FaithfulIff(c, ss[i]);
  }

  /** The commit point: the header goes to the disk. */
  predicate HeaderWrite(s: State, st: Step) {
    st.DiskWrite? && s.phase.Committing? && s.phase.k == |s.bs|
  }

  /** Block b of the header has other contents than it had at its last log_write. */
  predicate Changed(s: State, b: nat) {
    b in s.bs && b in s.view && LastLogged(s.hist, b) >= 0 && s.view[b] != s.hist[LastLogged(s.hist, b)].w.v
  }

  /** No header write of the run finds such a block. */
  ghost predicate CleanCommits(ss: seq<State>, sts: seq<Step>, n: nat)
    requires n <= |sts| < |ss|
  {
    forall i, b :: 0 <= i < n && HeaderWrite(ss[i], sts[i]) ==> !Changed(ss[i], b)
  }

  /** While a commit starts, the view of a header block is its last update. */
  lemma HeaderView(c: Setting, s: State, b: nat)
    requires Inv(c, s) && s.phase.Committing? && b in s.bs
    ensures LastOn(s.hist, b) >= 0 || b in c.h0
    ensures b in s.view && (LastOn(s.hist, b) >= 0 ==> s.view[b] == s.hist[LastOn(s.hist, b)].w.v)
  {
    hide Replay, LastOn, Durable, Writes;
    ReplayLast(c, s.hist, b);
    assert !c.a.Has(b);
  }

  /** A block without an update after n is as it was. */
  lemma TaintedBefore(h: seq<Event>, n: nat, b: nat)
    requires n <= |h| && LastOn(h, b) < n
    ensures Tainted(h, b) <==> Tainted(h[..n], b)
  {
    var p := h[..n];
    assert LastOn(h, b) >= 0 ==> p[LastOn(h, b)] == h[LastOn(h, b)];
    assert LastLogged(h, b) >= 0 ==> p[LastLogged(h, b)] == h[LastLogged(h, b)];
    assert LastOn(p, b) >= 0 ==> h[LastOn(p, b)] == p[LastOn(p, b)];
    assert LastLogged(p, b) >= 0 ==> h[LastLogged(p, b)] == p[LastLogged(p, b)];
    assert LastOn(p, b) == LastOn(h, b) && LastLogged(p, b) == LastLogged(h, b);
  }

  /** At the commit point a block becomes tainted exactly if it was changed. */
  lemma CommitTaints(c: Setting, s: State, b: nat)
    requires Inv(c, s) && Headed(c, s) && s.phase.Committing? && s.phase.k <= |s.bs|
    ensures b in s.bs ==> (Tainted(s.hist, b) <==> Changed(s, b))
    ensures b !in s.bs ==> (Tainted(s.hist, b) <==> Tainted(s.hist[..s.cut], b))
  {
    hide Durable, PhaseOk, Rooted, LastLogged;
    if b in s.bs {
      HeaderView(c, s, b);
    } else {
      assert LastOn(s.hist, b) < s.cut;
      TaintedBefore(s.hist, s.cut, b);
    }
  }

  lemma StepTaints(c: Setting, s: State, st: Step)
    requires Inv(c, s) && Headed(c, s) && Enabled(c, s, st) && Untainted(s.hist[..s.cut])
    requires HeaderWrite(s, st) ==> forall b :: !Changed(s, b)
    ensures var s' := Do(c, s, st); s'.cut <= |s'.hist| && Untainted(s'.hist[..s'.cut])
  {
    hide Inv, Headed, Tainted, Changed, Enabled, Do;
    assert TypeOk(c, s) by { InvType(c, s); }
    var s' := Do(c, s, st);
    CutGrows(c, s, st);
    if s'.cut == s.cut {
      assert s'.hist[..s'.cut] == s.hist[..s.cut];
    } else {
      CommitHist(c, s, st);
      assert s'.hist[..s'.cut] == s.hist;
      forall b
        ensures !Tainted(s.hist, b)
      {
        CommitTaints(c, s, b);
      }
    }
  }

  lemma InvType(c: Setting, s: State)
    requires Inv(c, s)
    ensures TypeOk(c, s)
  {
  }

  lemma CommitHist(c: Setting, s: State, st: Step)
    requires TypeOk(c, s) && Enabled(c, s, st) && HeaderWrite(s, st)
    ensures Do(c, s, st).hist == s.hist && Do(c, s, st).cut == |s.hist|
  {
  }

  lemma {:induction false} RunUntainted(c: Setting, ss: seq<State>, sts: seq<Step>, i: nat)
    requires IsRun(c, ss, sts) && i < |ss| && CleanCommits(ss, sts, i)
    ensures ss[i].cut <= |ss[i].hist| && Untainted(ss[i].hist[..ss[i].cut])
  {
    hide Inv, Headed, Tainted, Changed, Enabled, Do, Init, TypeOk, HeaderWrite;
    if i == 0 {
      InitUntainted(c, ss[0]);
    } else {
      RunUntainted(c, ss, sts, i - 1);
      RunHeaded(c, ss, sts, i - 1);
      assert Goes(c, ss[i - 1], sts[i - 1], ss[i]);
      StepTaints(c, ss[i - 1], sts[i - 1]);
    }
  }

  lemma InitUntainted(c: Setting, s: State)
    requires Init(c, s)
    ensures s.cut <= |s.hist| && Untainted(s.hist[..s.cut])
  {
  }

  /** Over whole runs: at every moment a crash yields exactly the logged updates before the commit
      point, if and only if no header write finds a block of the header with other contents than it
      had at its last log_write. */
  lemma AtomicIffClean(c: Setting, ss: seq<State>, sts: seq<Step>)
    requires IsRun(c, ss, sts)
    ensures (forall i :: 0 <= i < |ss| ==> Faithful(c, ss[i])) <==> CleanCommits(ss, sts, |sts|)
  {
    hide Inv, Headed, Tainted, Changed, Enabled, Do, Init, TypeOk, HeaderWrite, Faithful, Untainted;
    if CleanCommits(ss, sts, |sts|) {
      forall i | 0 <= i < |ss|
        ensures Faithful(c, ss[i])
      {
        RunUntainted(c, ss, sts, i);
        LoggedAtomicity(c, ss, sts, i);
      }
    } else {
      var i, b :| 0 <= i < |sts| && HeaderWrite(ss[i], sts[i]) && Changed(ss[i], b);
      RunHeaded(c, ss, sts, i);
      assert Goes(c, ss[i], sts[i], ss[i + 1]);
      ChangedDeparts(c, ss[i], sts[i], b);
      LoggedAtomicity(c, ss, sts, i + 1);
    }
  }

  lemma ChangedDeparts(c: Setting, s: State, st: Step, b: nat)
    requires Inv(c, s) && Headed(c, s) && TypeOk(c, s) && Enabled(c, s, st) && HeaderWrite(s, st) && Changed(s, b)
    ensures var s' := Do(c, s, st); s'.cut <= |s'.hist| && !Untainted(s'.hist[..s'.cut])
  {
    hide Inv, Headed, Tainted, Enabled, Do, TypeOk;
    CommitHist(c, s, st);
    CommitTaints(c, s, b);
    assert s.hist[..|s.hist|] == s.hist;
  }

  // ---------------------------------------------------------------- a write that faults

  /** One more step of a run that ends in s. */
  lemma More(c: Setting, ss: seq<State>, sts: seq<Step>, st: Step) returns (ss': seq<State>, sts': seq<Step>)
    requires IsRun(c, ss, sts) && TypeOk(c, ss[|sts|]) && Enabled(c, ss[|sts|], st)
    ensures IsRun(c, ss', sts') && |ss'| == |sts'| + 1 == |sts| + 2
    ensures ss'[|sts'|] == Do(c, ss[|sts|], st) && Inv(c, ss'[|sts'|]) && ss'[|sts'|].cut <= |ss'[|sts'|].hist|
  {
    hide Inv, TypeOk, Enabled, Do, IsRun;
    RunShape(c, ss, sts);
    Extend(c, ss, sts, st);
    ss', sts' := ss + [Do(c, ss[|sts|], st)], sts + [st];
    RunInv(c, ss', sts');
    CutFits(c, ss'[|sts'|]);
  }

  /** Operation 0 has logged v in block b alone, stored v' over it, and ended; k writes of the commit
      have been made. */
  ghost predicate Doomed(c: Setting, s: State, b: nat, v: Block, v': Block, k: nat) {
    && s.phase.Committing? && s.phase.k == k && !s.panicked && s.bs == [b] && b in s.view && s.view[b] == v'
    && s.hist == [Event(0, Write(b, v), true), Event(0, Write(b, v'), false)]
  }

  lemma DoomedWrite(c: Setting, s: State, b: nat, v: Block, v': Block, k: nat)
    requires Inv(c, s) && Doomed(c, s, b, v, v', k) && k < 2
    ensures TypeOk(c, s) && Enabled(c, s, DiskWrite) && Doomed(c, Do(c, s, DiskWrite), b, v, v', k + 1)
    ensures k == 1 ==> HeaderWrite(s, DiskWrite) && Do(c, s, DiskWrite).cut == 2
  {
    hide Durable, Current, LogOk, Recovered, Replay;
    CommitLength(c, s);
  }

  /** Up to the end of the operation. */
  lemma FaultEnds(c: Setting, d: Disk, b: nat, v: Block, v': Block) returns (ss: seq<State>, sts: seq<Step>)
    requires LogOk(d, c.a) && Clean(d, c.a) && SameHome(Recovered(d, c.a), c.h0, c.a)
    requires b in d && !c.a.Has(b) && c.limit >= 1 && c.a.size >= 2
    ensures |ss| == |sts| + 1 && IsRun(c, ss, sts) && Inv(c, ss[|sts|]) && Doomed(c, ss[|sts|], b, v, v', 0)
  {
    hide LogOk, SameHome, Recovered, Clean, IsRun, Inv, Doomed, Do, Enabled, TypeOk;
    ss, sts := Boot(c, d, map[]);
    RunShape(c, ss, sts);
    ss, sts := Start(c, ss, sts, 0);
    RunShape(c, ss, sts);
    RunInv(c, ss, sts);
    FirstOps(c, ss[|sts|], b, v, v');
    ss, sts := More(c, ss, sts, LogWrite(0, b, v));
    ss, sts := More(c, ss, sts, Store(0, b, v'));
    ss, sts := More(c, ss, sts, End(0));
  }

  /** From every boot there is a run in which an operation logs a block, stores other contents into
      it without logging them, as writei does when it has just allocated the block and the source
      faults, and ends. After the commit point, recovery yields the unlogged contents. */
  lemma FaultCommitted(c: Setting, d: Disk, b: nat, v: Block, v': Block) returns (ss: seq<State>, sts: seq<Step>)
    requires LogOk(d, c.a) && Clean(d, c.a) && SameHome(Recovered(d, c.a), c.h0, c.a)
    requires b in d && !c.a.Has(b) && v != v' && c.limit >= 1 && c.a.size >= 2
    ensures IsRun(c, ss, sts) && !Faithful(c, ss[|sts|])
    ensures var s := ss[|sts|];
      && s.cut == |s.hist| && LogOk(s.disk, c.a) && SameHome(Recovered(s.disk, c.a), c.h0[b := v'], c.a)
      && Replay(c, LoggedOnly(s.hist)) == c.h0[b := v]
  {
    hide LogOk, SameHome, Recovered, Clean, IsRun, Inv, Faithful, Replay, Do, Enabled, TypeOk, Untainted;
    ss, sts := FaultEnds(c, d, b, v, v');
    DoomedWrite(c, ss[|sts|], b, v, v', 0);
    ss, sts := More(c, ss, sts, DiskWrite);
    DoomedWrite(c, ss[|sts|], b, v, v', 1);
    ss, sts := More(c, ss, sts, DiskWrite);
    DoomedTainted(c, ss[|sts|], b, v, v');
    LoggedAtomicity(c, ss, sts, |sts|);
    CrashAtomicity(c, ss, sts, 0);
  }

  lemma FirstOps(c: Setting, s: State, b: nat, v: Block, v': Block)
    requires Inv(c, s) && s.phase.Idle? && !s.panicked && s.bs == [] && s.ops == map[0 := {}] && s.hist == []
    requires b in s.view && !c.a.Has(b) && c.limit >= 1 && c.a.size >= 2
    ensures TypeOk(c, s) && Enabled(c, s, LogWrite(0, b, v))
    ensures var s' := Do(c, s, LogWrite(0, b, v)); TypeOk(c, s') && Enabled(c, s', Store(0, b, v'))
    ensures var s' := Do(c, Do(c, s, LogWrite(0, b, v)), Store(0, b, v'));
      TypeOk(c, s') && Enabled(c, s', End(0)) && Doomed(c, Do(c, s', End(0)), b, v, v', 0)
  {
    hide Durable, Current, LogOk, Recovered, Replay, Whole, Sleepers;
    assert |{b}| == 1 && {} + {b} == {b};
    var s1 := Do(c, s, LogWrite(0, b, v));
    var s2 := Do(c, s1, Store(0, b, v'));
    assert s2.ops - {0} == map[];
  }

  lemma DoomedTainted(c: Setting, s: State, b: nat, v: Block, v': Block)
    requires Doomed(c, s, b, v, v', 2) && s.cut == 2 && v != v'
    ensures s.hist[..s.cut] == s.hist && !Untainted(s.hist)
    ensures Replay(c, s.hist) == c.h0[b := v'] && Replay(c, LoggedOnly(s.hist)) == c.h0[b := v]
  {
    var h := s.hist;
    var p := [h[0]];
    assert h[..1] == p && p[..0] == [] && [] + p == p && p + [h[1]] == h;
    assert LastLogged(h, b) == 0 && LastOn(h, b) == 1;
    assert Tainted(h, b);
    assert LoggedOnly(p) == LoggedOnly([]) + p && LoggedOnly(h) == LoggedOnly(p);
    ReplaySnoc(c, p, h[1]);
    ReplaySnoc(c, [], h[0]);
    assert Updates([]) == [];
  }
}
